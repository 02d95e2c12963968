/** The codec of short codes: pkg/base62/base62.go.  A `char` stands for a byte. */
module Base62 {
  import opened Common

  const BASE: nat := 62
  const BUFFER: nat := 11

  const DEFAULT_ALPHABET: string := "vPh7zQwE9oA4cK8s" + "Y2mD6gU1lX5rN3tB" + "0iJfFkOqHjuyxWnC" + "ZbVMIaLdTReSGp"

  /** Any 62 bytes: the constructor checks nothing but the length. */
  type Alphabet = a: string | |a| == BASE witness seq(BASE, i => 'a')

  predicate Distinct(a: Alphabet) {
    forall i, j :: 0 <= i < j < BASE ==> a[i] != a[j]
  }

  type Digit = d: nat | d < BASE

  function Power(k: nat): nat {
    if k == 0 then 1 else BASE * Power(k - 1)
  }

  /** What a sequence of digits, most significant first, is worth. */
  function Value(ds: seq<Digit>): nat {
    if ds == [] then 0 else Value(ds[..|ds| - 1]) * BASE + ds[|ds| - 1]
  }

  function Digits(n: nat): seq<Digit> {
    if n < BASE then [n] else Digits(n / BASE) + [n % BASE]
  }

  /** Without a leading zero, except for zero itself. */
  predicate Canonical(ds: seq<Digit>) {
    ds != [] && (ds[0] == 0 ==> |ds| == 1)
  }

  lemma {:induction false} DigitsHaveTheValue(n: nat)
    ensures Value(Digits(n)) == n && Canonical(Digits(n)) && (Digits(n)[0] == 0 <==> n == 0)
  {
    if n >= BASE {
      DigitsHaveTheValue(n / BASE);
      assert Digits(n)[..|Digits(n)| - 1] == Digits(n / BASE);
    }
  }

  lemma {:induction false} CanonicalDigitsAreUnique(ds: seq<Digit>)
    requires Canonical(ds)
    ensures Digits(Value(ds)) == ds && (ds[0] != 0 ==> Value(ds) > 0)
  {
    if |ds| == 1 {
      assert ds == [ds[0]] && Value(ds[..0]) == 0;
    } else {
      var init, last := ds[..|ds| - 1], ds[|ds| - 1];
      CanonicalDigitsAreUnique(init);
      assert Value(ds) / BASE == Value(init) && Value(ds) % BASE == last;
      assert ds == init + [last];
    }
  }

  /** A number has at most `k` digits exactly when it is below 62^k. */
  lemma {:induction false} LengthIff(n: nat, k: nat)
    requires k > 0
    ensures |Digits(n)| <= k <==> n < Power(k)
  {
    if k == 1 {
      assert Power(1) == BASE * Power(0) == BASE;
    } else if n < BASE {
      PowersAreLarge(k);
    } else {
      LengthIff(n / BASE, k - 1);
      assert n / BASE < Power(k - 1) <==> n < BASE * Power(k - 1);
    }
  }

  lemma {:induction false} PowersAreLarge(k: nat)
    requires k > 0
    ensures Power(k) >= BASE
  {
    if k == 1 {
      assert Power(1) == BASE * Power(0) == BASE;
    } else {
      PowersAreLarge(k - 1);
    }
  }

  lemma PowersOf62()
    ensures Power(10) == 839_299_365_868_340_224 && Power(11) == 52_036_560_683_837_093_888
  {
    assert Power(2) == 62 * Power(1) && Power(1) == 62 * Power(0);
    assert Power(5) == 62 * Power(4) && Power(4) == 62 * Power(3) && Power(3) == 62 * Power(2);
    assert Power(8) == 62 * Power(7) && Power(7) == 62 * Power(6) && Power(6) == 62 * Power(5);
    assert Power(11) == 62 * Power(10) && Power(10) == 62 * Power(9) && Power(9) == 62 * Power(8);
  }

  function Spell(a: Alphabet, ds: seq<Digit>): string {
    seq(|ds|, i requires 0 <= i < |ds| => a[ds[i]])
  }

  function Encoded(a: Alphabet, n: nat): string {
    Spell(a, Digits(n))
  }

  /** The first position of a byte, or -1. */
  function IndexByte(a: string, c: char): (i: int)
    ensures -1 <= i < |a|
    ensures i >= 0 ==> a[i] == c
    ensures forall k :: 0 <= k < (if i < 0 then |a| else i) ==> a[k] != c
  {
    if a == "" then -1
    else
      var i := IndexByte(a[..|a| - 1], c);
      if i >= 0 then i else if a[|a| - 1] == c then |a| - 1 else -1
  }

  predicate Readable(a: Alphabet, str: string) {
    forall i :: 0 <= i < |str| ==> IndexByte(a, str[i]) >= 0
  }

  function Read(a: Alphabet, str: string): seq<Digit>
    requires Readable(a, str)
  {
    seq(|str|, i requires 0 <= i < |str| => IndexByte(a, str[i]))
  }

  function Decoded(a: Alphabet, str: string): Result<nat> {
    if Readable(a, str) then Ok(Value(Read(a, str)) % UINT64) else Err
  }

  lemma ReadsWhatIsSpelled(a: Alphabet, ds: seq<Digit>)
    requires Distinct(a)
    ensures Readable(a, Spell(a, ds)) && Read(a, Spell(a, ds)) == ds
  {
    var str := Spell(a, ds);
    forall i | 0 <= i < |ds| ensures IndexByte(a, str[i]) == ds[i] {
      assert a[ds[i]] == str[i];
    }
  }

  lemma RoundTrips(a: Alphabet, n: nat)
    requires Distinct(a) && n < UINT64
    ensures Decoded(a, Encoded(a, n)) == Ok(n)
  {
    ReadsWhatIsSpelled(a, Digits(n));
    DigitsHaveTheValue(n);
  }

  lemma SingleDigit(a: Alphabet, n: nat)
    requires n < BASE
    ensures Encoded(a, n) == [a[n]]
  {}

  /** Every 64-bit number is read back from its code exactly when the 62 bytes of the alphabet are distinct. */
  lemma RoundTripIff(a: Alphabet)
    ensures Distinct(a) <==> forall n: nat :: n < UINT64 ==> Decoded(a, Encoded(a, n)) == Ok(n)
  {
    hide Encoded, Decoded;
    if Distinct(a) {
      forall n: nat | n < UINT64 ensures Decoded(a, Encoded(a, n)) == Ok(n) {
        RoundTrips(a, n);
      }
    } else {
      var i, j :| 0 <= i < j < BASE && a[i] == a[j];
      SingleDigit(a, i);
      SingleDigit(a, j);
    }
  }

  /** Where the byte of a given code stands in the default alphabet. */
  function Position(c: int): int {
    if c < 65 then
      match c
      case 48 => 32 case 49 => 23 case 50 => 17 case 51 => 29 case 52 => 11
      case 53 => 26 case 54 => 20 case 55 => 3 case 56 => 14
      case 57 => 8
      case _ => -1
    else if c < 78 then
      match c
      case 65 => 10 case 66 => 31 case 67 => 47 case 68 => 19 case 69 => 7
      case 70 => 36 case 71 => 60 case 72 => 40 case 73 => 52
      case 74 => 34 case 75 => 13 case 76 => 54 case 77 => 51
      case _ => -1
    else if c < 97 then
      match c
      case 78 => 28 case 79 => 38 case 80 => 1 case 81 => 5 case 82 => 57
      case 83 => 59 case 84 => 56 case 85 => 22 case 86 => 50
      case 87 => 45 case 88 => 25 case 89 => 16 case 90 => 48
      case _ => -1
    else if c < 110 then
      match c
      case 97 => 53 case 98 => 49 case 99 => 12 case 100 => 55 case 101 => 58
      case 102 => 35 case 103 => 21 case 104 => 2 case 105 => 33
      case 106 => 41 case 107 => 37 case 108 => 24 case 109 => 18
      case _ => -1
    else
      match c
      case 110 => 46 case 111 => 9 case 112 => 61 case 113 => 39 case 114 => 27
      case 115 => 15 case 116 => 30 case 117 => 42 case 118 => 0
      case 119 => 6 case 120 => 44 case 121 => 43 case 122 => 4
      case _ => -1
  }

  predicate Marks(part: string, first: nat) {
    forall i :: 0 <= i < |part| ==> Position(part[i] as int) == first + i
  }

  lemma Part0()
    ensures Marks("vPh7zQwE9oA4cK8s", 0)
  {
    var p := "vPh7zQwE9oA4cK8s";
    assert p[0] as int == 118 && p[1] as int == 80 && p[2] as int == 104 && p[3] as int == 55 && p[4] as int == 122
        && p[5] as int == 81 && p[6] as int == 119 && p[7] as int == 69
        && p[8] as int == 57 && p[9] as int == 111 && p[10] as int == 65 && p[11] as int == 52 && p[12] as int == 99
            && p[13] as int == 75 && p[14] as int == 56 && p[15] as int == 115;
  }

  lemma Part1()
    ensures Marks("Y2mD6gU1lX5rN3tB", 16)
  {
    var p := "Y2mD6gU1lX5rN3tB";
    assert p[0] as int == 89 && p[1] as int == 50 && p[2] as int == 109 && p[3] as int == 68 && p[4] as int == 54
        && p[5] as int == 103 && p[6] as int == 85 && p[7] as int == 49
        && p[8] as int == 108 && p[9] as int == 88 && p[10] as int == 53 && p[11] as int == 114 && p[12] as int == 78
            && p[13] as int == 51 && p[14] as int == 116 && p[15] as int == 66;
  }

  lemma Part2()
    ensures Marks("0iJfFkOqHjuyxWnC", 32)
  {
    var p := "0iJfFkOqHjuyxWnC";
    assert p[0] as int == 48 && p[1] as int == 105 && p[2] as int == 74 && p[3] as int == 102 && p[4] as int == 70
        && p[5] as int == 107 && p[6] as int == 79 && p[7] as int == 113
        && p[8] as int == 72 && p[9] as int == 106 && p[10] as int == 117 && p[11] as int == 121 && p[12] as int == 120
            && p[13] as int == 87 && p[14] as int == 110 && p[15] as int == 67;
  }

  lemma Part3()
    ensures Marks("ZbVMIaLdTReSGp", 48)
  {
    var p := "ZbVMIaLdTReSGp";
    assert p[0] as int == 90 && p[1] as int == 98 && p[2] as int == 86 && p[3] as int == 77 && p[4] as int == 73
        && p[5] as int == 97 && p[6] as int == 76 && p[7] as int == 100
        && p[8] as int == 84 && p[9] as int == 82 && p[10] as int == 101 && p[11] as int == 83 && p[12] as int == 71
            && p[13] as int == 112;
  }

  lemma DefaultIsDistinct()
    ensures |DEFAULT_ALPHABET| == BASE && Distinct(DEFAULT_ALPHABET)
  {
    Part0();
    Part1();
    Part2();
    Part3();
    forall i | 0 <= i < BASE ensures Position(DEFAULT_ALPHABET[i] as int) == i {
      PartsJoin(i);
    }
    hide Position, DEFAULT_ALPHABET;
  }

  lemma PartsJoin(i: nat)
    requires i < BASE
    requires Marks("vPh7zQwE9oA4cK8s", 0) && Marks("Y2mD6gU1lX5rN3tB", 16) && Marks("0iJfFkOqHjuyxWnC", 32)
              && Marks("ZbVMIaLdTReSGp", 48)
    ensures Position(DEFAULT_ALPHABET[i] as int) == i
  {
    hide Position;
    var a, b, c, d := "vPh7zQwE9oA4cK8s", "Y2mD6gU1lX5rN3tB", "0iJfFkOqHjuyxWnC", "ZbVMIaLdTReSGp";
    assert DEFAULT_ALPHABET == a + b + c + d && |a| == |b| == |c| == 16;
    assert DEFAULT_ALPHABET[i] == if i < 16 then a[i] else if i < 32 then b[i - 16] else if i < 48 then c[i - 32]
        else d[i - 48];
  }

  lemma ReadIsSpelledBack(a: Alphabet, str: string)
    requires Readable(a, str)
    ensures Spell(a, Read(a, str)) == str
  {}

  /** A readable string is given back exactly when it is canonical and its value fits 64 bits. */
  lemma CanonicalIff(a: Alphabet, str: string)
    requires Distinct(a) && Readable(a, str)
    ensures Encoded(a, Decoded(a, str).value) == str <==> Canonical(Read(a, str)) && Value(Read(a, str)) < UINT64
  {
    hide Read, Spell, Value, Digits, Readable, Distinct;
    var ds := Read(a, str);
    var n := Value(ds) % UINT64;
    ReadIsSpelledBack(a, str);
    if Encoded(a, n) == str {
      ReadsWhatIsSpelled(a, Digits(n));
      DigitsHaveTheValue(n);
    }
    if Canonical(ds) && Value(ds) < UINT64 {
      CanonicalDigitsAreUnique(ds);
    }
  }

  /** The code is never longer than the buffer. */
  lemma CodesFitTheBuffer(a: Alphabet, n: nat)
    requires n < UINT64
    ensures 1 <= |Encoded(a, n)| <= BUFFER
  {
    PowersOf62();
    LengthIff(n, BUFFER);
    DigitsHaveTheValue(n);
  }

  lemma EmptyIsZero(a: Alphabet)
    ensures Decoded(a, "") == Ok(0)
  {}

  lemma DecodeStep(a: Alphabet, str: string, c: char)
    requires Decoded(a, str).Ok?
    ensures Decoded(a, str + [c]) ==
              if IndexByte(a, c) == -1 then Err else Ok((Decoded(a, str).value * BASE + IndexByte(a, c)) % UINT64)
  {
    var longer := str + [c];
    if IndexByte(a, c) == -1 {
      assert longer[|str|] == c;
    } else {
      assert Read(a, longer) == Read(a, str) + [IndexByte(a, c)];
      WrapStep(Value(Read(a, str)), BASE, IndexByte(a, c));
    }
  }

  lemma UnreadablePrefix(a: Alphabet, str: string, i: nat)
    requires i <= |str| && Decoded(a, str[..i]).Err?
    ensures Decoded(a, str).Err?
  {
    var k :| 0 <= k < i && IndexByte(a, str[..i][k]) < 0;
    assert IndexByte(a, str[k]) < 0;
  }

  /** What is still to be written in front when `n` is left. */
  function Rest(a: Alphabet, n: nat): string {
    if n > 0 then Encoded(a, n) else ""
  }

  lemma RestStep(a: Alphabet, n: nat)
    requires n > 0
    ensures Rest(a, n) == Rest(a, n / BASE) + [a[n % BASE]]
  {}

  lemma RestEnds(a: Alphabet, n: nat)
    ensures Rest(a, 0) == "" && (n > 0 ==> Rest(a, n) == Encoded(a, n))
  {}

  lemma OneDigitLess(n: nat, k: nat)
    requires 0 < n < Power(k)
    ensures k > 0 && n / BASE < Power(k - 1)
  {}

  class Codec {
    const alphabet: Alphabet

    constructor (customAlphabet: Option<string>)
      ensures alphabet == if customAlphabet.Some? && |customAlphabet.value| == BASE then customAlphabet.value
                else DEFAULT_ALPHABET
    {
      var alpha := DEFAULT_ALPHABET;
      if customAlphabet.Some? && |customAlphabet.value| == BASE {
        alpha := customAlphabet.value;
      }
      alphabet := alpha;
    }

    method Encode(number: nat) returns (str: string)
      requires number < UINT64
      ensures str == Encoded(alphabet, number)
    {
      hide Encoded, Rest, Power;
      if number == 0 {
        SingleDigit(alphabet, 0);
        return [alphabet[0]];
      }
      var buf := new char[BUFFER];
      var idx := BUFFER;
      var num: nat := number;
      PowersOf62();
      assert buf[idx..] == [];
      while num > 0
        invariant idx <= BUFFER && num < Power(idx)
        invariant Rest(alphabet, number) == Rest(alphabet, num) + buf[idx..]
      {
        OneDigitLess(num, idx);
        RestStep(alphabet, num);
        ghost var tail := buf[idx..];
        idx := idx - 1;
        buf[idx] := alphabet[num % BASE];
        assert buf[idx..] == [alphabet[num % BASE]] + tail;
        assert Rest(alphabet, num) + tail == Rest(alphabet, num / BASE) + buf[idx..];
        num := num / BASE;
      }
      RestEnds(alphabet, number);
      str := buf[idx..];
    }

    method Decode(str: string) returns (r: Result<nat>)
      ensures r == Decoded(alphabet, str)
    {
      hide Decoded, IndexByte;
      var num := 0;
      EmptyIsZero(alphabet);
      for i := 0 to |str|
        invariant Decoded(alphabet, str[..i]) == Ok(num)
      {
        var index := IndexByte(alphabet, str[i]);
        if index == -1 {
          DecodeStep(alphabet, str[..i], str[i]);
          assert str[..i + 1] == str[..i] + [str[i]];
          UnreadablePrefix(alphabet, str, i + 1);
          return Err;
        }
        DecodeStep(alphabet, str[..i], str[i]);
        assert str[..i + 1] == str[..i] + [str[i]];
        num := (num * BASE + index) % UINT64;
      }
      assert str[..|str|] == str;
      r := Ok(num);
    }
  }
}
