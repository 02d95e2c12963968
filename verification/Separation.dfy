/** What the hashes of pkg/bloom/bloom.go keep apart, and so what the filter rejects. */
module Separation {
  import opened Common
  import opened Bloom

  function Pow(b: nat, n: nat): nat {
    if n == 0 then 1 else Pow(b, n - 1) * b
  }

  /** The bytes are digits in base `seed`: appending shifts what was there. */
  lemma {:induction false} PolynomialOfJoin(s: string, t: string, seed: nat)
    ensures Polynomial(s + t, seed) == Polynomial(s, seed) * Pow(seed, |t|) + Polynomial(t, seed)
    ensures forall c :: Polynomial([c], seed) == c as nat
  {
    forall c ensures Polynomial([c], seed) == c as nat {
      assert [c][..0] == "";
    }
    if t == "" {
      assert s + t == s;
    } else {
      var init := t[..|t| - 1];
      PolynomialOfJoin(s, init, seed);
      assert (s + t)[..|s + t| - 1] == s + init;
      Distribute(Polynomial(s, seed), Pow(seed, |init|), Polynomial(init, seed), seed);
    }
  }

  lemma Distribute(a: nat, b: nat, c: nat, d: nat)
    ensures (a * b + c) * d == a * (b * d) + c * d
  {}

  /** Equal lengths, one byte different. */
  lemma OneByteApart(p: string, c: char, d: char, t: string, seed: nat)
    ensures Polynomial(p + [c] + t, seed) - Polynomial(p + [d] + t, seed) == (c as int - d as int) * Pow(seed, |t|)
  {
    WithByte(p, c, t, seed);
    WithByte(p, d, t, seed);
    var x, y := Polynomial(p, seed) * seed, Pow(seed, |t|);
    hide Polynomial, Pow;
    Difference(x, c as int, d as int, y);
  }

  lemma WithByte(p: string, c: char, t: string, seed: nat)
    ensures Polynomial(p + [c] + t, seed) ==
            (Polynomial(p, seed) * seed + c as nat) * Pow(seed, |t|) + Polynomial(t, seed)
  {
    hide Polynomial, Pow;
    PolynomialOfJoin(p + [c], t, seed);
    OneMoreByte(p, c, seed);
  }

  lemma OneMoreByte(p: string, c: char, seed: nat)
    ensures Polynomial(p + [c], seed) == Polynomial(p, seed) * seed + c as nat
  {
    assert (p + [c])[..|p|] == p;
  }

  lemma Difference(x: int, c: int, d: int, y: int)
    ensures (x + c) * y - (x + d) * y == (c - d) * y
  {}

  /** Multiplying by the seed loses nothing modulo `m`. */
  ghost predicate Cancels(seed: nat, m: Size) {
    forall x: int :: Divides(m, x * seed) ==> Divides(m, x)
  }

  predicate Divides(m: Size, x: int) {
    x % m == 0
  }

  lemma {:induction false} CancelsPower(seed: nat, m: Size, x: int, n: nat)
    requires Cancels(seed, m) && Divides(m, x * Pow(seed, n))
    ensures Divides(m, x)
  {
    if n > 0 {
      assert x * Pow(seed, n) == (x * Pow(seed, n - 1)) * seed;
      CancelsPower(seed, m, x, n - 1);
    }
  }

  lemma MultipleOf(m: Size, k: int)
    ensures Divides(m, k * m)
  {
    var r := (k * m) % m;
    var q := (k * m) / m - k;
    assert q * m == -r;
    Grows(q, m);
  }

  lemma Grows(q: int, m: Size)
    ensures q > 0 ==> q * m >= m
    ensures q < 0 ==> q * m <= -(m as int)
  {}

  lemma SameRemainderIff(a: int, b: int, m: Size)
    ensures a % m == b % m <==> Divides(m, a - b)
  {
    var q := a / m - b / m;
    assert a - b == q * m + (a % m - b % m);
    if a % m == b % m {
      MultipleOf(m, q);
    }
    if Divides(m, a - b) {
      var k := (a - b) / m - q;
      assert k * m == a % m - b % m;
      Grows(k, m);
    }
  }

  /** A seed that loses nothing modulo `m` keeps strings apart that differ in one byte, exactly unless the difference is
      a multiple of `m`. */
  lemma SeparatesIff(p: string, c: char, d: char, t: string, seed: nat, m: Size)
    requires Cancels(seed, m)
    ensures Polynomial(p + [c] + t, seed) % m == Polynomial(p + [d] + t, seed) % m <==> (c as int - d as int) % m == 0
  {
    var x := c as int - d as int;
    OneByteApart(p, c, d, t, seed);
    SameRemainderIff(Polynomial(p + [c] + t, seed), Polynomial(p + [d] + t, seed), m);
    if Divides(m, x * Pow(seed, |t|)) {
      CancelsPower(seed, m, x, |t|);
    }
    if Divides(m, x) {
      assert x == (x / m) * m;
      assert x * Pow(seed, |t|) == ((x / m) * Pow(seed, |t|)) * m;
      MultipleOf(m, (x / m) * Pow(seed, |t|));
    }
  }

  /** Odd seeds lose nothing modulo powers of two. */
  lemma {:induction false} OddCancels(seed: nat, k: nat)
    requires seed % 2 == 1
    ensures Pow(2, k) > 0 && Cancels(seed, Pow(2, k))
  {
    if k > 0 {
      OddCancels(seed, k - 1);
      forall x: int | Divides(Pow(2, k), x * seed) ensures Divides(Pow(2, k), x) {
        OddCancelsTwo(seed, Pow(2, k - 1), x);
      }
    }
  }

  lemma OddCancelsTwo(seed: nat, half: Size, x: int)
    requires seed % 2 == 1 && Cancels(seed, half) && Divides(half * 2, x * seed)
    ensures Divides(half * 2, x)
  {
    hide Divides;
    var k := Quotient(half * 2, x * seed);
    Halve(x, seed, k, half);
    MultipleOf(half, k);
    var z := Quotient(half, x / 2);
    Double(x, z, half);
    MultipleOf(half * 2, z);
  }

  lemma Quotient(m: Size, x: int) returns (k: int)
    requires Divides(m, x)
    ensures x == k * m
  {
    k := x / m;
  }

  lemma Halve(x: int, seed: nat, k: int, half: Size)
    requires seed % 2 == 1 && x * seed == k * (half * 2)
    ensures x % 2 == 0 && (x / 2) * seed == k * half
  {
    Regroup(k, half, 2);
    Parity(x, seed, k * half);
    Regroup(2, x / 2, seed);
  }

  lemma Parity(x: int, seed: nat, h: int)
    requires seed % 2 == 1 && x * seed == h * 2
    ensures x % 2 == 0
  {
    if x % 2 == 1 {
      OddProduct(x, seed);
    }
  }

  lemma Double(x: int, z: int, half: Size)
    requires x % 2 == 0 && x / 2 == z * half
    ensures x == z * (half * 2)
  {
    Regroup(z, half, 2);
  }

  lemma Regroup(a: int, b: int, c: int)
    ensures a * (b * c) == (a * b) * c
  {}

  lemma OddProduct(x: int, y: int)
    requires x % 2 == 1 && y % 2 == 1
    ensures (x * y) % 2 == 1
  {
    var a, b := x / 2, y / 2;
    assert x * y == (2 * a + 1) * (2 * b + 1) == 2 * (2 * (a * b) + a + b) + 1;
  }

  /** So does a seed with an inverse. */
  lemma InverseCancels(seed: nat, inverse: nat, m: Size)
    requires (seed * inverse) % m == 1
    ensures Cancels(seed, m)
  {
    forall x: int | Divides(m, x * seed) ensures Divides(m, x) {
      var q, e := (x * seed) / m, (seed * inverse) / m;
      assert x * seed == q * m && seed * inverse == e * m + 1;
      assert (x * seed) * inverse == x * (seed * inverse);
      assert (q * m) * inverse == (q * inverse) * m;
      assert x * (e * m + 1) == (x * e) * m + x;
      assert x == (q * inverse - x * e) * m;
      MultipleOf(m, q * inverse - x * e);
    }
  }

  // ---- two codes that differ in one byte ----

  lemma WordSize()
    ensures Pow(2, 64) == UINT64
  {
    assert Pow(2, 8) == 256;
    PowAdds(2, 8, 8);
    PowAdds(2, 16, 16);
    PowAdds(2, 32, 32);
  }

  lemma {:induction false} PowAdds(b: nat, m: nat, n: nat)
    ensures Pow(b, m + n) == Pow(b, m) * Pow(b, n)
  {
    if n > 0 {
      PowAdds(b, m, n - 1);
    }
  }

  lemma PowersOfTwo(k: nat)
    requires k <= 64
    ensures Pow(2, k) > 0 && UINT64 == Pow(2, 64 - k) * Pow(2, k)
    decreases 64 - k
  {
    if k == 64 {
      WordSize();
    } else {
      PowersOfTwo(k + 1);
      assert Pow(2, 64 - k) == Pow(2, 64 - (k + 1)) * 2;
    }
  }

  /** The 64-bit hashes of an odd seed are different. */
  lemma HashesDiffer(p: string, c: char, d: char, t: string, seed: nat)
    requires seed % 2 == 1 && c != d
    ensures Hash(p + [c] + t, seed) != Hash(p + [d] + t, seed)
  {
    OddCancels(seed, 64);
    WordSize();
    SeparatesIff(p, c, d, t, seed, UINT64);
  }

  lemma RemainderOfRemainder(x: nat, m: Size, k: nat)
    requires k > 0
    ensures k * m > 0 && (x % (k * m)) % m == x % m
  {
    var q := x / (k * m);
    assert k * m > 0;
    assert x - x % (k * m) == (q * k) * m;
    MultipleOf(m, q * k);
    SameRemainderIff(x, x % (k * m), m);
  }

  /** In a filter of a power of two of bits, an odd seed gives the same bit exactly if the bytes differ by a multiple of
      the size. */
  lemma SameOffsetIff(f: Filter, k: nat, p: string, c: char, d: char, t: string, seed: nat)
    requires k <= 64 && f.size == Pow(2, k) && seed % 2 == 1
    ensures Offset(f, p + [c] + t, seed) == Offset(f, p + [d] + t, seed) <==> (c as int - d as int) % f.size == 0
  {
    OddCancels(seed, k);
    PowersOfTwo(k);
    PowersOfTwo(64 - k);
    RemainderOfRemainder(Polynomial(p + [c] + t, seed), f.size, Pow(2, 64 - k));
    RemainderOfRemainder(Polynomial(p + [d] + t, seed), f.size, Pow(2, 64 - k));
    SeparatesIff(p, c, d, t, seed, f.size);
  }

  /** A filter that holds one code, with odd seeds and a power of two of bits, accepts another one that differs in one
      byte exactly if each of its bits was set by a different seed: with one seed it always rejects. */
  lemma AcceptedIff(f: Filter, k: nat, p: string, c: char, d: char, t: string)
    requires k <= 64 && f.size == Pow(2, k) && (c as int - d as int) % f.size != 0
    requires forall seed :: seed in f.seeds ==> seed % 2 == 1
    ensures var a, b := p + [c] + t, p + [d] + t;
            Bits(f, b) <= AddAll(f, {}, [a]) <==>
            forall seed :: seed in f.seeds ==>
                exists other :: other in f.seeds && other != seed && Offset(f, b, seed) == Offset(f, a, other)
  {
    var a, b := p + [c] + t, p + [d] + t;
    assert [a][..0] == [] && AddAll(f, {}, [a]) == Bits(f, a);
    forall seed | seed in f.seeds
      ensures Offset(f, b, seed) in Bits(f, b) && Offset(f, b, seed) != Offset(f, a, seed)
    {
      SameOffsetIff(f, k, p, c, d, t, seed);
    }
  }

  // ---- the filter of the service ----

  /** 10 000 000 bits, five seeds. */
  const SERVICE := Filter(10_000_000, [7, 12, 15, 34, 41])

  lemma {:induction false} ShortStringsDoNotWrap(str: string, seed: nat)
    requires seed <= 41 && forall i :: 0 <= i < |str| ==> str[i] as nat < 256
    ensures Polynomial(str, seed) + 7 <= 7 * Pow(41, |str|)
    ensures |str| <= 11 ==> Hash(str, seed) == Polynomial(str, seed)
  {
    if str != "" {
      var init := str[..|str| - 1];
      ShortStringsDoNotWrap(init, seed);
      var x := Polynomial(init, seed);
      assert x * seed <= x * 41;
    }
    if |str| <= 11 {
      PowGrows(41, |str|, 11);
      assert 7 * Pow(41, 11) < UINT64;
    }
  }

  lemma {:induction false} PowGrows(b: nat, m: nat, n: nat)
    requires b > 0 && m <= n
    ensures 0 < Pow(b, m) <= Pow(b, n)
  {
    if m < n {
      PowGrows(b, m, n - 1);
    } else if n > 0 {
      PowGrows(b, n - 1, n - 1);
    }
  }

  /** Bytes, and few enough that no hash with a seed of up to 41 wraps. */
  predicate IsShort(str: string) {
    |str| <= 11 && forall i :: 0 <= i < |str| ==> str[i] as nat < 256
  }

  /** For strings that do not wrap, the size may be any number to which the seed has an inverse. */
  lemma ShortOffsetsDiffer(f: Filter, p: string, c: char, d: char, t: string, seed: nat, inverse: nat)
    requires IsShort(p + [c] + t) && IsShort(p + [d] + t) && c != d && f.size >= 256
    requires seed <= 41 && (seed * inverse) % f.size == 1
    ensures Offset(f, p + [c] + t, seed) != Offset(f, p + [d] + t, seed)
  {
    var a, b := p + [c] + t, p + [d] + t;
    assert a[|p|] == c && b[|p|] == d;
    ShortStringsDoNotWrap(a, seed);
    ShortStringsDoNotWrap(b, seed);
    InverseCancels(seed, inverse, f.size);
    SeparatesIff(p, c, d, t, seed, f.size);
    SmallIsNoMultiple(c as int - d as int, f.size);
  }

  lemma SmallIsNoMultiple(x: int, m: Size)
    requires x != 0 && -(m as int) < x < m
    ensures x % m != 0
  {
    Grows(x / m, m);
  }

  /** Codes of up to 11 bytes that differ in one byte have different bits for the seeds 7 and 41: with one of them in
      the filter, the other is rejected unless both these bits were set by other seeds. */
  lemma ServiceRejects(p: string, c: char, d: char, t: string)
    requires IsShort(p + [c] + t) && IsShort(p + [d] + t) && c != d
    ensures var a, b := p + [c] + t, p + [d] + t;
            Bits(SERVICE, b) <= AddAll(SERVICE, {}, [a]) ==>
                forall seed :: seed in {7, 41} ==>
                    exists other :: other in SERVICE.seeds && other != seed
                                    && Offset(SERVICE, b, seed) == Offset(SERVICE, a, other)
  {
    hide Offset;
    var a, b := p + [c] + t, p + [d] + t;
    assert [a][..0] == [] && AddAll(SERVICE, {}, [a]) == Bits(SERVICE, a);
    ShortOffsetsDiffer(SERVICE, p, c, d, t, 7, 2_857_143);
    ShortOffsetsDiffer(SERVICE, p, c, d, t, 41, 6_097_561);
    assert Offset(SERVICE, b, 7) in Bits(SERVICE, b) && Offset(SERVICE, b, 41) in Bits(SERVICE, b);
  }

  lemma PolynomialOfTwo(c: char, d: char, seed: nat)
    ensures Polynomial([c, d], seed) == c as nat * seed + d as nat
  {
    assert [c, d][..1] == [c] && [c][..0] == "";
    assert Polynomial([c], seed) == c as nat;
  }

  lemma SmallOffset(str: string, seed: nat)
    requires Polynomial(str, seed) < 10_000_000
    ensures Offset(SERVICE, str, seed) == Polynomial(str, seed)
  {
    hide Polynomial;
  }

  lemma OffsetOfTwo(c: char, d: char, seed: nat)
    requires seed <= 41 && c as nat < 256 && d as nat < 256
    ensures Offset(SERVICE, [c, d], seed) == c as nat * seed + d as nat
  {
    hide Polynomial, Offset;
    PolynomialOfTwo(c, d, seed);
    Product(c as nat, 255, seed, 41);
    SmallOffset([c, d], seed);
  }

  lemma Product(a: nat, b: nat, c: nat, d: nat)
    requires a <= b && c <= d
    ensures a * c <= b * d
  {
    assert a * c <= b * c <= b * d;
  }

  lemma BitsAre(str: string, offset: nat -> nat)
    requires forall seed :: seed in SERVICE.seeds ==> Offset(SERVICE, str, seed) == offset(seed)
    ensures Bits(SERVICE, str) == {offset(7), offset(12), offset(15), offset(34), offset(41)}
  {
    hide Offset;
    assert 7 in SERVICE.seeds && 12 in SERVICE.seeds && 15 in SERVICE.seeds && 34 in SERVICE.seeds
        && 41 in SERVICE.seeds;
  }

  /** The order of the bytes matters: a filter that holds only "ab" rejects "ba". */
  lemma OrderMatters()
    ensures |SERVICE.seeds| == 5 && forall i :: 0 <= i < 5 ==> SERVICE.seeds[i] == BASE_PRIMES[i % 10] + i
    ensures Bits(SERVICE, "ab") == {777, 1262, 1553, 3396, 4075}
    ensures Bits(SERVICE, "ba") == {783, 1273, 1567, 3429, 4115}
    ensures !(Bits(SERVICE, "ba") <= AddAll(SERVICE, {}, ["ab"]))
  {
    hide Offset, Bits;
    forall seed | seed in SERVICE.seeds
      ensures Offset(SERVICE, "ab", seed) == 97 * seed + 98 && Offset(SERVICE, "ba", seed) == 98 * seed + 97
    {
      OffsetOfTwo('a', 'b', seed);
      OffsetOfTwo('b', 'a', seed);
    }
    BitsAre("ab", seed => 97 * seed + 98);
    BitsAre("ba", seed => 98 * seed + 97);
    assert ["ab"][..0] == [] && AddAll(SERVICE, {}, ["ab"]) == Bits(SERVICE, "ab");
    assert 783 in Bits(SERVICE, "ba");
  }
}
