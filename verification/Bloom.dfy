/** The Bloom filter over a shared Redis bitmap: pkg/bloom/bloom.go. */
module Bloom {

  import opened Common

  const BASE_PRIMES: seq<nat> := [7, 11, 13, 31, 37, 61, 89, 97, 101, 107]

  type Size = n: nat | 0 < n witness 1

  datatype Filter = Filter(size: Size, seeds: seq<nat>)

  /** Horner's rule over the bytes of the string, in unbounded arithmetic. */
  function Polynomial(str: string, seed: nat): nat {
    if str == "" then 0
    else Polynomial(str[..|str| - 1], seed) * seed + str[|str| - 1] as nat
  }

  /** The 64-bit hash: the polynomial modulo 2^64. */
  function Hash(str: string, seed: nat): nat {
    Polynomial(str, seed) % UINT64
  }

  function Offset(f: Filter, str: string, seed: nat): nat {
    Hash(str, seed) % f.size
  }

  /** The bits that stand for a string. */
  function Bits(f: Filter, str: string): set<nat> {
    set seed | seed in f.seeds :: Offset(f, str, seed)
  }

  /** Any order and any grouping of the SETBIT commands of any number of adds. */
  function AddAll(f: Filter, bits: set<nat>, strs: seq<string>): set<nat> {
    if strs == [] then bits else AddAll(f, bits, strs[..|strs| - 1]) + Bits(f, strs[|strs| - 1])
  }

  /** No false negatives, over every history of adds; and only adds set bits. */
  lemma {:induction false} AddedIsContained(f: Filter, bits: set<nat>, strs: seq<string>)
    ensures bits <= AddAll(f, bits, strs)
    ensures forall s :: s in strs ==> Bits(f, s) <= AddAll(f, bits, strs)
    ensures forall b :: b in AddAll(f, bits, strs) ==> b in bits || exists s :: s in strs && b in Bits(f, s)
    ensures (forall b :: b in bits ==> b < f.size) ==> forall b :: b in AddAll(f, bits, strs) ==> b < f.size
  {
    if strs != [] {
      var init, last := strs[..|strs| - 1], strs[|strs| - 1];
      AddedIsContained(f, bits, init);
      assert strs == init + [last];
      forall b | b in AddAll(f, bits, strs) ensures b in bits || exists s :: s in strs && b in Bits(f, s) {
        if b in Bits(f, last) {
          assert last in strs;
        }
      }
    }
  }

  class RedisBloomFilter {
    const f: Filter
    /** The positions of the bits that are 1 in the Redis string. */
    var bits: set<nat>

    constructor (size: Size, hashCount: nat)
      ensures f.size == size && |f.seeds| == hashCount && bits == {}
      ensures forall i :: 0 <= i < hashCount ==> f.seeds[i] == BASE_PRIMES[i % 10] + i
    {
      var seeds: seq<nat> := [];
      for i := 0 to hashCount
        invariant |seeds| == i && forall k :: 0 <= k < i ==> seeds[k] == BASE_PRIMES[k % 10] + k
      {
        seeds := seeds + [BASE_PRIMES[i % |BASE_PRIMES|] + i];
      }
      f := Filter(size, seeds);
      bits := {};
    }

    method HashOf(str: string, seed: nat) returns (hash: nat)
      ensures hash == Hash(str, seed)
    {
      hash := 0;
      for i := 0 to |str|
        invariant hash == Hash(str[..i], seed)
      {
        WrapStep(Polynomial(str[..i], seed), seed, str[i] as nat);
        assert str[..i + 1][..i] == str[..i];
        hash := (hash * seed + str[i] as nat) % UINT64;
      }
      assert str[..|str|] == str;
    }

    /** The SETBIT commands of one string, executed up to the `done`-th: a pipeline may stop part way. */
    method QueueAdd(str: string, done: nat)
      requires done <= |f.seeds|
      modifies this
      ensures old(bits) <= bits <= old(bits) + Bits(f, str)
      ensures forall i :: 0 <= i < done ==> Offset(f, str, f.seeds[i]) in bits
      ensures done == |f.seeds| ==> bits == old(bits) + Bits(f, str)
    {
      for i := 0 to done
        invariant bits == old(bits) + set k | 0 <= k < i :: Offset(f, str, f.seeds[k])
      {
        var h := HashOf(str, f.seeds[i]);
        bits := bits + {h % f.size};
      }
    }

    /** The Lua script stops at the first bit that is 0. */
    method Contains(str: string) returns (found: bool)
      ensures found <==> Bits(f, str) <= bits
    {
      var args: seq<nat> := [];
      for i := 0 to |f.seeds|
        invariant |args| == i && forall k :: 0 <= k < i ==> args[k] == Offset(f, str, f.seeds[k])
      {
        var h := HashOf(str, f.seeds[i]);
        args := args + [h % f.size];
      }
      for i := 0 to |args|
        invariant forall k :: 0 <= k < i ==> args[k] in bits
      {
        if args[i] !in bits {
          assert Offset(f, str, f.seeds[i]) in Bits(f, str);
          return false;
        }
      }
      return true;
    }
  }
}
