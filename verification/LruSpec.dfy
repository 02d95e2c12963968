/** What the local cache of pkg/cache/l1cache.go computes, on values: one shard as the sequence of its entries, most
    recently used first. */
module LruSpec {
  import opened Common

  datatype Item = Item(key: string, value: string, expireAt: Time)

  datatype Op = Get(key: string, now: Time) | Set(key: string, value: string, now: Time) | Invalidate(key: string)

  predicate Has(s: seq<Item>, key: string) {
    exists e :: e in s && e.key == key
  }

  predicate NoDup(s: seq<Item>) {
    forall i, j :: 0 <= i < j < |s| ==> s[i].key != s[j].key
  }

  function At(s: seq<Item>, key: string): (e: Item)
    requires Has(s, key)
    ensures e in s && e.key == key
  {
    if s[0].key == key then s[0]
    else
      assert forall e :: e in s ==> e == s[0] || e in s[1..];
      At(s[1..], key)
  }

  function Drop(s: seq<Item>, key: string): seq<Item> {
    if s == [] then [] else if s[0].key == key then s[1..] else [s[0]] + Drop(s[1..], key)
  }

  /** The loop of evictions at the back. */
  function Trim(s: seq<Item>, capacity: nat): seq<Item> {
    if |s| > capacity then s[..capacity] else s
  }

  function Lookup(s: seq<Item>, key: string, now: Time): Option<string> {
    if Has(s, key) && now <= At(s, key).expireAt then Some(At(s, key).value) else None
  }

  function Apply(s: seq<Item>, capacity: nat, ttl: Time, op: Op): seq<Item> {
    match op
    case Get(key, now) =>
      if !Has(s, key) then s
      else if now > At(s, key).expireAt then Drop(s, key)
      else [At(s, key)] + Drop(s, key)
    case Set(key, value, now) =>
      if Has(s, key) then [Item(key, value, now + ttl)] + Drop(s, key)
      else Trim([Item(key, value, now + ttl)] + s, capacity)
    case Invalidate(key) => Drop(s, key)
  }

  /** What the operation returns; only Get returns anything. */
  function Answer(s: seq<Item>, op: Op): Option<string> {
    if op.Get? then Lookup(s, op.key, op.now) else None
  }

  function Run(capacity: nat, ttl: Time, ops: seq<Op>): seq<Item> {
    if ops == [] then [] else Apply(Run(capacity, ttl, ops[..|ops| - 1]), capacity, ttl, ops[|ops| - 1])
  }

  predicate WellFormed(s: seq<Item>, capacity: nat) {
    NoDup(s) && |s| <= capacity
  }

  lemma {:induction false} DropFacts(s: seq<Item>, key: string)
    requires NoDup(s)
    ensures var d := Drop(s, key);
            && NoDup(d) && !Has(d, key) && |d| == |s| - (if Has(s, key) then 1 else 0)
            && (forall e :: e in d <==> e in s && e.key != key)
            && (!Has(s, key) ==> d == s)
  {
    if s != [] {
      TailKeepsNoDup(s);
      TailFacts(s);
      DropFacts(s[1..], key);
      if s[0].key != key {
        assert s[0] in s;
        ConsKeepsNoDup(s[0], Drop(s[1..], key));
      }
      hide NoDup;
    }
  }

  lemma TailKeepsNoDup(s: seq<Item>)
    requires s != [] && NoDup(s)
    ensures NoDup(s[1..]) && !Has(s[1..], s[0].key)
  {
    forall i, j | 0 <= i < j < |s[1..]| ensures s[1..][i].key != s[1..][j].key {
      assert s[1..][i] == s[i + 1] && s[1..][j] == s[j + 1];
    }
  }

  lemma TailFacts(s: seq<Item>)
    requires s != []
    ensures forall e :: e in s <==> e == s[0] || e in s[1..]
    ensures forall key :: Has(s, key) <==> s[0].key == key || Has(s[1..], key)
  {
    assert forall e :: e in s <==> e == s[0] || e in s[1..];
    forall key ensures Has(s, key) <==> s[0].key == key || Has(s[1..], key) {
      if Has(s[1..], key) {
        var e :| e in s[1..] && e.key == key;
        assert e in s;
      }
      if s[0].key == key {
        assert s[0] in s;
      }
    }
  }

  lemma ConsKeepsNoDup(e: Item, s: seq<Item>)
    requires NoDup(s) && !Has(s, e.key)
    ensures NoDup([e] + s)
  {}

  lemma DropBasics(s: seq<Item>, key: string)
    requires NoDup(s)
    ensures var d := Drop(s, key);
            NoDup(d) && !Has(d, key) && |d| == |s| - (if Has(s, key) then 1 else 0) && (!Has(s, key) ==> d == s)
  {
    DropFacts(s, key);
  }

  lemma ApplyKeepsWellFormed(s: seq<Item>, capacity: nat, ttl: Time, op: Op)
    requires WellFormed(s, capacity)
    ensures WellFormed(Apply(s, capacity, ttl, op), capacity)
  {
    DropFacts(s, op.key);
    hide Drop;
    match op
    case Get(key, now) =>
      if Has(s, key) {
        ConsKeepsNoDup(At(s, key), Drop(s, key));
      }
    case Set(key, value, now) =>
      ConsKeepsNoDup(Item(key, value, now + ttl), Drop(s, key));
    case Invalidate(key) =>
  }

  lemma {:induction false} RunIsWellFormed(capacity: nat, ttl: Time, ops: seq<Op>)
    ensures WellFormed(Run(capacity, ttl, ops), capacity)
  {
    if ops != [] {
      RunIsWellFormed(capacity, ttl, ops[..|ops| - 1]);
      ApplyKeepsWellFormed(Run(capacity, ttl, ops[..|ops| - 1]), capacity, ttl, ops[|ops| - 1]);
    }
  }

  lemma AtIsUnique(s: seq<Item>, e: Item)
    requires NoDup(s) && e in s
    ensures Has(s, e.key) && At(s, e.key) == e
  {}

  // ---- inclusion ----

  /** `a` is a subsequence of `b`. */
  predicate Sub(a: seq<Item>, b: seq<Item>) {
    a == [] || (b != [] && if a[0] == b[0] then Sub(a[1..], b[1..]) else Sub(a, b[1..]))
  }

  lemma {:induction false} SubFacts(a: seq<Item>, b: seq<Item>)
    requires Sub(a, b)
    ensures |a| <= |b| && forall e :: e in a ==> e in b
    decreases b
  {
    if a != [] {
      assert b == [b[0]] + b[1..] && a == [a[0]] + a[1..];
      if a[0] == b[0] {
        SubFacts(a[1..], b[1..]);
      } else {
        SubFacts(a, b[1..]);
      }
    }
  }

  lemma {:induction false} SubDrop(a: seq<Item>, b: seq<Item>, key: string)
    requires Sub(a, b) && NoDup(a) && NoDup(b)
    ensures Sub(Drop(a, key), Drop(b, key))
    decreases b
  {
    if a != [] {
      TailKeepsNoDup(a);
      TailKeepsNoDup(b);
      if a[0] == b[0] {
        SubDrop(a[1..], b[1..], key);
        SubCons(a[0], Drop(a[1..], key), Drop(b[1..], key));
      } else if b[0].key == key {
        SubFacts(a, b[1..]);
        assert !Has(a, key);
        DropFacts(a, key);
      } else {
        SubDrop(a, b[1..], key);
        DropFacts(a, key);
        SubSkip(b[0], Drop(a, key), Drop(b[1..], key));
      }
    }
  }

  lemma SubCons(e: Item, a: seq<Item>, b: seq<Item>)
    requires Sub(a, b)
    ensures Sub([e] + a, [e] + b)
  {
    assert ([e] + a)[1..] == a && ([e] + b)[1..] == b;
  }

  lemma {:induction false} SubSkip(e: Item, a: seq<Item>, b: seq<Item>)
    requires Sub(a, b)
    ensures Sub(a, [e] + b)
    decreases |b|, 1
  {
    assert ([e] + b)[1..] == b;
    if a != [] && a[0] == e {
      SubTail(a, b);
    }
  }

  lemma {:induction false} SubTail(a: seq<Item>, b: seq<Item>)
    requires Sub(a, b) && a != []
    ensures Sub(a[1..], b)
    decreases |b|, 0
  {
    assert b == [b[0]] + b[1..];
    if a[0] == b[0] {
      SubSkip(b[0], a[1..], b[1..]);
    } else {
      SubTail(a, b[1..]);
      SubSkip(b[0], a[1..], b[1..]);
    }
  }

  lemma {:induction false} SubInit(a: seq<Item>, b: seq<Item>)
    requires Sub(a, b) && a != []
    ensures Sub(a[..|a| - 1], b) && Sub(a[..|a| - 1], b[..|b| - 1])
    decreases b
  {
    var a', b' := a[..|a| - 1], b[..|b| - 1];
    if |a| > 1 {
      SubFacts(a, b);
      assert a[1..][..|a| - 2] == a'[1..] && b[1..][..|b| - 2] == b'[1..] && a[..|a| - 1][0] == a[0];
      if a[0] == b[0] {
        SubInit(a[1..], b[1..]);
      } else {
        SubInit(a, b[1..]);
      }
    }
  }

  ghost predicate Included(small: seq<Item>, large: seq<Item>, k: nat, K: nat) {
    WellFormed(small, k) && WellFormed(large, K) && Sub(small, large) && |large| - |small| <= K - k
  }

  lemma TrimIncluded(e: Item, small: seq<Item>, large: seq<Item>, k: nat, K: nat)
    requires Sub([e] + small, [e] + large) && |small| <= k && |large| <= K && k <= K && |large| - |small| <= K - k
    ensures var s, l := Trim([e] + small, k), Trim([e] + large, K); Sub(s, l) && |l| - |s| <= K - k
  {
    var s, l := [e] + small, [e] + large;
    SubFacts(s, l);
    if |small| == k {
      SubInit(s, l);
      assert s[..k] == s[..|s| - 1];
      assert |large| == K ==> l[..K] == l[..|l| - 1];
    }
  }

  lemma TrimShort(s: seq<Item>, capacity: nat)
    ensures |s| <= capacity ==> Trim(s, capacity) == s
  {}

  lemma LookupsAgree(small: seq<Item>, large: seq<Item>, key: string)
    requires NoDup(small) && NoDup(large) && Sub(small, large) && Has(small, key)
    ensures Has(large, key) && At(large, key) == At(small, key)
  {
    SubFacts(small, large);
    AtIsUnique(large, At(small, key));
  }

  /** Dropping a key on both sides, and keeping it in front of either. */
  lemma DropIncluded(small: seq<Item>, large: seq<Item>, key: string, k: nat, K: nat)
    requires Included(small, large, k, K) && k <= K
    ensures var s, l := Drop(small, key), Drop(large, key);
            && Sub(s, l)
            && (Has(small, key) ==> Has(large, key) && At(large, key) == At(small, key))
            && |s| == |small| - (if Has(small, key) then 1 else 0)
                && |l| == |large| - (if Has(large, key) then 1 else 0)
            && (!Has(small, key) ==> s == small) && (!Has(large, key) ==> l == large)
  {
    SubDrop(small, large, key);
    DropFacts(small, key);
    DropFacts(large, key);
    if Has(small, key) {
      LookupsAgree(small, large, key);
    }
  }

  lemma GetIncluded(small: seq<Item>, large: seq<Item>, k: nat, K: nat, ttl: Time, key: string, now: Time)
    requires Included(small, large, k, K) && k <= K
    ensures var s, l := Apply(small, k, ttl, Get(key, now)), Apply(large, K, ttl, Get(key, now));
            Sub(s, l) && |l| - |s| <= K - k
  {
    hide Drop, NoDup, Has, Sub, At;
    DropIncluded(small, large, key, k, K);
    if Has(large, key) {
      var e := At(large, key);
      SubCons(e, Drop(small, key), Drop(large, key));
      SubSkip(e, Drop(small, key), Drop(large, key));
    }
  }

  lemma SetIncluded(small: seq<Item>, large: seq<Item>, k: nat, K: nat, ttl: Time, key: string, value: string,
      now: Time)
    requires Included(small, large, k, K) && k <= K
    ensures var s, l := Apply(small, k, ttl, Set(key, value, now)), Apply(large, K, ttl, Set(key, value, now));
            Sub(s, l) && |l| - |s| <= K - k
  {
    hide Drop, NoDup, Has, Sub, At, Trim;
    DropIncluded(small, large, key, k, K);
    var e := Item(key, value, now + ttl);
    SubCons(e, Drop(small, key), Drop(large, key));
    if !Has(small, key) {
      TrimIncluded(e, small, Drop(large, key), k, K);
      TrimShort([e] + Drop(large, key), K);
    }
  }

  lemma ApplyKeepsIncluded(small: seq<Item>, large: seq<Item>, k: nat, K: nat, ttl: Time, op: Op)
    requires Included(small, large, k, K) && k <= K
    ensures Included(Apply(small, k, ttl, op), Apply(large, K, ttl, op), k, K)
    ensures Answer(small, op).Some? ==> Answer(large, op) == Answer(small, op)
  {
    hide Drop, NoDup, Has, Sub, At, Trim;
    ApplyKeepsWellFormed(small, k, ttl, op);
    ApplyKeepsWellFormed(large, K, ttl, op);
    DropIncluded(small, large, op.key, k, K);
    match op
    case Get(key, now) =>
      GetIncluded(small, large, k, K, ttl, key, now);
    case Set(key, value, now) =>
      SetIncluded(small, large, k, K, ttl, key, value, now);
    case Invalidate(key) =>
  }

  /** The same operations at the same times on shards of capacity `k` and `K >= k`: the smaller one holds a
      subsequence, with equal values and deadlines, of what the larger one holds, and at most `K - k` keys fewer. */
  lemma {:induction false} Inclusion(k: nat, K: nat, ttl: Time, ops: seq<Op>)
    requires k <= K
    ensures Included(Run(k, ttl, ops), Run(K, ttl, ops), k, K)
  {
    if ops != [] {
      var init := ops[..|ops| - 1];
      Inclusion(k, K, ttl, init);
      ApplyKeepsIncluded(Run(k, ttl, init), Run(K, ttl, init), k, K, ttl, ops[|ops| - 1]);
    }
  }

  /** So every hit of the smaller one is the same hit of the larger one. */
  lemma HitsAreIncluded(k: nat, K: nat, ttl: Time, ops: seq<Op>, op: Op)
    requires k <= K && Answer(Run(k, ttl, ops), op).Some?
    ensures Answer(Run(K, ttl, ops), op) == Answer(Run(k, ttl, ops), op)
  {
    Inclusion(k, K, ttl, ops);
    ApplyKeepsIncluded(Run(k, ttl, ops), Run(K, ttl, ops), k, K, ttl, op);
  }
}
