/** Independent readings of the local cache: a table that stamps every touch and evicts the oldest stamp, the
    history of operations itself, and the unbounded map that the system model uses. */
module LruReference {
  import opened Common
  import opened LruSpec
  import SystemModel

  // ---- the list keeps the least recently touched key last ----

  datatype Stamped = Stamped(value: string, expireAt: Time, touched: nat)

  type Table = map<string, Stamped>

  ghost predicate LeastRecent(t: Table, key: string) {
    key in t && forall c :: c in t ==> t[key].touched <= t[c].touched
  }

  ghost predicate EvictsOldest(t: Table, t': Table) {
    exists victim :: LeastRecent(t, victim) && t' == t - {victim}
  }

  /** Touch number `tick`. */
  ghost predicate TableStep(t: Table, tick: nat, capacity: nat, ttl: Time, op: Op, t': Table) {
    match op
    case Get(key, now) =>
      t' == if key !in t then t else if now > t[key].expireAt then t - {key} else t[key := t[key].(touched := tick)]
    case Set(key, value, now) =>
      var t1 := t[key := Stamped(value, now + ttl, tick)];
      if key in t || |t| < capacity then t' == t1
      else EvictsOldest(t1, t')
    case Invalidate(key) => t' == t - {key}
  }

  function TableAnswer(t: Table, op: Op): Option<string> {
    if op.Get? && op.key in t && op.now <= t[op.key].expireAt then Some(t[op.key].value) else None
  }

  /** A run of the reference: the table before each operation, and after the last one. */
  ghost predicate IsTableRun(ts: seq<Table>, capacity: nat, ttl: Time, ops: seq<Op>) {
    && |ts| == |ops| + 1 && ts[0] == map[]
    && forall i :: 0 <= i < |ops| ==> TableStep(ts[i], i, capacity, ttl, ops[i], ts[i + 1])
  }

  ghost predicate Matches(e: Item, t: Table, tick: nat) {
    e.key in t && t[e.key].value == e.value && t[e.key].expireAt == e.expireAt && t[e.key].touched < tick
  }

  ghost predicate Mirrors(s: seq<Item>, t: Table, tick: nat) {
    && NoDup(s)
    && (forall e :: e in s ==> Matches(e, t, tick))
    && (forall key :: key in t ==> Has(s, key))
    && InOrder(s, t)
  }

  ghost predicate InOrder(s: seq<Item>, t: Table) {
    forall i, j :: 0 <= i < j < |s| && s[i].key in t && s[j].key in t ==> t[s[i].key].touched > t[s[j].key].touched
  }

  function Keys(s: seq<Item>): set<string> {
    set e | e in s :: e.key
  }

  lemma {:induction false} KeysAreAsMany(s: seq<Item>)
    requires NoDup(s)
    ensures |Keys(s)| == |s|
  {
    if s != [] {
      TailFacts(s);
      TailKeepsNoDup(s);
      KeysAreAsMany(s[1..]);
      assert Keys(s) == {s[0].key} + Keys(s[1..]);
      assert s[0].key !in Keys(s[1..]);
    }
  }

  lemma MirrorsHasSize(s: seq<Item>, t: Table, tick: nat)
    requires Mirrors(s, t, tick)
    ensures |t| == |s|
  {
    KeysAreAsMany(s);
    assert t.Keys == Keys(s) by {
      forall key ensures key in t <==> key in Keys(s) {
        if key in t {
          assert Has(s, key);
        }
        if key in Keys(s) {
          var e :| e in s && e.key == key;
          assert Matches(e, t, tick);
        }
      }
    }
  }

  ghost predicate NewerThan(x: Item, s: seq<Item>, t: Table) {
    forall e :: e in s && e.key in t && x.key in t ==> t[x.key].touched > t[e.key].touched
  }

  lemma ConsOrder(x: Item, s: seq<Item>, t: Table)
    requires InOrder(s, t) && NewerThan(x, s, t)
    ensures InOrder([x] + s, t)
  {
    assert forall j :: 1 <= j < |[x] + s| ==> ([x] + s)[j] == s[j - 1] && s[j - 1] in s;
  }

  lemma TailOrder(s: seq<Item>, t: Table)
    requires s != [] && InOrder(s, t)
    ensures InOrder(s[1..], t) && NewerThan(s[0], s[1..], t)
  {
    assert forall i :: 0 <= i < |s[1..]| ==> s[1..][i] == s[i + 1];
  }

  lemma {:induction false} DropKeepsOrder(s: seq<Item>, t: Table, key: string)
    requires NoDup(s) && InOrder(s, t)
    ensures InOrder(Drop(s, key), t)
  {
    hide InOrder, NoDup;
    if s != [] {
      TailKeepsNoDup(s);
      TailOrder(s, t);
      DropKeepsOrder(s[1..], t, key);
      DropFacts(s[1..], key);
      if s[0].key != key {
        ConsOrder(s[0], Drop(s[1..], key), t);
      }
    }
  }

  lemma DropMirrors(s: seq<Item>, t: Table, tick: nat, key: string)
    requires Mirrors(s, t, tick)
    ensures Mirrors(Drop(s, key), t - {key}, tick) && !Has(Drop(s, key), key) && (!Has(s, key) ==> Drop(s, key) == s)
  {
    DropFacts(s, key);
    DropKeepsOrder(s, t, key);
    forall c | c in t - {key} ensures Has(Drop(s, key), c) {
      var e :| e in s && e.key == c;
      assert e in Drop(s, key);
    }
  }

  lemma TouchMirrors(s: seq<Item>, t: Table, tick: nat, e: Item)
    requires Mirrors(s, t, tick) && !Has(s, e.key)
    ensures Mirrors([e] + s, t[e.key := Stamped(e.value, e.expireAt, tick)], tick + 1)
  {
    var s', t' := [e] + s, t[e.key := Stamped(e.value, e.expireAt, tick)];
    assert forall x :: x in s ==> x.key != e.key;
    assert e.key !in t ==> t' - {e.key} == t;
    ConsKeepsNoDup(e, s);
    forall c | c in t' ensures Has(s', c) {
      if c == e.key {
        assert e in s';
      } else {
        var x :| x in s && x.key == c;
        assert x in s';
      }
    }
    forall x | x in s' ensures Matches(x, t', tick + 1) {
      assert x == e || (x in s && Matches(x, t, tick));
    }
    ConsOrder(e, s, t');
  }

  /** The last entry is the one with the oldest stamp. */
  lemma LastIsOldest(s: seq<Item>, t: Table, tick: nat, c: string)
    requires Mirrors(s, t, tick) && s != [] && c in t && c != s[|s| - 1].key
    ensures s[|s| - 1].key in t && t[s[|s| - 1].key].touched < t[c].touched && Has(s[..|s| - 1], c)
  {
    assert s[|s| - 1] in s && Matches(s[|s| - 1], t, tick);
    var e :| e in s && e.key == c;
    var i :| 0 <= i < |s| && s[i] == e;
    assert s[..|s| - 1][i] == e;
  }

  lemma InitMirrors(s: seq<Item>, t: Table, tick: nat)
    requires Mirrors(s, t, tick) && s != [] && forall c :: c in t && c != s[|s| - 1].key ==> Has(s[..|s| - 1], c)
    ensures Mirrors(s[..|s| - 1], t - {s[|s| - 1].key}, tick)
  {
    var init, last := s[..|s| - 1], s[|s| - 1];
    forall e | e in init ensures Matches(e, t - {last.key}, tick) {
      assert e in s && Matches(e, t, tick);
    }
  }

  /** Without the last entry: exactly what losing the oldest stamp means. */
  lemma EvictMirrors(s: seq<Item>, t: Table, tick: nat)
    requires Mirrors(s, t, tick) && s != []
    ensures LeastRecent(t, s[|s| - 1].key) && Mirrors(s[..|s| - 1], t - {s[|s| - 1].key}, tick)
    ensures forall victim :: LeastRecent(t, victim) ==> victim == s[|s| - 1].key
  {
    hide Mirrors, Has;
    forall c | c in t && c != s[|s| - 1].key
      ensures s[|s| - 1].key in t && t[s[|s| - 1].key].touched < t[c].touched && Has(s[..|s| - 1], c)
    {
      LastIsOldest(s, t, tick, c);
    }
    LastIsStamped(s, t, tick);
    InitMirrors(s, t, tick);
  }

  lemma LastIsStamped(s: seq<Item>, t: Table, tick: nat)
    requires Mirrors(s, t, tick) && s != []
    ensures s[|s| - 1].key in t
  {
    assert s[|s| - 1] in s && Matches(s[|s| - 1], t, tick);
  }

  lemma GetMirrors(s: seq<Item>, t: Table, tick: nat, capacity: nat, ttl: Time, key: string, now: Time, t': Table)
    requires Mirrors(s, t, tick) && TableStep(t, tick, capacity, ttl, Get(key, now), t')
    ensures Mirrors(Apply(s, capacity, ttl, Get(key, now)), t', tick + 1)
    ensures Answer(s, Get(key, now)) == TableAnswer(t, Get(key, now))
  {
    hide Mirrors, Drop, At, Has;
    DropMirrors(s, t, tick, key);
    Found(s, t, tick, key);
    Later(s, t, tick);
    Later(Drop(s, key), t - {key}, tick);
    if Has(s, key) && now <= At(s, key).expireAt {
      TouchMirrors(Drop(s, key), t - {key}, tick, At(s, key));
      assert (t - {key})[key := t[key].(touched := tick)] == t[key := t[key].(touched := tick)];
    }
  }

  lemma OverflowMirrors(s: seq<Item>, t: Table, tick: nat, e: Item, t': Table)
    requires Mirrors(s, t, tick) && !Has(s, e.key)
    requires EvictsOldest(t[e.key := Stamped(e.value, e.expireAt, tick)], t')
    ensures Mirrors(([e] + s)[..|s|], t', tick + 1)
  {
    hide Mirrors, Has, LeastRecent;
    var victim :| LeastRecent(t[e.key := Stamped(e.value, e.expireAt, tick)], victim)
        && t' == t[e.key := Stamped(e.value, e.expireAt, tick)] - {victim};
    TouchMirrors(s, t, tick, e);
    EvictMirrors([e] + s, t[e.key := Stamped(e.value, e.expireAt, tick)], tick + 1);
    assert |[e] + s| - 1 == |s|;
  }

  lemma SetMirrors(s: seq<Item>, t: Table, tick: nat, capacity: nat, ttl: Time, key: string, value: string, now: Time,
      t': Table)
    requires Mirrors(s, t, tick) && |s| <= capacity && TableStep(t, tick, capacity, ttl, Set(key, value, now), t')
    ensures Mirrors(Apply(s, capacity, ttl, Set(key, value, now)), t', tick + 1)
  {
    hide Mirrors, Drop, Has, At, EvictsOldest, TableStep, Apply;
    var e := Item(key, value, now + ttl);
    var t1 := t[key := Stamped(value, now + ttl, tick)];
    MirrorsHasSize(s, t, tick);
    Found(s, t, tick, key);
    SetStepIs(s, t, tick, capacity, ttl, key, value, now, t');
    if Has(s, key) || |s| < capacity {
      DropMirrors(s, t, tick, key);
      TouchMirrors(Drop(s, key), t - {key}, tick, e);
      assert (t - {key})[key := Stamped(value, now + ttl, tick)] == t1;
    } else {
      OverflowMirrors(s, t, tick, e, t');
    }
  }

  lemma SetStepIs(s: seq<Item>, t: Table, tick: nat, capacity: nat, ttl: Time, key: string, value: string, now: Time,
      t': Table)
    requires |s| <= capacity && |t| == |s| && (Has(s, key) <==> key in t)
              && TableStep(t, tick, capacity, ttl, Set(key, value, now), t')
    ensures var t1, s', e := t[key := Stamped(value, now + ttl, tick)], Apply(s, capacity, ttl, Set(key, value, now)),
              Item(key, value, now + ttl);
            if Has(s, key) || |s| < capacity
            then t' == t1 && s' == [e] + Drop(s, key)
            else EvictsOldest(t1, t') && s' == ([e] + s)[..|s|]
  {
    hide Has, EvictsOldest;
    if !Has(s, key) {
      AbsentDrop(s, key);
    }
  }

  lemma {:induction false} AbsentDrop(s: seq<Item>, key: string)
    requires !Has(s, key)
    ensures Drop(s, key) == s
  {
    if s != [] {
      TailFacts(s);
      AbsentDrop(s[1..], key);
    }
  }

  lemma TrimOneIs(s: seq<Item>, capacity: nat)
    requires s != [] && |s| <= capacity + 1
    ensures Trim(s, capacity) == if |s| > capacity then s[..|s| - 1] else s
  {}

  lemma StepMirrors(s: seq<Item>, t: Table, tick: nat, capacity: nat, ttl: Time, op: Op, t': Table)
    requires Mirrors(s, t, tick) && |s| <= capacity && TableStep(t, tick, capacity, ttl, op, t')
    ensures Mirrors(Apply(s, capacity, ttl, op), t', tick + 1) && Answer(s, op) == TableAnswer(t, op)
  {
    match op
    case Get(key, now) => GetMirrors(s, t, tick, capacity, ttl, key, now, t');
    case Set(key, value, now) => SetMirrors(s, t, tick, capacity, ttl, key, value, now, t');
    case Invalidate(key) =>
      DropMirrors(s, t, tick, key);
      Later(Drop(s, key), t - {key}, tick);
  }

  lemma Later(s: seq<Item>, t: Table, tick: nat)
    requires Mirrors(s, t, tick)
    ensures Mirrors(s, t, tick + 1)
  {}

  lemma Found(s: seq<Item>, t: Table, tick: nat, key: string)
    requires Mirrors(s, t, tick)
    ensures Has(s, key) <==> key in t
    ensures Has(s, key) ==>
              At(s, key).key == key && t[key].value == At(s, key).value && t[key].expireAt == At(s, key).expireAt
  {
    if Has(s, key) {
      assert Matches(At(s, key), t, tick);
    }
  }

  /** The list cache is the least-recently-touched cache: over every history they give the same answers, and the
      list is sorted by the last touch. */
  lemma {:induction false} ListRefinesStamps(ts: seq<Table>, capacity: nat, ttl: Time, ops: seq<Op>, i: nat)
    requires IsTableRun(ts, capacity, ttl, ops) && i <= |ops|
    ensures Mirrors(Run(capacity, ttl, ops[..i]), ts[i], i)
    ensures i < |ops| ==> Answer(Run(capacity, ttl, ops[..i]), ops[i]) == TableAnswer(ts[i], ops[i])
  {
    if i > 0 {
      ListRefinesStamps(ts, capacity, ttl, ops, i - 1);
      assert ops[..i][..i - 1] == ops[..i - 1];
      RunIsWellFormed(capacity, ttl, ops[..i - 1]);
      StepMirrors(Run(capacity, ttl, ops[..i - 1]), ts[i - 1], i - 1, capacity, ttl, ops[i - 1], ts[i]);
    }
    if i < |ops| {
      RunIsWellFormed(capacity, ttl, ops[..i]);
      StepMirrors(Run(capacity, ttl, ops[..i]), ts[i], i, capacity, ttl, ops[i], ts[i + 1]);
    }
  }

  lemma ReferenceCanSet(s: seq<Item>, t: Table, tick: nat, capacity: nat, ttl: Time, key: string, value: string,
      now: Time)
    returns (t': Table)
    requires Mirrors(s, t, tick)
    ensures TableStep(t, tick, capacity, ttl, Set(key, value, now), t')
  {
    hide Mirrors, Has, LeastRecent;
    var e := Item(key, value, now + ttl);
    t' := t[key := Stamped(value, now + ttl, tick)];
    if key !in t && |t| >= capacity {
      Found(s, t, tick, key);
      TouchMirrors(s, t, tick, e);
      EvictMirrors([e] + s, t', tick + 1);
      t' := t' - {([e] + s)[|s|].key};
    }
  }

  lemma ReferenceCanStep(s: seq<Item>, t: Table, tick: nat, capacity: nat, ttl: Time, op: Op) returns (t': Table)
    requires Mirrors(s, t, tick)
    ensures TableStep(t, tick, capacity, ttl, op, t')
  {
    hide Mirrors;
    match op
    case Get(key, now) =>
      t' := if key !in t then t else if now > t[key].expireAt then t - {key} else t[key := t[key].(touched := tick)];
    case Set(key, value, now) => t' := ReferenceCanSet(s, t, tick, capacity, ttl, key, value, now);
    case Invalidate(key) => t' := t - {key};
  }

  /** And the reference can follow every history. */
  lemma {:induction false} StampsCanFollow(capacity: nat, ttl: Time, ops: seq<Op>) returns (ts: seq<Table>)
    ensures IsTableRun(ts, capacity, ttl, ops)
  {
    hide TableStep, Mirrors, Run;
    if ops == [] {
      ts := [map[]];
    } else {
      var n := |ops| - 1;
      ts := StampsCanFollow(capacity, ttl, ops[..n]);
      ListRefinesStamps(ts, capacity, ttl, ops[..n], n);
      var t' := ReferenceCanStep(Run(capacity, ttl, ops[..n][..n]), ts[n], n, capacity, ttl, ops[n]);
      ts := ts + [t'];
      forall i | 0 <= i < n ensures ops[..n][i] == ops[i] {}
    }
  }

  // ---- answers in terms of the history alone ----

  datatype Written = Written(value: string, at: Time)

  /** The last Set of a key, unless it was invalidated since. */
  function LastSet(ops: seq<Op>, key: string): Option<Written> {
    if ops == [] then None
    else
      var op := ops[|ops| - 1];
      if op.key == key && op.Set? then Some(Written(op.value, op.now))
      else if op.key == key && op.Invalidate? then None
      else LastSet(ops[..|ops| - 1], key)
  }

  ghost predicate FromHistory(e: Item, ttl: Time, ops: seq<Op>) {
    LastSet(ops, e.key).Some? && LastSet(ops, e.key).value.value == e.value
        && e.expireAt == LastSet(ops, e.key).value.at + ttl
  }

  lemma {:induction false} EntriesAreLastSets(capacity: nat, ttl: Time, ops: seq<Op>)
    ensures forall e :: e in Run(capacity, ttl, ops) ==> FromHistory(e, ttl, ops)
  {
    if ops != [] {
      var init, op := ops[..|ops| - 1], ops[|ops| - 1];
      var s := Run(capacity, ttl, init);
      EntriesAreLastSets(capacity, ttl, init);
      RunIsWellFormed(capacity, ttl, init);
      DropFacts(s, op.key);
      forall e | e in Apply(s, capacity, ttl, op) ensures FromHistory(e, ttl, ops) {
        if e in s {
          assert FromHistory(e, ttl, init);
        }
        if !(op.Get? || op.key != e.key) {
          assert op.Set? && Has(s, op.key) ==> !Has(Drop(s, op.key), op.key);
        }
      }
    }
  }

  /** A hit returns what the last Set of the key wrote, and not after its lifetime or an invalidation. */
  lemma HitsAreLastSets(capacity: nat, ttl: Time, ops: seq<Op>, key: string, now: Time)
    requires Lookup(Run(capacity, ttl, ops), key, now).Some?
    ensures LastSet(ops, key).Some? && now <= LastSet(ops, key).value.at + ttl
    ensures Lookup(Run(capacity, ttl, ops), key, now) == Some(LastSet(ops, key).value.value)
  {
    EntriesAreLastSets(capacity, ttl, ops);
    assert FromHistory(At(Run(capacity, ttl, ops), key), ttl, ops);
  }

  function KeysOf(ops: seq<Op>): set<string> {
    set op | op in ops :: op.key
  }

  /** The entry is there, and only keys of `others` are in front of it. */
  predicate Ahead(s: seq<Item>, e: Item, others: set<string>) {
    s != [] && (s[0] == e || (s[0].key in others && Ahead(s[1..], e, others)))
  }

  lemma {:induction false} AheadFacts(s: seq<Item>, e: Item, others: set<string>, more: set<string>)
    requires Ahead(s, e, others) && others <= more
    ensures e in s && Ahead(s, e, more)
  {
    if s[0] != e {
      AheadFacts(s[1..], e, others, more);
    }
  }

  lemma {:induction false} DropKeepsAhead(s: seq<Item>, e: Item, others: set<string>, key: string)
    requires Ahead(s, e, others) && key != e.key
    ensures Ahead(Drop(s, key), e, others)
  {
    if s[0] != e && s[0].key != key {
      DropKeepsAhead(s[1..], e, others, key);
      assert ([s[0]] + Drop(s[1..], key))[1..] == Drop(s[1..], key);
    }
  }

  lemma ConsKeepsAhead(s: seq<Item>, e: Item, others: set<string>, x: Item)
    requires Ahead(s, e, others)
    ensures Ahead([x] + s, e, others + {x.key})
  {
    AheadFacts(s, e, others, others + {x.key});
    assert ([x] + s)[1..] == s;
  }

  lemma {:induction false} FewerOthers(s: seq<Item>, e: Item, others: set<string>, key: string)
    requires Ahead(s, e, others) && !Has(s, key)
    ensures Ahead(s, e, others - {key})
  {
    TailFacts(s);
    if s[0] != e {
      FewerOthers(s[1..], e, others, key);
    }
  }

  /** The keys in front are different, so an entry behind fewer than `capacity` keys is not cut off. */
  lemma {:induction false} TrimKeepsAhead(s: seq<Item>, capacity: nat, e: Item, others: set<string>)
    requires NoDup(s) && Ahead(s, e, others) && |others| < capacity
    ensures Ahead(Trim(s, capacity), e, others)
  {
    if s[0] != e && |s| > capacity {
      TailKeepsNoDup(s);
      FewerOthers(s[1..], e, others, s[0].key);
      TrimKeepsAhead(s[1..], capacity - 1, e, others - {s[0].key});
      assert s[1..][..capacity - 1] == s[..capacity][1..];
      AheadFacts(s[..capacity][1..], e, others - {s[0].key}, others);
    }
  }

  /** An operation on another key. */
  lemma OtherKeepsAhead(s: seq<Item>, capacity: nat, ttl: Time, op: Op, e: Item, others: set<string>)
    requires WellFormed(s, capacity) && Ahead(s, e, others) && op.key != e.key && |others + {op.key}| < capacity
    ensures Ahead(Apply(s, capacity, ttl, op), e, others + {op.key})
  {
    hide Drop, NoDup, Ahead, Trim, Has, At;
    var d := Drop(s, op.key);
    AheadFacts(s, e, others, others + {op.key});
    DropKeepsAhead(s, e, others, op.key);
    DropBasics(s, op.key);
    AheadFacts(d, e, others, others + {op.key});
    if op.Get? && Has(s, op.key) {
      ConsKeepsAhead(d, e, others, At(s, op.key));
    } else if op.Set? {
      var x := Item(op.key, op.value, op.now + ttl);
      ConsKeepsAhead(d, e, others, x);
      if !Has(s, op.key) {
        ConsKeepsNoDup(x, s);
        TrimKeepsAhead([x] + s, capacity, e, others + {op.key});
      }
    }
  }

  /** A lookup that finds the key. */
  lemma HitMovesAhead(s: seq<Item>, capacity: nat, ttl: Time, e: Item, others: set<string>, now: Time)
    requires NoDup(s) && Ahead(s, e, others) && now <= e.expireAt
    ensures Ahead(Apply(s, capacity, ttl, Get(e.key, now)), e, {})
  {
    AheadFacts(s, e, others, others);
    AtIsUnique(s, e);
  }

  /** A key stays, whatever else happens, while fewer than `capacity` other keys have been used since it was set,
      it is not set again or invalidated, and no lookup finds it expired. */
  lemma {:induction false} RecentKeysStay(capacity: nat, ttl: Time, before: seq<Op>, key: string, value: string,
      at: Time, rest: seq<Op>)
    requires |KeysOf(rest) - {key}| < capacity
    requires forall op :: op in rest && op.key == key ==> op.Get? && op.now <= at + ttl
    ensures Ahead(Run(capacity, ttl, before + [Set(key, value, at)] + rest), Item(key, value, at + ttl),
              KeysOf(rest) - {key})
    decreases |rest|
  {
    var past, e := before + [Set(key, value, at)], Item(key, value, at + ttl);
    if rest == [] {
      assert past + rest == past && past[..|before|] == before;
      SetIsAhead(Run(capacity, ttl, before), capacity, ttl, key, value, at);
      AheadFacts(Run(capacity, ttl, past), e, {}, KeysOf(rest) - {key});
    } else {
      RecentKeysStay(capacity, ttl, before, key, value, at, rest[..|rest| - 1]) by {
        OneMoreKey(rest, key);
      }
      StaysOneMore(capacity, ttl, past, e, rest);
    }
  }

  lemma StaysOneMore(capacity: nat, ttl: Time, past: seq<Op>, e: Item, rest: seq<Op>)
    requires rest != [] && |KeysOf(rest) - {e.key}| < capacity
    requires forall op :: op in rest && op.key == e.key ==> op.Get? && op.now <= e.expireAt
    requires Ahead(Run(capacity, ttl, past + rest[..|rest| - 1]), e, KeysOf(rest[..|rest| - 1]) - {e.key})
    ensures Ahead(Run(capacity, ttl, past + rest), e, KeysOf(rest) - {e.key})
  {
    hide Ahead, Run, Apply, KeysOf, NoDup;
    var init, op := rest[..|rest| - 1], rest[|rest| - 1];
    var s := Run(capacity, ttl, past + init);
    assert (past + rest)[..|past + rest| - 1] == past + init;
    RunStep(capacity, ttl, past + rest);
    RunIsWellFormed(capacity, ttl, past + init);
    OneMoreKey(rest, e.key);
    if op.key != e.key {
      OtherKeepsAhead(s, capacity, ttl, op, e, KeysOf(init) - {e.key});
    } else {
      assert op in rest;
      HitMovesAhead(s, capacity, ttl, e, KeysOf(init) - {e.key}, op.now);
      AheadFacts(Apply(s, capacity, ttl, op), e, {}, KeysOf(rest) - {e.key});
    }
  }

  lemma RunStep(capacity: nat, ttl: Time, ops: seq<Op>)
    requires ops != []
    ensures Run(capacity, ttl, ops) == Apply(Run(capacity, ttl, ops[..|ops| - 1]), capacity, ttl, ops[|ops| - 1])
  {}

  lemma SetIsAhead(s: seq<Item>, capacity: nat, ttl: Time, key: string, value: string, at: Time)
    requires capacity > 0
    ensures Ahead(Apply(s, capacity, ttl, Set(key, value, at)), Item(key, value, at + ttl), {})
  {}

  lemma OneMoreKey(rest: seq<Op>, key: string)
    requires rest != []
    ensures var init, op := rest[..|rest| - 1], rest[|rest| - 1];
            && KeysOf(init) - {key} <= KeysOf(rest) - {key} && |KeysOf(init) - {key}| <= |KeysOf(rest) - {key}|
            && (op.key != key ==> KeysOf(rest) - {key} == (KeysOf(init) - {key}) + {op.key})
            && forall o :: o in init ==> o in rest
  {
    var init, op := rest[..|rest| - 1], rest[|rest| - 1];
    assert forall o :: o in rest <==> o in init || o == op;
    assert KeysOf(rest) == KeysOf(init) + {op.key};
    Smaller(KeysOf(init) - {key}, KeysOf(rest) - {key});
  }

  lemma Smaller(a: set<string>, b: set<string>)
    requires a <= b
    ensures |a| <= |b|
  {
    assert b == a + (b - a);
  }

  /** So the lookup finds it exactly while it is not expired. */
  lemma RecentKeysAreFound(capacity: nat, ttl: Time, before: seq<Op>, key: string, value: string, at: Time,
      rest: seq<Op>, now: Time)
    requires |KeysOf(rest) - {key}| < capacity
    requires forall op :: op in rest && op.key == key ==> op.Get? && op.now <= at + ttl
    ensures Lookup(Run(capacity, ttl, before + [Set(key, value, at)] + rest), key, now) == if now <= at + ttl
              then Some(value) else None
  {
    var ops := before + [Set(key, value, at)] + rest;
    RecentKeysStay(capacity, ttl, before, key, value, at, rest);
    AheadFacts(Run(capacity, ttl, ops), Item(key, value, at + ttl), KeysOf(rest) - {key}, KeysOf(rest) - {key});
    RunIsWellFormed(capacity, ttl, ops);
    AtIsUnique(Run(capacity, ttl, ops), Item(key, value, at + ttl));
  }

  // ---- the map of the system model ----

  function View(s: seq<Item>): map<string, SystemModel.Cached> {
    map key | key in Keys(s) :: SystemModel.Cached(At(s, key).value, At(s, key).expireAt, 0)
  }

  lemma ViewFacts(s: seq<Item>)
    requires NoDup(s)
    ensures forall key :: key in View(s) <==> Has(s, key)
    ensures forall e :: e in s ==> e.key in View(s) && View(s)[e.key] == SystemModel.Cached(e.value, e.expireAt, 0)
  {
    forall e | e in s ensures e.key in View(s) && View(s)[e.key] == SystemModel.Cached(e.value, e.expireAt, 0) {
      AtIsUnique(s, e);
    }
  }

  /** Equal up to the one key. */
  lemma SameView(s: seq<Item>, s': seq<Item>, key: string)
    requires NoDup(s) && NoDup(s') && forall e: Item :: e.key != key ==> (e in s <==> e in s')
    ensures View(s) - {key} == View(s') - {key}
  {
    ViewFacts(s);
    ViewFacts(s');
    forall k | k != key ensures k in View(s) <==> k in View(s') {}
    forall k | k in View(s) && k != key ensures View(s)[k] == View(s')[k] {
      var e :| e in s && e.key == k;
      assert e in s';
    }
  }

  lemma DropView(s: seq<Item>, key: string)
    requires NoDup(s)
    ensures View(Drop(s, key)) == View(s) - {key}
  {
    DropFacts(s, key);
    SameView(s, Drop(s, key), key);
    ViewFacts(Drop(s, key));
    assert key !in View(Drop(s, key));
    hide View;
    assert View(Drop(s, key)) - {key} == View(Drop(s, key));
  }

  lemma ConsView(e: Item, s: seq<Item>)
    requires NoDup(s) && !Has(s, e.key)
    ensures View([e] + s) == View(s)[e.key := SystemModel.Cached(e.value, e.expireAt, 0)]
  {
    ConsKeepsNoDup(e, s);
    SameView(s, [e] + s, e.key);
    ViewFacts(s);
    ViewFacts([e] + s);
    assert e in [e] + s;
    hide View, NoDup;
    assert View(s) - {e.key} == View(s);
    assert View([e] + s) == (View([e] + s) - {e.key})[e.key := View([e] + s)[e.key]];
  }

  lemma InitView(s: seq<Item>)
    requires NoDup(s) && s != []
    ensures View(s[..|s| - 1]) == View(s) - {s[|s| - 1].key}
  {
    var init, last := s[..|s| - 1], s[|s| - 1];
    assert s == init + [last];
    SameView(s, init, last.key);
    ViewFacts(init);
    assert last.key !in View(init);
    hide View;
    assert View(init) - {last.key} == View(init);
  }

  /** The shard behaves as the system model's map, which forgets entries only in steps of its own: a lookup
      answers as on the map and drops nothing but an expired entry, a Set drops at most one other key. */
  lemma ShardRefinesMap(s: seq<Item>, capacity: nat, ttl: Time, op: Op)
    requires WellFormed(s, capacity)
    ensures var v, v', key := View(s), View(Apply(s, capacity, ttl, op)), op.key;
            match op
            case Get(_, now) =>
              && Answer(s, op) == (if SystemModel.L1Live(v, key, now) then Some(v[key].value) else None)
              && v' == if key in v && !SystemModel.L1Live(v, key, now) then v - {key} else v
            case Set(_, value, now) => DropsAtMostOne(v[key := SystemModel.Cached(value, now + ttl, 0)], v', key,
                capacity)
            case Invalidate(_) => v' == v - {key}
  {
    hide View, NoDup, Drop, At, Has, DropsAtMostOne;
    DropBasics(s, op.key);
    DropView(s, op.key);
    ViewAt(s, op.key);
    match op
    case Get(key, now) =>
      if Has(s, key) {
        ConsView(At(s, key), Drop(s, key));
        assert (View(s) - {key})[key := View(s)[key]] == View(s);
      }
    case Set(key, value, now) => SetView(s, capacity, ttl, key, value, now);
    case Invalidate(key) =>
  }

  lemma ViewAt(s: seq<Item>, key: string)
    requires NoDup(s)
    ensures key in View(s) <==> Has(s, key)
    ensures Has(s, key) ==>
              View(s)[key] == SystemModel.Cached(At(s, key).value, At(s, key).expireAt, 0) && At(s, key).key == key
  {
    ViewFacts(s);
  }

  ghost predicate DropsAtMostOne(v: map<string, SystemModel.Cached>, v': map<string, SystemModel.Cached>, key: string,
      capacity: nat) {
    v' == v || exists dropped :: (capacity > 0 ==> dropped != key) && v' == v - {dropped}
  }

  lemma SetView(s: seq<Item>, capacity: nat, ttl: Time, key: string, value: string, now: Time)
    requires WellFormed(s, capacity)
    ensures DropsAtMostOne(View(s)[key := SystemModel.Cached(value, now + ttl, 0)],
              View(Apply(s, capacity, ttl, Set(key, value, now))), key, capacity)
  {
    hide View, NoDup, Drop, Has, Trim;
    var e := Item(key, value, now + ttl);
    var all := [e] + Drop(s, key);
    DropBasics(s, key);
    DropView(s, key);
    ConsView(e, Drop(s, key));
    ConsKeepsNoDup(e, Drop(s, key));
    var v := View(s)[key := SystemModel.Cached(value, now + ttl, 0)];
    assert (View(s) - {key})[key := SystemModel.Cached(value, now + ttl, 0)] == v;
    TrimOneIs(all, capacity);
    if !Has(s, key) && |all| > capacity {
      InitView(all);
      if capacity > 0 {
        FirstIsNotLast(all);
      }
    }
  }

  lemma FirstIsNotLast(s: seq<Item>)
    requires NoDup(s) && |s| > 1
    ensures s[0].key != s[|s| - 1].key
  {}
}
