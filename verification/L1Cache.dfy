/** The sharded local cache: pkg/cache/l1cache.go. */
module L1Cache {
  import opened Common
  import opened LruSpec
  import LruReference

  const SHARD_COUNT: nat := 256

  /** What one list element points to; the map and the list share it. */
  class Entry {
    const key: string
    var value: string
    var expireAt: Time

    constructor (key: string, value: string, expireAt: Time)
      ensures this.key == key && this.value == value && this.expireAt == expireAt
    {
      this.key, this.value, this.expireAt := key, value, expireAt;
    }
  }

  ghost function ItemsOf(list: seq<Entry>): (s: seq<Item>)
    reads list
    ensures |s| == |list| && forall i :: 0 <= i < |list| ==> s[i] == Item(list[i].key, list[i].value, list[i].expireAt)
  {
    seq(|list|, i requires 0 <= i < |list| reads list => Item(list[i].key, list[i].value, list[i].expireAt))
  }

  /** The list without one element. */
  function Remove(list: seq<Entry>, e: Entry): seq<Entry> {
    if list == [] then [] else if list[0] == e then list[1..] else [list[0]] + Remove(list[1..], e)
  }

  lemma {:induction false} RemoveFacts(list: seq<Entry>, e: Entry)
    requires forall i, j :: 0 <= i < j < |list| ==> list[i] != list[j]
    ensures forall x :: x in Remove(list, e) <==> x in list && x != e
  {
    if list != [] {
      assert list == [list[0]] + list[1..];
      RemoveFacts(list[1..], e);
    }
  }

  lemma ItemsOfTail(list: seq<Entry>)
    requires list != []
    ensures ItemsOf(list) == [Item(list[0].key, list[0].value, list[0].expireAt)] + ItemsOf(list[1..])
  {}

  lemma {:induction false} RemoveDrops(list: seq<Entry>, e: Entry)
    requires NoDup(ItemsOf(list)) && e in list
    ensures ItemsOf(Remove(list, e)) == Drop(ItemsOf(list), e.key)
  {
    var s := ItemsOf(list);
    ItemsOfTail(list);
    if list[0] != e {
      assert s[1..] == ItemsOf(list[1..]);
      TailKeepsNoDup(s);
      var i :| 0 <= i < |list| && list[i] == e;
      assert s[0].key != s[i].key;
      RemoveDrops(list[1..], e);
      ItemsOfCons(list[0], Remove(list[1..], e));
    }
  }

  lemma RemoveIsDrop(list: seq<Entry>, e: Entry)
    requires NoDup(ItemsOf(list)) && e in list
    ensures ItemsOf(Remove(list, e)) == Drop(ItemsOf(list), e.key)
    ensures forall x :: x in Remove(list, e) <==> x in list && x != e
  {
    RemoveDrops(list, e);
    forall i, j | 0 <= i < j < |list| ensures list[i] != list[j] {
      assert ItemsOf(list)[i].key != ItemsOf(list)[j].key;
    }
    RemoveFacts(list, e);
  }

  lemma ItemsOfCons(e: Entry, list: seq<Entry>)
    ensures ItemsOf([e] + list) == [Item(e.key, e.value, e.expireAt)] + ItemsOf(list)
  {}

  class CacheShard {
    const capacity: nat
    const ttl: Time
    var items: map<string, Entry>
    /** Front first. */
    var evictList: seq<Entry>

    constructor (capacity: nat, ttl: Time)
      ensures this.capacity == capacity && this.ttl == ttl && evictList == [] && Valid() && Contents() == []
    {
      this.capacity, this.ttl := capacity, ttl;
      items, evictList := map[], [];
    }

    ghost function Contents(): seq<Item>
      reads this, evictList
    {
      ItemsOf(evictList)
    }

    ghost function Elements(): set<Entry>
      reads this
    {
      set e | e in evictList
    }

    /** The map and the list hold the same elements, one for each key. */
    ghost predicate Linked()
      reads this, evictList
    {
      && NoDup(Contents())
      && (forall e :: e in evictList ==> e.key in items && items[e.key] == e)
      && (forall key :: key in items ==> items[key] in evictList && items[key].key == key)
    }

    ghost predicate Valid()
      reads this, evictList
    {
      Linked() && |evictList| <= capacity
    }

    lemma Indexed(key: string)
      requires Linked()
      ensures key in items <==> Has(Contents(), key)
      ensures key in items ==> At(Contents(), key) == Item(key, items[key].value, items[key].expireAt)
    {
      if key in items {
        var i :| 0 <= i < |evictList| && evictList[i] == items[key];
        assert Contents()[i] == Item(key, items[key].value, items[key].expireAt);
        AtIsUnique(Contents(), Contents()[i]);
      }
      if Has(Contents(), key) {
        var e :| e in Contents() && e.key == key;
        var i :| 0 <= i < |evictList| && Contents()[i] == e;
        assert evictList[i] in evictList;
      }
    }

    /** Unlinks an element: Remove on the list and delete on the map. */
    method Unlink(e: Entry)
      requires Linked() && e in evictList
      modifies this
      ensures Linked() && evictList == Remove(old(evictList), e) && Elements() == old(Elements()) - {e}
      ensures Contents() == Drop(old(Contents()), e.key)
    {
      hide NoDup, Drop, Has, Remove, ItemsOf;
      RemoveIsDrop(evictList, e);
      DropBasics(Contents(), e.key);
      evictList := Remove(evictList, e);
      items := items - {e.key};
    }

    /** MoveToFront. */
    method Promote(e: Entry)
      requires Linked() && e in evictList
      modifies this
      ensures Linked() && evictList == [e] + Remove(old(evictList), e) && Elements() == old(Elements())
                && items == old(items)
      ensures Contents() == [Item(e.key, e.value, e.expireAt)] + Drop(old(Contents()), e.key)
    {
      hide NoDup, Drop, Has, Remove, ItemsOf;
      RemoveIsDrop(evictList, e);
      DropBasics(Contents(), e.key);
      ConsKeepsNoDup(Item(e.key, e.value, e.expireAt), Drop(Contents(), e.key));
      ItemsOfCons(e, Remove(evictList, e));
      evictList := [e] + Remove(evictList, e);
    }

    method Get(key: string, now: Time) returns (r: Option<string>)
      requires Valid()
      modifies this
      ensures Valid() && Elements() <= old(Elements())
      ensures Contents() == Apply(old(Contents()), capacity, ttl, LruSpec.Get(key, now))
      ensures r == Answer(old(Contents()), LruSpec.Get(key, now))
    {
      hide NoDup, Drop, Has, At, Remove;
      Indexed(key);
      if key !in items {
        return None;
      }
      var e := items[key];
      DropBasics(Contents(), key);
      if now > e.expireAt {
        Unlink(e);
        return None;
      }
      Promote(e);
      r := Some(e.value);
    }

    /** Drops the element at the back. */
    method Evict()
      requires Linked()
      modifies this
      ensures Linked() && Elements() <= old(Elements())
      ensures evictList == if old(evictList) == [] then [] else old(evictList)[..|old(evictList)| - 1]
    {
      if |evictList| == 0 {
        return;
      }
      var e := evictList[|evictList| - 1];
      RemoveLast(evictList);
      Unlink(e);
    }

    lemma {:induction false} RemoveLast(list: seq<Entry>)
      requires list != [] && NoDup(ItemsOf(list))
      ensures Remove(list, list[|list| - 1]) == list[..|list| - 1]
    {
      if |list| > 1 {
        var last := list[|list| - 1];
        assert ItemsOf(list)[0].key != ItemsOf(list)[|list| - 1].key;
        assert ItemsOf(list[1..]) == ItemsOf(list)[1..];
        TailKeepsNoDup(ItemsOf(list));
        RemoveLast(list[1..]);
        assert list[..|list| - 1] == [list[0]] + list[1..][..|list[1..]| - 1];
      }
    }

    method Set(key: string, value: string, now: Time)
      requires Valid()
      modifies this, evictList
      ensures Valid() && forall e :: e in Elements() ==> e in old(Elements()) || fresh(e)
      ensures Contents() == Apply(old(Contents()), capacity, ttl, LruSpec.Set(key, value, now))
    {
      hide Linked, NoDup, Drop, Has, At, Contents;
      Indexed(key);
      if key in items {
        Update(key, value, now + ttl);
      } else {
        Insert(key, value, now + ttl);
      }
    }

    method Update(key: string, value: string, expireAt: Time)
      requires Valid() && key in items
      modifies this, evictList
      ensures Valid() && Elements() == old(Elements())
      ensures Contents() == [Item(key, value, expireAt)] + Drop(old(Contents()), key)
    {
      Indexed(key);
      DropBasics(Contents(), key);
      hide NoDup, Drop, Has, At;
      var e := items[key];
      Promote(e);
      Overwrite(e, value, expireAt);
    }

    method Insert(key: string, value: string, expireAt: Time)
      requires Valid() && key !in items
      modifies this
      ensures Valid() && forall e :: e in Elements() ==> e in old(Elements()) || fresh(e)
      ensures Contents() == Trim([Item(key, value, expireAt)] + old(Contents()), capacity)
    {
      hide Linked, NoDup, Contents;
      var e := new Entry(key, value, expireAt);
      PushFront(e);
      ghost var full := Contents();
      TrimToFront();
      assert full == [Item(key, value, expireAt)] + old(Contents());
    }

    /** The loop of evictions. */
    method TrimToFront()
      requires Linked()
      modifies this
      ensures Valid() && Elements() <= old(Elements()) && Contents() == Trim(old(Contents()), capacity)
    {
      hide Linked, NoDup;
      while |evictList| > capacity
        invariant Linked() && Elements() <= old(Elements())
        invariant |evictList| <= |old(evictList)| && evictList == old(evictList)[..|evictList|]
        invariant |evictList| < |old(evictList)| ==> |evictList| >= capacity
      {
        Evict();
      }
      assert Contents() == old(Contents())[..|evictList|];
    }

    /** The two field writes of Set on the element that is already there. */
    method Overwrite(e: Entry, value: string, expireAt: Time)
      requires Linked() && evictList != [] && e == evictList[0]
      modifies e
      ensures Linked() && Contents() == [Item(e.key, value, expireAt)] + old(Contents())[1..]
    {
      assert forall i :: 1 <= i < |evictList| ==> Contents()[i].key != Contents()[0].key;
      e.value := value;
      e.expireAt := expireAt;
    }

    method PushFront(e: Entry)
      requires Linked() && e.key !in items
      modifies this
      ensures Linked() && Elements() == old(Elements()) + {e}
      ensures Contents() == [Item(e.key, e.value, e.expireAt)] + old(Contents())
    {
      Indexed(e.key);
      ConsKeepsNoDup(Item(e.key, e.value, e.expireAt), Contents());
      evictList := [e] + evictList;
      items := items[e.key := e];
      assert Contents() == [Item(e.key, e.value, e.expireAt)] + old(Contents());
    }

    method Invalidate(key: string)
      requires Valid()
      modifies this
      ensures Valid() && Elements() <= old(Elements())
      ensures Contents() == Apply(old(Contents()), capacity, ttl, LruSpec.Invalidate(key))
    {
      Indexed(key);
      DropBasics(Contents(), key);
      if key in items {
        Unlink(items[key]);
      }
    }
  }

  function PerShard(capacity: int): nat {
    if capacity / SHARD_COUNT < 1 then 1 else capacity / SHARD_COUNT
  }

  /** No shard could be larger without the whole exceeding the capacity, or the one entry that each has at least. */
  lemma ShardsShareTheCapacity(capacity: int)
    ensures var whole := if capacity > 256 then capacity else 256;
            256 * PerShard(capacity) <= whole < 256 * (PerShard(capacity) + 1)
  {}

  /** The operations on keys of shard `i`. */
  ghost function OpsOf(hash: string -> nat, ops: seq<Op>, i: nat): seq<Op> {
    if ops == [] then []
    else
      var earlier, last := OpsOf(hash, ops[..|ops| - 1], i), ops[|ops| - 1];
      if hash(last.key) % SHARD_COUNT == i then earlier + [last] else earlier
  }

  lemma {:induction false} OpsOfJoin(hash: string -> nat, a: seq<Op>, b: seq<Op>, i: nat)
    ensures OpsOf(hash, a + b, i) == OpsOf(hash, a, i) + OpsOf(hash, b, i)
  {
    if b == [] {
      assert a + b == a;
    } else {
      OpsOfJoin(hash, a, b[..|b| - 1], i);
      assert (a + b)[..|a + b| - 1] == a + b[..|b| - 1];
    }
  }

  lemma {:induction false} OpsOfAll(hash: string -> nat, ops: seq<Op>, i: nat)
    ensures forall op :: op in OpsOf(hash, ops, i) <==> op in ops && hash(op.key) % SHARD_COUNT == i
  {
    if ops != [] {
      OpsOfAll(hash, ops[..|ops| - 1], i);
      assert ops == ops[..|ops| - 1] + [ops[|ops| - 1]];
    }
  }

  lemma OneMoreOp(hash: string -> nat, ops: seq<Op>, op: Op, i: nat, capacity: nat, ttl: Time)
    ensures Run(capacity, ttl, OpsOf(hash, ops + [op], i)) ==
            var s := Run(capacity, ttl, OpsOf(hash, ops, i));
            if hash(op.key) % SHARD_COUNT == i then Apply(s, capacity, ttl, op) else s
  {
    hide Apply;
    var mine := OpsOf(hash, ops, i);
    assert (ops + [op])[..|ops|] == ops && (ops + [op])[|ops|] == op;
    assert OpsOf(hash, ops + [op], i) == if hash(op.key) % SHARD_COUNT == i then mine + [op] else mine;
    assert (mine + [op])[..|mine|] == mine;
  }

  function Sum(ns: seq<nat>): nat {
    if ns == [] then 0 else Sum(ns[..|ns| - 1]) + ns[|ns| - 1]
  }

  lemma {:induction false} SumBound(ns: seq<nat>, each: nat)
    requires forall i :: 0 <= i < |ns| ==> ns[i] <= each
    ensures Sum(ns) <= |ns| * each
  {
    if ns != [] {
      SumBound(ns[..|ns| - 1], each);
      assert |ns| * each == (|ns| - 1) * each + each;
    }
  }

  class L1Cache {
    const shards: seq<CacheShard>
    const capacity: int
    const ttl: Time
    /** FNV-1a. */
    const hash: string -> nat
    /** All operations so far. */
    ghost var history: seq<Op>

    constructor (capacity: int, ttl: Time, hash: string -> nat)
      ensures this.capacity == capacity && this.ttl == ttl && this.hash == hash
      ensures history == [] && Valid() && fresh(shards)
      ensures forall i :: 0 <= i < SHARD_COUNT ==> shards[i].Contents() == []
    {
      var list: seq<CacheShard> := [];
      for i := 0 to SHARD_COUNT
        invariant |list| == i
        invariant forall k :: 0 <= k < i ==> fresh(list[k]) && Empty(list[k], PerShard(capacity), ttl)
        invariant forall j, k :: 0 <= j < k < i ==> list[j] != list[k]
      {
        var shard := new CacheShard(PerShard(capacity), ttl);
        list := list + [shard];
      }
      shards, this.capacity, this.ttl, this.hash := list, capacity, ttl, hash;
      history := [];
    }

    static ghost predicate Empty(s: CacheShard, capacity: nat, ttl: Time)
      reads s, s.evictList
    {
      s.capacity == capacity && s.ttl == ttl && s.evictList == [] && s.Valid()
    }

    /** Every shard holds what its own operations have left in it. */
    ghost predicate Valid()
      reads this, shards, set s, e | s in shards && e in s.evictList :: e
    {
      Sharded() && forall i :: 0 <= i < SHARD_COUNT ==>
          shards[i].Contents() == Run(PerShard(capacity), ttl, OpsOf(hash, history, i))
    }

    ghost predicate Sharded()
      reads shards, set s, e | s in shards && e in s.evictList :: e
    {
      && |shards| == SHARD_COUNT
      && (forall i :: 0 <= i < SHARD_COUNT ==>
            shards[i].Valid() && shards[i].capacity == PerShard(capacity) && shards[i].ttl == ttl)
      && (forall i, j :: 0 <= i < j < SHARD_COUNT ==>
            shards[i] != shards[j] && shards[i].Elements() !! shards[j].Elements())
    }

    function Route(key: string): (i: nat)
      ensures i < SHARD_COUNT
    {
      hash(key) % SHARD_COUNT
    }

    ghost function Sizes(): (ns: seq<nat>)
      reads shards
      ensures |ns| == |shards| && forall i :: 0 <= i < |ns| ==> ns[i] == |shards[i].evictList|
    {
      seq(|shards|, i requires 0 <= i < |shards| reads shards => |shards[i].evictList|)
    }

    /** All shards together never hold more than the capacity, or one entry each if that is more. */
    lemma TotalIsBounded()
      requires Valid()
      ensures Sum(Sizes()) <= if capacity > SHARD_COUNT then capacity else SHARD_COUNT
    {
      SumBound(Sizes(), PerShard(capacity));
    }

    lemma ListsAreApart(r: nat)
      requires r < SHARD_COUNT && Sharded()
      ensures forall i, e :: 0 <= i < SHARD_COUNT && i != r && e in shards[i].evictList ==> e !in shards[r].evictList
    {
      forall i, e | 0 <= i < SHARD_COUNT && i != r && e in shards[i].evictList ensures e !in shards[r].evictList {
        assert e in shards[i].Elements() && shards[i].Elements() !! shards[r].Elements();
      }
    }

    /** What an operation on one shard, which adds only new elements, leaves of the others. */
    twostate lemma OthersStay(r: nat)
      requires r < SHARD_COUNT && old(Sharded()) && shards[r].Valid()
      requires forall e :: e in shards[r].Elements() ==> e in old(shards[r].Elements()) || fresh(e)
      requires forall i :: 0 <= i < SHARD_COUNT && i != r ==> unchanged(shards[i]) && unchanged(shards[i].evictList)
      ensures Sharded()
      ensures forall i :: 0 <= i < SHARD_COUNT && i != r ==> shards[i].Contents() == old(shards[i].Contents())
    {
      hide NoDup, ItemsOf;
      forall i | 0 <= i < SHARD_COUNT && i != r
        ensures shards[i].Contents() == old(shards[i].Contents()) && shards[i].Elements() == old(shards[i].Elements())
                  && shards[i].Valid()
      {
        assert old(shards[i].Valid());
      }
    }

    /** What Get will answer. */
    ghost function Found(key: string, now: Time): Option<string>
      requires Valid()
      reads this, shards, set s, e | s in shards && e in s.evictList :: e
    {
      Lookup(shards[Route(key)].Contents(), key, now)
    }

    /** A key that was set is found until it expires, while fewer than `capacity / 256` other keys of its shard have
        been used since, and it was not set again, removed, or looked up too late. */
    lemma RecentKeysAreFound(before: seq<Op>, key: string, value: string, at: Time, rest: seq<Op>, now: Time)
      requires Valid() && history == before + [LruSpec.Set(key, value, at)] + rest
      requires |LruReference.KeysOf(OpsOf(hash, rest, Route(key))) - {key}| <
                 (if capacity / 256 < 1 then 1 else capacity / 256)
      requires forall op :: op in rest && op.key == key ==> op.Get? && op.now <= at + ttl
      ensures Found(key, now) == if now <= at + ttl then Some(value) else None
    {
      hide ItemsOf, NoDup, Run;
      var r := Route(key);
      var one := [LruSpec.Set(key, value, at)];
      OpsOfJoin(hash, before + one, rest, r);
      OpsOfJoin(hash, before, one, r);
      OpsOfAll(hash, rest, r);
      assert one[..0] == [] && OpsOf(hash, one, r) == one;
      LruReference.RecentKeysAreFound(PerShard(capacity), ttl, OpsOf(hash, before, r), key, value, at,
                                      OpsOf(hash, rest, r), now);
    }

    /** Appends to the history what has just been done. */
    ghost method Note(op: Op)
      requires Sharded()
      requires forall i :: 0 <= i < SHARD_COUNT ==>
                 shards[i].Contents() ==
                 var s := Run(PerShard(capacity), ttl, OpsOf(hash, history, i));
                 if i == Route(op.key) then Apply(s, PerShard(capacity), ttl, op) else s
      modifies this`history
      ensures Valid() && history == old(history) + [op]
    {
      hide NoDup, Apply, ItemsOf, OpsOf, Run;
      forall i | 0 <= i < SHARD_COUNT
        ensures shards[i].Contents() == Run(PerShard(capacity), ttl, OpsOf(hash, history + [op], i))
      {
        OneMoreOp(hash, history, op, i, PerShard(capacity), ttl);
      }
      history := history + [op];
    }

    method Get(key: string, now: Time) returns (r: Option<string>)
      requires Valid()
      modifies this`history, shards[Route(key)]
      ensures Valid() && history == old(history) + [LruSpec.Get(key, now)]
      ensures r == old(Found(key, now))
      ensures forall i :: 0 <= i < SHARD_COUNT ==>
                shards[i].Contents() == if i == Route(key)
                    then Apply(old(shards[i].Contents()), PerShard(capacity), ttl, LruSpec.Get(key, now))
                                        else old(shards[i].Contents())
    {
      hide NoDup, Apply, ItemsOf, OpsOf, Run;
      r := shards[Route(key)].Get(key, now);
      OthersStay(Route(key));
      Note(LruSpec.Get(key, now));
    }

    method Set(key: string, value: string, now: Time)
      requires Valid()
      modifies this`history, shards[Route(key)], shards[Route(key)].evictList
      ensures Valid() && history == old(history) + [LruSpec.Set(key, value, now)]
      ensures forall i :: 0 <= i < SHARD_COUNT ==>
                shards[i].Contents() == if i == Route(key)
                    then Apply(old(shards[i].Contents()), PerShard(capacity), ttl, LruSpec.Set(key, value, now))
                                        else old(shards[i].Contents())
    {
      hide NoDup, Apply, ItemsOf, OpsOf, Run;
      ListsAreApart(Route(key));
      shards[Route(key)].Set(key, value, now);
      OthersStay(Route(key));
      Note(LruSpec.Set(key, value, now));
    }

    method Invalidate(key: string)
      requires Valid()
      modifies this`history, shards[Route(key)]
      ensures Valid() && history == old(history) + [LruSpec.Invalidate(key)]
      ensures forall i :: 0 <= i < SHARD_COUNT ==>
                shards[i].Contents() == if i == Route(key)
                    then Apply(old(shards[i].Contents()), PerShard(capacity), ttl, LruSpec.Invalidate(key))
                                        else old(shards[i].Contents())
    {
      hide NoDup, Apply, ItemsOf, OpsOf, Run;
      shards[Route(key)].Invalidate(key);
      OthersStay(Route(key));
      Note(LruSpec.Invalidate(key));
    }
  }
}
