/** The start-up loop that fills the Bloom filter: RebuildBloom in internal/service/shortlink.go and its page query
    in internal/repository/storage.go. */
module Rebuild {
  import opened Common
  import Bloom
  import Outbox

  const BATCH_SIZE: nat := 500

  /** `short_links`: primary key to short code. */
  type Links = map<nat, string>

  class LinkTable {
    var rows: Links

    constructor (rows: Links)
      ensures this.rows == rows
    {
      this.rows := rows;
    }

    /** Other requests commit these rows; none is ever changed. */
    method Commit(added: Links)
      modifies this
      ensures forall id :: id in rows <==> id in old(rows) || id in added
      ensures forall id :: id in old(rows) ==> rows[id] == old(rows)[id]
    {
      rows := added + rows;
    }

    /** The next page in id order. */
    method ListShortCodesAfter(lastID: nat, limit: nat) returns (ids: seq<nat>)
      ensures Outbox.IsOldest(Above(rows, lastID), ids, limit)
    {
      ids := Outbox.SelectOldest(Above(rows, lastID), limit);
    }
  }

  function Above(rows: Links, lastID: nat): Outbox.Ages {
    map id | id in rows && id > lastID :: id
  }

  predicate Ascending(ids: seq<nat>) {
    forall i, j :: 0 <= i < j < |ids| ==> ids[i] < ids[j]
  }

  /** All codes of these rows are members. */
  ghost predicate Members(f: Bloom.Filter, bits: set<nat>, rows: Links, ids: seq<nat>) {
    forall i :: 0 <= i < |ids| ==> ids[i] in rows && Bloom.Bits(f, rows[ids[i]]) <= bits
  }

  /** Every bit is an old one or belongs to one of these rows. */
  ghost predicate NothingElse(f: Bloom.Filter, old_: set<nat>, bits: set<nat>, rows: Links, ids: seq<nat>) {
    forall b :: b in bits ==>
        b in old_ || exists i :: 0 <= i < |ids| && ids[i] in rows && b in Bloom.Bits(f, rows[ids[i]])
  }

  /** A page is in order, and leaves nothing out between the cursor and its last row. */
  lemma PageFacts(rows: Links, lastID: nat, ids: seq<nat>, limit: nat)
    requires Outbox.IsOldest(Above(rows, lastID), ids, limit) && limit > 0
    ensures Ascending(ids) && forall i :: 0 <= i < |ids| ==> ids[i] in rows && ids[i] > lastID
    ensures ids != [] ==> forall id :: id in rows && lastID < id <= ids[|ids| - 1] ==> id in ids
    ensures ids == [] ==> forall id :: id in rows ==> id <= lastID
  {
    var ages := Above(rows, lastID);
    if ids != [] {
      forall id | id in rows && lastID < id <= ids[|ids| - 1] ensures id in ids {
        assert id in ages && ids[|ids| - 1] in ages;
      }
    } else {
      assert forall id :: id in rows && id > lastID ==> id in ages;
    }
  }

  lemma LongerRun(seen: seq<nat>, page: seq<nat>, lastID: nat)
    requires Ascending(seen) && Ascending(page) && page != []
    requires (forall i :: 0 <= i < |seen| ==> 0 < seen[i] <= lastID) && forall i :: 0 <= i < |page| ==> page[i] > lastID
    ensures Ascending(seen + page) && forall i :: 0 <= i < |seen + page| ==> 0 < (seen + page)[i] <= page[|page| - 1]
  {
    forall i | 0 <= i < |page| ensures page[i] <= page[|page| - 1] {}
  }

  /** Where a pipeline breaks: after some bits of some code. */
  datatype Break = Break(codes: nat, bits: nat)

  /** The pipeline of one page: the bits of its codes, in order; it may fail part way. */
  method QueuePage(bf: Bloom.RedisBloomFilter, rows: Links, ids: seq<nat>, stop: Option<Break>) returns (ok: bool)
    requires forall i :: 0 <= i < |ids| ==> ids[i] in rows
    modifies bf
    ensures old(bf.bits) <= bf.bits && NothingElse(bf.f, old(bf.bits), bf.bits, rows, ids)
    ensures ok <==> stop.None? || stop.value.codes >= |ids|
    ensures ok ==> Members(bf.f, bf.bits, rows, ids)
  {
    for i := 0 to |ids|
      invariant old(bf.bits) <= bf.bits && Members(bf.f, bf.bits, rows, ids[..i])
                && (stop.None? || i <= stop.value.codes)
      invariant NothingElse(bf.f, old(bf.bits), bf.bits, rows, ids[..i])
    {
      ghost var before := bf.bits;
      if stop.Some? && stop.value.codes == i {
        bf.QueueAdd(rows[ids[i]], if stop.value.bits < |bf.f.seeds| then stop.value.bits else |bf.f.seeds|);
        OneMoreCode(bf.f, old(bf.bits), before, bf.bits, rows, ids, i);
        Prefix(bf.f, old(bf.bits), bf.bits, rows, ids, i + 1);
        return false;
      }
      bf.QueueAdd(rows[ids[i]], |bf.f.seeds|);
      OneMoreCode(bf.f, old(bf.bits), before, bf.bits, rows, ids, i);
    }
    assert ids[..|ids|] == ids;
    ok := true;
  }

  lemma Prefix(f: Bloom.Filter, old_: set<nat>, bits: set<nat>, rows: Links, ids: seq<nat>, n: nat)
    requires n <= |ids| && NothingElse(f, old_, bits, rows, ids[..n])
    ensures NothingElse(f, old_, bits, rows, ids)
  {
    assert forall k :: 0 <= k < n ==> ids[..n][k] == ids[k];
  }

  lemma OneMoreCode(f: Bloom.Filter, old_: set<nat>, before: set<nat>, after: set<nat>, rows: Links, ids: seq<nat>,
      i: nat)
    requires i < |ids| && ids[i] in rows && before <= after <= before + Bloom.Bits(f, rows[ids[i]])
    requires Members(f, before, rows, ids[..i]) && NothingElse(f, old_, before, rows, ids[..i])
    ensures Bloom.Bits(f, rows[ids[i]]) <= after ==> Members(f, after, rows, ids[..i + 1])
    ensures NothingElse(f, old_, after, rows, ids[..i + 1])
  {
    var longer := ids[..i + 1];
    assert longer[i] == ids[i] && forall k :: 0 <= k < i ==> longer[k] == ids[..i][k];
    forall b | b in after && b !in old_ ensures exists k :: 0 <= k < |longer| && longer[k] in rows
                                                  && b in Bloom.Bits(f, rows[longer[k]]) {
      if b in before {
        var k :| 0 <= k < |ids[..i]| && ids[..i][k] in rows && b in Bloom.Bits(f, rows[ids[..i][k]]);
        assert longer[k] == ids[..i][k];
      } else {
        assert b in Bloom.Bits(f, rows[longer[i]]);
      }
    }
  }

  /** `arrivals` are the rows that others commit between the pages, and `breaks` and `queryFails` say which pipelines
      and queries fail.
      The loop ends because only finitely many rows arrive.  aux `seen`: the rows visited, in order. */
  method RebuildBloom(db: LinkTable, bf: Bloom.RedisBloomFilter, arrivals: seq<Links>, breaks: map<nat, Break>,
      queryFails: set<nat>)
    returns (ready: bool, ghost seen: seq<nat>)
    modifies db, bf
    ensures forall id :: id in old(db.rows) ==> id in db.rows && db.rows[id] == old(db.rows)[id]
    ensures Ascending(seen) && 0 !in seen
    ensures old(bf.bits) <= bf.bits && NothingElse(bf.f, old(bf.bits), bf.bits, db.rows, seen)
    ensures ready ==>
              Members(bf.f, bf.bits, db.rows, seen) && forall id :: id in old(db.rows) ==> (id in seen <==> id != 0)
    ensures breaks == map[] && queryFails == {} ==> ready
  {
    var lastID := 0;
    var round := 0;
    seen := [];
    while true
      invariant forall id :: id in old(db.rows) ==> id in db.rows && db.rows[id] == old(db.rows)[id]
      invariant Ascending(seen) && forall i :: 0 <= i < |seen| ==> 0 < seen[i] <= lastID
      invariant forall id :: id in old(db.rows) && 0 < id <= lastID ==> id in seen
      invariant old(bf.bits) <= bf.bits && Members(bf.f, bf.bits, db.rows, seen)
      invariant NothingElse(bf.f, old(bf.bits), bf.bits, db.rows, seen)
      decreases if round < |arrivals| then |arrivals| - round else 0, Above(db.rows, lastID).Keys
    {
      if round < |arrivals| {
        ghost var rows := db.rows;
        db.Commit(arrivals[round]);
        StillMembers(bf.f, old(bf.bits), bf.bits, rows, db.rows, seen);
      }
      if round in queryFails {
        return false, seen;
      }
      var ids := db.ListShortCodesAfter(lastID, BATCH_SIZE);
      PageFacts(db.rows, lastID, ids, BATCH_SIZE);
      if |ids| == 0 {
        return true, seen;
      }
      ghost var bits := bf.bits;
      var ok := QueuePage(bf, db.rows, ids, if round in breaks then Some(breaks[round]) else None);
      LongerRun(seen, ids, lastID);
      Joined(bf.f, old(bf.bits), bits, bf.bits, db.rows, seen, ids);
      seen := seen + ids;
      if !ok {
        return false, seen;
      }
      lastID := ids[|ids| - 1];
      round := round + 1;
    }
  }

  lemma StillMembers(f: Bloom.Filter, old_: set<nat>, bits: set<nat>, rows: Links, rows': Links, seen: seq<nat>)
    requires forall id :: id in rows ==> id in rows' && rows'[id] == rows[id]
    requires Members(f, bits, rows, seen) && NothingElse(f, old_, bits, rows, seen)
    ensures Members(f, bits, rows', seen) && NothingElse(f, old_, bits, rows', seen)
  {}

  lemma Joined(f: Bloom.Filter, old_: set<nat>, before: set<nat>, after: set<nat>, rows: Links, seen: seq<nat>,
      ids: seq<nat>)
    requires before <= after && Members(f, before, rows, seen) && NothingElse(f, old_, before, rows, seen)
    requires NothingElse(f, before, after, rows, ids)
    ensures NothingElse(f, old_, after, rows, seen + ids)
    ensures Members(f, after, rows, ids) ==> Members(f, after, rows, seen + ids)
  {
    var all := seen + ids;
    forall b | b in after && b !in old_ ensures exists k :: 0 <= k < |all| && all[k] in rows
                                                  && b in Bloom.Bits(f, rows[all[k]]) {
      if b in before {
        var k :| 0 <= k < |seen| && seen[k] in rows && b in Bloom.Bits(f, rows[seen[k]]);
        assert all[k] == seen[k];
      } else {
        var k :| 0 <= k < |ids| && ids[k] in rows && b in Bloom.Bits(f, rows[ids[k]]);
        assert all[|seen| + k] == ids[k];
      }
    }
  }
}
