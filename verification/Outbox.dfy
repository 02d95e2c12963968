/** The transactional outbox table: internal/repository/outbox.go. */
module Outbox {
  import opened Common

  datatype Status = Pending | Processing | Sent | Failed

  datatype Row = Row(msg: Message, status: Status, retryCount: nat, workerId: string,
                     lockedUntil: Option<Time>, createdAt: Time, updatedAt: Time)

  type Table = map<nat, Row>

  /** How the database evaluates the assignments of one UPDATE: MySQL goes left to right, so a later
      assignment reads the columns that earlier ones have already changed; standard SQL reads the old row. */
  datatype AssignOrder = LeftToRight | Simultaneous

  function NewRow(msg: Message, now: Time): Row {
    Row(msg, Pending, 0, "", None, now, now)
  }

  /** The WHERE clause of the claim; a NULL `locked_until` never compares as smaller. */
  predicate Claimable(r: Row, now: Time) {
    r.status.Pending? || (r.status.Processing? && r.lockedUntil.Some? && r.lockedUntil.value < now)
  }

  /** The fence of both settling updates. */
  predicate OwnedBy(r: Row, worker: string) {
    r.status.Processing? && r.workerId == worker
  }

  function ClaimRow(r: Row, worker: string, now: Time, lease: Time): Row {
    r.(status := Processing, workerId := worker, lockedUntil := Some(now + lease), updatedAt := now)
  }

  function SentRow(r: Row, now: Time): Row {
    r.(status := Sent, workerId := "", lockedUntil := None, updatedAt := now)
  }

  function FailedRow(r: Row, maxRetry: int, now: Time, order: AssignOrder): Row {
    var seenByCase := if order.LeftToRight? then r.retryCount + 1 else r.retryCount;
    r.(retryCount := r.retryCount + 1,
       status := if seenByCase + 1 >= maxRetry then Failed else Pending,
       workerId := "", lockedUntil := None, updatedAt := now)
  }

  function Claim(t: Table, ids: set<nat>, worker: string, now: Time, lease: Time): Table {
    map id | id in t :: if id in ids then ClaimRow(t[id], worker, now, lease) else t[id]
  }

  function MarkSent(t: Table, ids: set<nat>, worker: string, now: Time): Table {
    map id | id in t :: if id in ids && OwnedBy(t[id], worker) then SentRow(t[id], now) else t[id]
  }

  function MarkFailed(t: Table, id: nat, maxRetry: int, worker: string, now: Time, order: AssignOrder): Table {
    if id in t && OwnedBy(t[id], worker) then t[id := FailedRow(t[id], maxRetry, now, order)] else t
  }

  predicate Expendable(r: Row, deadline: int) {
    r.status.Sent? && r.updatedAt < deadline
  }

  /** The number of failed publishes after which a row is given up. */
  function Attempts(maxRetry: int, order: AssignOrder): nat {
    var budget := if order.LeftToRight? then maxRetry - 1 else maxRetry;
    if budget < 1 then 1 else budget
  }

  /** What one recorded failure means: only the row itself changes, and only if the worker still holds it; the row is
      given up exactly when its failures reach the budget, and is free again otherwise. */
  ghost predicate FailureRecorded(t: Table, t': Table, id: nat, maxRetry: int, worker: string, now: Time,
      order: AssignOrder) {
    && t'.Keys == t.Keys
    && (forall k :: k in t && (k != id || !OwnedBy(t[k], worker)) ==> t'[k] == t[k])
    && (id in t && OwnedBy(t[id], worker) ==>
          var failures := t[id].retryCount + 1;
          t'[id] == Row(t[id].msg, if failures >= Attempts(maxRetry, order) then Failed else Pending, failures, "",
                        None, t[id].createdAt, now))
  }

  lemma MarkFailedRecords(t: Table, id: nat, maxRetry: int, worker: string, now: Time, order: AssignOrder)
    ensures FailureRecorded(t, MarkFailed(t, id, maxRetry, worker, now, order), id, maxRetry, worker, now, order)
    ensures forall t' :: FailureRecorded(t, t', id, maxRetry, worker, now, order) ==>
              t' == MarkFailed(t, id, maxRetry, worker, now, order)
  {}

  /** A row that fails, is claimed again, fails, and so on, `n` times. */
  function FailTimes(r: Row, n: nat, maxRetry: int, worker: string, now: Time, lease: Time, order: AssignOrder): Row {
    if n == 0 then r
    else FailedRow(ClaimRow(FailTimes(r, n - 1, maxRetry, worker, now, lease, order), worker, now, lease), maxRetry,
        now, order)
  }

  /** A row stays claimable through its first `Attempts - 1` failures and is failed by the next one:
      `maxRetry` publishes in standard SQL, one fewer under MySQL's evaluation order. */
  lemma {:induction false} GivenUpAfterExactly(msg: Message, n: nat, maxRetry: int, worker: string, now: Time,
      lease: Time, order: AssignOrder)
    ensures var r := FailTimes(NewRow(msg, now), n, maxRetry, worker, now, lease, order);
            r.retryCount == n && r.msg == msg
            && (n < Attempts(maxRetry, order) ==> r.status.Pending?)
            && (n == Attempts(maxRetry, order) ==> r.status.Failed?)
  {
    if n > 0 {
      GivenUpAfterExactly(msg, n - 1, maxRetry, worker, now, lease, order);
    }
  }

  // ---- the repository's methods ----

  /** What the database does to one call.  An error can be reported after the commit took effect. */
  datatype Fault = NoFault | FailsEarly | FailsAtCommit(applied: bool)

  predicate Takes(f: Fault) {
    f.NoFault? || (f.FailsAtCommit? && f.applied)
  }

  /** The candidates of a query, with the column that it sorts by. */
  type Ages = map<nat, Time>

  /** ORDER BY the age, LIMIT `limit`. */
  ghost predicate IsOldest(ages: Ages, ids: seq<nat>, limit: nat) {
    && (forall i :: 0 <= i < |ids| ==> ids[i] in ages)
    && (forall i, j :: 0 <= i < j < |ids| ==> ids[i] != ids[j] && ages[ids[i]] <= ages[ids[j]])
    && (forall i, c :: 0 <= i < |ids| && c in ages && c !in ids ==> ages[ids[i]] <= ages[c])
    && |ids| <= limit
    && (|ids| < limit ==> forall c :: c in ages ==> c in ids)
  }

  /** The rows that the claim's SELECT can lock; SKIP LOCKED leaves out those of other transactions. */
  function Free(t: Table, now: Time, locked: set<nat>): Ages {
    map id | id in t && id !in locked && Claimable(t[id], now) :: t[id].createdAt
  }

  function ExpendableRows(t: Table, deadline: int): Ages {
    map id | id in t && Expendable(t[id], deadline) :: t[id].updatedAt
  }

  function Elements(ids: seq<nat>): set<nat> {
    set i | 0 <= i < |ids| :: ids[i]
  }

  method Oldest(ages: Ages) returns (best: nat)
    requires ages.Keys != {}
    ensures best in ages && forall c :: c in ages ==> ages[best] <= ages[c]
  {
    var rest := ages.Keys;
    best :| best in rest;
    rest := rest - {best};
    while rest != {}
      invariant rest <= ages.Keys && best in ages
      invariant forall c :: c in ages && c !in rest ==> ages[best] <= ages[c]
      decreases rest
    {
      var c :| c in rest;
      if ages[c] < ages[best] {
        best := c;
      }
      rest := rest - {c};
    }
  }

  method SelectOldest(ages: Ages, limit: nat) returns (ids: seq<nat>)
    ensures IsOldest(ages, ids, limit)
  {
    var rest := ages;
    ids := [];
    while |ids| < limit && rest.Keys != {}
      invariant |ids| <= limit
      invariant forall c :: c in rest ==> c in ages && rest[c] == ages[c]
      invariant forall c :: c in ages ==> (c in rest <==> c !in ids)
      invariant forall i :: 0 <= i < |ids| ==> ids[i] in ages
      invariant forall i, j :: 0 <= i < j < |ids| ==> ids[i] != ids[j] && ages[ids[i]] <= ages[ids[j]]
      invariant forall i, c :: 0 <= i < |ids| && c in rest ==> ages[ids[i]] <= ages[c]
      decreases rest.Keys
    {
      var best := Oldest(rest);
      ids := ids + [best];
      rest := rest - {best};
    }
  }

  class OutboxStore {
    var rows: Table
    const order: AssignOrder

    constructor (order: AssignOrder)
      ensures this.order == order && rows == map[]
    {
      this.order := order;
      rows := map[];
    }

    method ClaimPendingOutbox(limit: int, worker: string, now: Time, lease: Time, locked: set<nat>, fault: Fault)
      returns (res: Result<seq<(nat, Row)>>, ids: seq<nat>)
      modifies this
      ensures res.Ok? <==> limit <= 0 || fault.NoFault?
      ensures limit <= 0 ==> res == Ok([])
      ensures limit > 0 && Takes(fault) ==> IsOldest(Free(old(rows), now, locked), ids, limit)
      ensures rows == if limit > 0 && Takes(fault) then Claim(old(rows), Elements(ids), worker, now, lease)
                else old(rows)
      ensures limit > 0 && res.Ok? ==>
                |res.value| == |ids| && forall i :: 0 <= i < |ids| ==>
                                          ids[i] in old(rows) && res.value[i] == (ids[i], old(rows)[ids[i]])
    {
      ids := [];
      if limit <= 0 {
        return Ok([]), ids;
      }
      if fault.FailsEarly? {
        return Err, ids;
      }
      var found := SelectOldest(Free(rows, now, locked), limit);
      ids := found;
      var msgs: seq<(nat, Row)> := [];
      for i := 0 to |found|
        invariant |msgs| == i && forall k :: 0 <= k < i ==> msgs[k] == (found[k], rows[found[k]])
      {
        msgs := msgs + [(found[i], rows[found[i]])];
      }
      if Takes(fault) {
        rows := Claim(rows, Elements(found), worker, now, lease);
      }
      res := if fault.NoFault? then Ok(msgs) else Err;
    }

    method MarkOutboxSentBatch(ids: seq<nat>, worker: string, now: Time, fault: Fault) returns (ok: bool)
      modifies this
      ensures ok <==> ids == [] || fault.NoFault?
      ensures rows.Keys == old(rows).Keys
      ensures forall id :: id in old(rows) ==>
                rows[id] == if id in ids && Takes(fault) && OwnedBy(old(rows)[id], worker)
                            then SentRow(old(rows)[id], now) else old(rows)[id]
    {
      if ids == [] {
        return true;
      }
      if Takes(fault) {
        rows := MarkSent(rows, Elements(ids), worker, now);
      }
      ok := fault.NoFault?;
    }

    method MarkOutboxFailed(id: nat, maxRetry: int, worker: string, now: Time, fault: Fault) returns (ok: bool)
      modifies this
      ensures ok <==> fault.NoFault?
      ensures if Takes(fault) then FailureRecorded(old(rows), rows, id, maxRetry, worker, now, order)
                else rows == old(rows)
    {
      if Takes(fault) {
        MarkFailedRecords(rows, id, maxRetry, worker, now, order);
        rows := MarkFailed(rows, id, maxRetry, worker, now, order);
      }
      ok := fault.NoFault?;
    }

    /** The first statement of the cleanup: it only reads. */
    method PluckSent(deadline: int, batchSize: nat) returns (ids: seq<nat>)
      ensures IsOldest(ExpendableRows(rows, deadline), ids, batchSize)
    {
      ids := SelectOldest(ExpendableRows(rows, deadline), batchSize);
    }

    /** The second statement deletes by id alone; it does not look at the status again. */
    method DeleteRows(ids: seq<nat>, fault: Fault) returns (ok: bool)
      modifies this
      ensures ok <==> fault.NoFault?
      ensures forall id :: id in rows <==> id in old(rows) && !(Takes(fault) && id in ids)
      ensures forall id :: id in rows ==> rows[id] == old(rows)[id]
    {
      if Takes(fault) {
        rows := rows - Elements(ids);
      }
      ok := fault.NoFault?;
    }
  }
}
