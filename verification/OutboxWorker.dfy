/** internal/worker/outbox.go. */
module OutboxWorker {
  import opened Common
  import opened SystemModel
  import opened Cluster
  import opened SystemTheorems
  import opened Settling
  import opened Answers
  import Leases
  import Outbox

  const CLEANUP_INTERVAL: Time := 3_600_000
  const CLEANUP_LIMIT: nat := 1000

  ghost predicate Working(c: Cluster, w: string, at: Worker)
    reads c
  {
    c.Valid() && WorkerAt(c.s, w) == at
  }

  ghost predicate AllPublished(s: State, ids: seq<nat>) {
    forall i :: 0 <= i < |ids| ==> ids[i] in s.aux.published
  }

  lemma StillPublished(s: State, s': State, ids: seq<nat>)
    requires Onwards(s, s') && AllPublished(s, ids)
    ensures AllPublished(s', ids)
  {}

  lemma ClockGoesOn(s: State, s': State)
    requires Onwards(s, s')
    ensures s.now <= s'.now
  {}

  lemma OneMorePublished(s: State, ids: seq<nat>, id: nat)
    requires AllPublished(s, ids) && id in s.aux.published
    ensures AllPublished(s, ids + [id])
  {}

  lemma SelectedCanBeClaimed(s: State, locked: set<nat>, ids: seq<nat>)
    requires Outbox.IsOldest(Outbox.Free(s.db.outbox, s.now, locked), ids, OUTBOX_BATCH_SIZE)
    ensures CanClaim(s, ids)
  {
    forall i | 0 <= i < |ids| ensures ids[i] in s.db.outbox && Outbox.Claimable(s.db.outbox[ids[i]], s.now) {
      assert ids[i] in Outbox.Free(s.db.outbox, s.now, locked);
    }
  }

  function IdsOf(batch: seq<Job>): (ids: seq<nat>)
    ensures |ids| == |batch| && forall i :: 0 <= i < |batch| ==> ids[i] == batch[i].id
  {
    seq(|batch|, i requires 0 <= i < |batch| => batch[i].id)
  }

  lemma JobsAreRows(s: State, ids: seq<nat>, w: string, lease: Time)
    requires forall i :: 0 <= i < |ids| ==> ids[i] in s.db.outbox
    ensures var batch, t := JobsOf(s, ids), Outbox.Claim(s.db.outbox, Outbox.Elements(ids), w, s.now, lease);
            IdsOf(batch) == ids && forall i :: 0 <= i < |batch| ==>
                                     batch[i].id in t && batch[i].msg == t[batch[i].id].msg
                                     && batch[i].claim == |ClaimsOf(s, batch[i].id)|
  {}

  lemma SelectedAreExpendable(s: State, deadline: int, ids: seq<nat>)
    requires Outbox.IsOldest(Outbox.ExpendableRows(s.db.outbox, deadline), ids, CLEANUP_LIMIT)
    ensures forall id :: id in Outbox.Elements(ids) ==>
              id in s.db.outbox && Outbox.Expendable(s.db.outbox[id], deadline)
    ensures Outbox.Elements(ids) <= Outbox.ExpendableRows(s.db.outbox, deadline).Keys
  {
    forall id | id in Outbox.Elements(ids) ensures id in s.db.outbox && Outbox.Expendable(s.db.outbox[id], deadline) {
      assert id in Outbox.ExpendableRows(s.db.outbox, deadline);
    }
  }

  // ---- the verdicts on a batch ----

  /** What happens to the calls of one turn; `publish(i)` is what becomes of the i-th message. */
  datatype Schedule = Schedule(claim: Outbox.Fault, skipped: set<nat>, publish: nat -> Delivered,
                               failed: nat -> Outbox.Fault, sent: Outbox.Fault, pluckFails: bool, delete: Outbox.Fault)

  /** The broker may have the message although the publisher hears of an error. */
  datatype Delivered = Acknowledged | Unconfirmed | Lost

  /** Nothing goes wrong with the database. */
  ghost predicate DatabaseWorks(plan: Schedule) {
    plan.claim.NoFault? && plan.sent.NoFault? && forall i :: plan.failed(i).NoFault?
  }

  /** The update that settles the i-th claim takes effect. */
  predicate Settles(plan: Schedule, i: nat) {
    Outbox.Takes(if plan.publish(i).Acknowledged? then plan.sent else plan.failed(i))
  }

  /** The acknowledged ones among the first `n`. */
  ghost predicate SentOf(batch: seq<Job>, plan: Schedule, n: nat, sent: seq<nat>) {
    n <= |batch| && sent == AcknowledgedOf(batch, plan, n)
  }

  function AcknowledgedOf(batch: seq<Job>, plan: Schedule, n: nat): (sent: seq<nat>)
    requires n <= |batch|
    ensures forall i :: 0 <= i < n && plan.publish(i).Acknowledged? ==> batch[i].id in sent
    ensures forall id :: id in sent ==> exists i :: 0 <= i < n && plan.publish(i).Acknowledged? && batch[i].id == id
  {
    if n == 0 then []
    else AcknowledgedOf(batch, plan, n - 1) + (if plan.publish(n - 1).Acknowledged? then [batch[n - 1].id] else [])
  }

  /** Each of the first `n` claims that failed and was recorded has its verdict. */
  ghost predicate FailuresDone(s: State, batch: seq<Job>, plan: Schedule, n: nat) {
    forall i :: 0 <= i < n && i < |batch| && !plan.publish(i).Acknowledged? && Settles(plan, i) ==>
        HasVerdict(s, batch[i], false)
  }

  /** Each claim whose update took effect has the verdict that fits its publish. */
  ghost predicate AllSettled(s: State, batch: seq<Job>, plan: Schedule) {
    forall i :: 0 <= i < |batch| && Settles(plan, i) ==> HasVerdict(s, batch[i], plan.publish(i).Acknowledged?)
  }

  lemma FailuresStay(s: State, s': State, batch: seq<Job>, plan: Schedule, n: nat)
    requires Onwards(s, s') && FailuresDone(s, batch, plan, n)
    ensures FailuresDone(s', batch, plan, n)
  {
    hide Settles, HasVerdict;
    GrowthOfOnwards(s, s');
    forall i | 0 <= i < n && i < |batch| && !plan.publish(i).Acknowledged? && Settles(plan, i)
      ensures HasVerdict(s', batch[i], false)
    {
      VerdictStays(s, s', batch[i], false);
    }
  }

  lemma VerdictsStay(s: State, s': State, batch: seq<Job>, plan: Schedule)
    requires Onwards(s, s') && AllSettled(s, batch, plan)
    ensures AllSettled(s', batch, plan)
  {
    hide Settles, HasVerdict;
    GrowthOfOnwards(s, s');
    forall i | 0 <= i < |batch| && Settles(plan, i)
      ensures HasVerdict(s', batch[i], plan.publish(i).Acknowledged?)
    {
      VerdictStays(s, s', batch[i], plan.publish(i).Acknowledged?);
    }
  }

  lemma GrowthOfOnwards(s: State, s': State)
    requires Onwards(s, s')
    ensures HistoriesGrow(s, s')
  {}

  lemma NoFailureYet(s: State, batch: seq<Job>, plan: Schedule)
    ensures FailuresDone(s, batch, plan, 0)
  {}

  lemma OneMoreSent(s: State, batch: seq<Job>, plan: Schedule, n: nat)
    requires FailuresDone(s, batch, plan, n) && plan.publish(n).Acknowledged?
    ensures FailuresDone(s, batch, plan, n + 1)
  {}

  lemma OneMoreFailed(s: State, batch: seq<Job>, plan: Schedule, n: nat)
    requires FailuresDone(s, batch, plan, n) && n < |batch|
    requires Outbox.Takes(plan.failed(n)) ==> HasVerdict(s, batch[n], false)
    ensures plan.publish(n).Acknowledged? || FailuresDone(s, batch, plan, n + 1)
  {
    hide HasVerdict;
  }

  lemma SentToo(s: State, batch: seq<Job>, plan: Schedule, sent: seq<nat>)
    requires FailuresDone(s, batch, plan, |batch|) && SentOf(batch, plan, |batch|, sent)
    requires Outbox.Takes(plan.sent) ==>
               forall i :: 0 <= i < |batch| && batch[i].id in sent ==> HasVerdict(s, batch[i], true)
    ensures AllSettled(s, batch, plan)
  {
    hide HasVerdict;
  }

  lemma SameVerdict(s: State, s': State, job: Job, published: bool)
    requires HasVerdict(s, job, published) && s'.aux.claims == s.aux.claims
    ensures HasVerdict(s', job, published)
  {}

  predicate Shows(r: Outbox.Row, published: bool) {
    if published then r.status.Sent? else r.status.Pending? || r.status.Failed?
  }

  /** With a database that works, the rows whose claim is still the last show what became of their messages. */
  ghost predicate RowsShow(s: State, batch: seq<Job>, sent: seq<nat>) {
    forall i :: 0 <= i < |batch| && batch[i].id in s.db.outbox && batch[i].claim == |ClaimsOf(s, batch[i].id)| - 1 ==>
        Shows(s.db.outbox[batch[i].id], batch[i].id in sent)
  }

  lemma VerdictsShow(cfg: Config, s: State, batch: seq<Job>, plan: Schedule, sent: seq<nat>)
    requires Invariant(cfg, s) && AllSettled(s, batch, plan) && DatabaseWorks(plan)
    requires SentOf(batch, plan, |batch|, sent) && Distinct(batch)
    ensures RowsShow(s, batch, sent)
  {
    hide Invariant, HasVerdict;
    forall i | 0 <= i < |batch| && batch[i].id in s.db.outbox && batch[i].claim == |ClaimsOf(s, batch[i].id)| - 1
      ensures Shows(s.db.outbox[batch[i].id], batch[i].id in sent)
    {
      assert Settles(plan, i);
      VerdictShows(cfg, s, batch[i], plan.publish(i).Acknowledged?);
    }
  }

  ghost predicate Distinct(batch: seq<Job>) {
    forall i, j :: 0 <= i < j < |batch| ==> batch[i].id != batch[j].id
  }

  /** A worker that is about to delete knows that the rows are sent and old. */
  lemma ChosenAreOld(cfg: Config, s: State, w: string)
    requires Invariant(cfg, s) && WorkerAt(s, w).Cleaning?
    ensures OnlyOldSent(s.db.outbox, WorkerAt(s, w).ids, s.now - cfg.retain)
  {
    assert Leases.WorkerOk(cfg, s, w, s.workers[w]);
  }

  ghost predicate OnlyOldSent(t: Outbox.Table, ids: set<nat>, deadline: int) {
    forall id :: id in ids && id in t ==> t[id].status.Sent? && t[id].updatedAt < deadline
  }

  class OutboxWorker {
    const workerID: string
    /** The repository; each call works on the table as it is at that moment. */
    const repo: Outbox.OutboxStore
    /** None: the zero time. */
    var lastCleanup: Option<Time>

    constructor (workerID: string, repo: Outbox.OutboxStore)
      ensures this.workerID == workerID && this.repo == repo && lastCleanup.None?
    {
      this.workerID, this.repo, lastCleanup := workerID, repo, None;
    }

    /** ClaimPendingOutbox: the oldest claimable rows that no other transaction has locked now belong to this worker. */
    method ClaimPending(c: Cluster, locked: set<nat>, fault: Outbox.Fault) returns (ok: bool, batch: seq<Job>)
      requires Working(c, workerID, Idle)
      modifies c, repo
      ensures Working(c, workerID, if ok && batch != [] then Publishing(batch, 0, []) else Idle)
      ensures (ok <==> fault.NoFault?) && (!ok ==> batch == []) && Distinct(batch)
      ensures ok ==>
                Outbox.IsOldest(Outbox.Free(old(c.s.db.outbox), old(c.s.now), locked), IdsOf(batch), OUTBOX_BATCH_SIZE)
      ensures !Outbox.Takes(fault) ==> c.s.db.outbox == old(c.s.db.outbox)
      ensures ok ==>
                c.s.db.outbox == Outbox.Claim(old(c.s.db.outbox), Outbox.Elements(IdsOf(batch)), workerID, c.s.now,
                c.cfg.lease)
      ensures ok ==>
                forall i :: 0 <= i < |batch| ==>
                  batch[i].id in c.s.db.outbox && batch[i].msg == c.s.db.outbox[batch[i].id].msg
                  && batch[i].claim == |ClaimsOf(old(c.s), batch[i].id)|
    {
      hide Invariant, Onwards, ClearsStay, CanClaim, Outbox.IsOldest, Outbox.Claim;
      ghost var before := c.s;
      repo.rows := c.s.db.outbox;
      var res, ids := repo.ClaimPendingOutbox(OUTBOX_BATCH_SIZE, workerID, c.s.now, c.cfg.lease, locked, fault);
      ok := res.Ok?;
      if !Outbox.Takes(fault) {
        ids := [];
        NothingCanBeClaimed(c.s);
      } else {
        SelectedCanBeClaimed(c.s, locked, ids);
      }
      batch := if ok then JobsOf(c.s, ids) else [];
      c.Fire(Label.Work(workerID, WClaim(ids, Outbox.Takes(fault), ok)));
      assert c.s.db.outbox == repo.rows;
      if ok {
        JobsAreRows(before, ids, workerID, c.cfg.lease);
      }
    }

    /** Publishes one message; a failed one is marked for another try. */
    method PublishOne(c: Cluster, batch: seq<Job>, i: nat, sent: seq<nat>, plan: Schedule) returns (sent': seq<nat>)
      requires Working(c, workerID, Publishing(batch, i, sent)) && i < |batch| && repo.order == c.cfg.order
      requires AllPublished(c.s, sent) && FailuresDone(c.s, batch, plan, i)
      modifies c, repo
      ensures Working(c, workerID, Publishing(batch, i + 1, sent')) && AllPublished(c.s, sent')
      ensures sent' == if plan.publish(i).Acknowledged? then sent + [batch[i].id] else sent
      ensures plan.publish(i).Acknowledged? ==> batch[i].msg in c.s.queue
      ensures FailuresDone(c.s, batch, plan, i + 1)
    {
      hide Invariant, Onwards, ClearsStay, AllPublished, FailuresDone;
      var ok := plan.publish(i).Acknowledged?;
      ghost var before := c.s;
      c.Fire(Label.Work(workerID, WPublish(!plan.publish(i).Lost?, ok)));
      StillPublished(before, c.s, sent);
      FailuresStay(before, c.s, batch, plan, i);
      if ok {
        sent' := sent + [batch[i].id];
        OneMorePublished(c.s, sent, batch[i].id);
        OneMoreSent(c.s, batch, plan, i);
        return;
      }
      sent' := sent;
      Retry(c, batch, i, sent, plan);
    }

    /** After a failed publish. */
    method Retry(c: Cluster, batch: seq<Job>, i: nat, sent: seq<nat>, plan: Schedule)
      requires Working(c, workerID, PublishFailed(batch, i, sent)) && i < |batch| && repo.order == c.cfg.order
      requires AllPublished(c.s, sent) && FailuresDone(c.s, batch, plan, i) && !plan.publish(i).Acknowledged?
      modifies c, repo
      ensures Working(c, workerID, Publishing(batch, i + 1, sent)) && AllPublished(c.s, sent)
      ensures FailuresDone(c.s, batch, plan, i + 1)
    {
      hide Invariant, Onwards, ClearsStay, AllPublished, FailuresDone, HasVerdict;
      ghost var before := c.s;
      c.Yield(WorkerActor(workerID));
      StillPublished(before, c.s, sent);
      FailuresStay(before, c.s, batch, plan, i);
      before := c.s;
      MarkFailed(c, batch, i, sent, plan.failed(i));
      StillPublished(before, c.s, sent);
      FailuresStay(before, c.s, batch, plan, i);
      OneMoreFailed(c.s, batch, plan, i);
    }

    /** MarkOutboxFailed, which may fail itself, with or without effect. */
    method MarkFailed(c: Cluster, batch: seq<Job>, i: nat, sent: seq<nat>, fault: Outbox.Fault)
      requires Working(c, workerID, PublishFailed(batch, i, sent)) && i < |batch| && repo.order == c.cfg.order
      modifies c, repo
      ensures Working(c, workerID, Publishing(batch, i + 1, sent)) && Onwards(old(c.s), c.s)
      ensures if Outbox.Takes(fault)
              then Outbox.FailureRecorded(old(c.s.db.outbox), c.s.db.outbox, batch[i].id, c.cfg.maxRetry, workerID,
                  c.s.now, c.cfg.order)
              else c.s.db.outbox == old(c.s.db.outbox)
      ensures Outbox.Takes(fault) ==> HasVerdict(c.s, batch[i], false)
    {
      hide Invariant, Onwards, ClearsStay, Outbox.MarkFailed, Outbox.FailureRecorded, HasVerdict;
      FailureGetsVerdict(c.cfg, c.s, workerID);
      repo.rows := c.s.db.outbox;
      var _ := repo.MarkOutboxFailed(batch[i].id, c.cfg.maxRetry, workerID, c.s.now, fault);
      Outbox.MarkFailedRecords(c.s.db.outbox, batch[i].id, c.cfg.maxRetry, workerID, c.s.now, c.cfg.order);
      ghost var before := c.s;
      c.Fire(Label.Work(workerID, WMarkFailed(Outbox.Takes(fault))));
      assert c.s.db.outbox == repo.rows;
      if Outbox.Takes(fault) {
        SameVerdict(SettleFailed(c.cfg, before, workerID, batch[i].id), c.s, batch[i], false);
      }
    }

    /** MarkOutboxSentBatch: every row it is given has been published. */
    method MarkSent(c: Cluster, batch: seq<Job>, sent: seq<nat>, fault: Outbox.Fault)
      requires Working(c, workerID, Publishing(batch, |batch|, sent)) && AllPublished(c.s, sent)
      modifies c, repo
      ensures Working(c, workerID, Settled) && Onwards(old(c.s), c.s)
      ensures c.s.db.outbox.Keys == old(c.s.db.outbox).Keys
      ensures forall id :: id in c.s.db.outbox ==>
                c.s.db.outbox[id] ==
                if Outbox.Takes(fault) && id in sent && Outbox.OwnedBy(old(c.s.db.outbox)[id], workerID)
                then Outbox.SentRow(old(c.s.db.outbox)[id], c.s.now) else old(c.s.db.outbox)[id]
      ensures Outbox.Takes(fault) ==>
                forall i :: 0 <= i < |batch| && batch[i].id in sent ==> HasVerdict(c.s, batch[i], true)
    {
      hide Invariant, Onwards, ClearsStay, Outbox.MarkSent, HasVerdict;
      ghost var before := c.s;
      repo.rows := c.s.db.outbox;
      var _ := repo.MarkOutboxSentBatch(sent, workerID, c.s.now, fault);
      SentTable(c.s.db.outbox, repo.rows, sent, workerID, c.s.now, Outbox.Takes(fault));
      c.Fire(Label.Work(workerID, WMarkSent(sent == [] || Outbox.Takes(fault))));
      assert c.s.db.outbox == repo.rows;
      if Outbox.Takes(fault) {
        forall i | 0 <= i < |batch| && batch[i].id in sent ensures HasVerdict(c.s, batch[i], true) {
          SentGetVerdicts(c.cfg, before, workerID, i, Outbox.Elements(sent));
          SameVerdict(SettleSent(before, workerID, Outbox.Elements(sent)), c.s, batch[i], true);
        }
      }
    }

    /** DeleteSentOutbox: two statements without a transaction, between which anybody may run.  It deletes only rows
        that are sent and older than the retention at that moment, from the table `found` by the second statement. */
    method DeleteSent(c: Cluster, failed: bool, fault: Outbox.Fault)
      returns (ghost found: Outbox.Table, ghost picked: seq<nat>)
      requires Working(c, workerID, Settled)
      modifies c, repo
      ensures Working(c, workerID, Idle) && Onwards(old(c.s), c.s)
      ensures if failed then picked == []
              else Outbox.IsOldest(Outbox.ExpendableRows(old(c.s.db.outbox), old(c.s.now) - c.cfg.retain), picked,
                  CLEANUP_LIMIT)
      ensures c.s.db.outbox == if Outbox.Takes(fault) then found - Outbox.Elements(picked) else found
      ensures OnlyOldSent(found, Outbox.Elements(picked), c.s.now - c.cfg.retain)
    {
      hide Invariant, Onwards, ClearsStay, OnlyOldSent, Outbox.IsOldest, Outbox.Elements;
      var deadline := c.s.now - c.cfg.retain;
      repo.rows := c.s.db.outbox;
      var ids := [];
      if !failed {
        ids := repo.PluckSent(deadline, CLEANUP_LIMIT);
        SelectedAreExpendable(c.s, deadline, ids);
      }
      picked := ids;
      if |ids| == 0 {
        c.Fire(Label.Work(workerID, WSkipCleanup));
        found := c.s.db.outbox;
        NoneChosen(found, c.s.now - c.cfg.retain);
        return;
      }
      c.Fire(Label.Work(workerID, WPluck(Outbox.Elements(ids))));
      ghost var plucked := c.s;
      c.Yield(WorkerActor(workerID));
      OnwardsIsAnOrder(old(c.s), plucked, c.s);
      ghost var later := c.s;
      found := c.s.db.outbox;
      DeletePicked(c, ids, deadline, fault);
      OnwardsIsAnOrder(old(c.s), later, c.s);
    }

    /** The second statement. */
    method DeletePicked(c: Cluster, ids: seq<nat>, deadline: int, fault: Outbox.Fault)
      requires Working(c, workerID, Cleaning(Outbox.Elements(ids), deadline))
      modifies c, repo
      ensures Working(c, workerID, Idle) && Onwards(old(c.s), c.s) && c.s.now == old(c.s.now)
      ensures c.s.db.outbox == if Outbox.Takes(fault) then old(c.s.db.outbox) - Outbox.Elements(ids)
                else old(c.s.db.outbox)
      ensures OnlyOldSent(old(c.s.db.outbox), Outbox.Elements(ids), c.s.now - c.cfg.retain)
    {
      hide Invariant, Onwards, ClearsStay, OnlyOldSent, Outbox.Elements;
      ChosenAreOld(c.cfg, c.s, workerID);
      repo.rows := c.s.db.outbox;
      var _ := repo.DeleteRows(ids, fault);
      DeletedTable(c.s.db.outbox, repo.rows, ids, Outbox.Takes(fault));
      c.Fire(Label.Work(workerID, WDelete(Outbox.Takes(fault))));
      assert c.s.db.outbox == repo.rows;
    }

    /** The batch update of the published rows. */
    method SettleBatch(c: Cluster, batch: seq<Job>, sent: seq<nat>, plan: Schedule)
      requires Working(c, workerID, Publishing(batch, |batch|, sent)) && SentOf(batch, plan, |batch|, sent)
      requires AllPublished(c.s, sent) && FailuresDone(c.s, batch, plan, |batch|)
      modifies c, repo
      ensures Working(c, workerID, Settled) && AllPublished(c.s, sent) && AllSettled(c.s, batch, plan)
    {
      hide Invariant, Onwards, ClearsStay, AllPublished, FailuresDone, AllSettled, HasVerdict;
      ghost var before := c.s;
      c.Yield(WorkerActor(workerID));
      StillPublished(before, c.s, sent);
      FailuresStay(before, c.s, batch, plan, |batch|);
      before := c.s;
      MarkSent(c, batch, sent, plan.sent);
      StillPublished(before, c.s, sent);
      FailuresStay(before, c.s, batch, plan, |batch|);
      SentToo(c.s, batch, plan, sent);
    }

    /** The hourly cleanup, if it is due. */
    method CleanUp(c: Cluster, pluckFails: bool, fault: Outbox.Fault)
      requires Working(c, workerID, Settled)
      modifies c, this, repo
      ensures Working(c, workerID, Idle) && Onwards(old(c.s), c.s)
      ensures lastCleanup == if old(lastCleanup).None? || old(c.s.now) >= old(lastCleanup).value + CLEANUP_INTERVAL
                             then Some(c.s.now) else old(lastCleanup)
      ensures old(c.s.now) <= c.s.now
    {
      hide Invariant, Onwards, ClearsStay;
      if lastCleanup.None? || c.s.now - lastCleanup.value >= CLEANUP_INTERVAL {
        ghost var found, picked;
        found, picked := DeleteSent(c, pluckFails, fault);
        lastCleanup := Some(c.s.now);
      } else {
        c.Fire(Label.Work(workerID, WSkipCleanup));
      }
      ClockGoesOn(old(c.s), c.s);
    }

    /** One batch: claim, publish, settle, and now and then clean up.  Exactly the messages that the broker has
        acknowledged are given to the batch update.  Every claim whose update took effect has the verdict that fits, or
        was taken over; with a database that works, each row whose claim is still the last is sent exactly if its
        message was acknowledged, and otherwise has failed once more. */
    method ProcessPending(c: Cluster, plan: Schedule) returns (sent: seq<nat>, batch: seq<Job>)
      requires Working(c, workerID, Idle) && repo.order == c.cfg.order
      modifies c, this, repo
      ensures Working(c, workerID, Idle) && AllPublished(c.s, sent)
      ensures if plan.claim.NoFault?
              then Outbox.IsOldest(Outbox.Free(old(c.s.db.outbox), old(c.s.now), plan.skipped), IdsOf(batch),
                  OUTBOX_BATCH_SIZE)
              else batch == []
      ensures SentOf(batch, plan, |batch|, sent) && AllSettled(c.s, batch, plan)
      ensures DatabaseWorks(plan) ==> RowsShow(c.s, batch, sent)
      ensures lastCleanup == old(lastCleanup) || (lastCleanup == Some(c.s.now)
              && (old(lastCleanup).Some? ==> c.s.now >= old(lastCleanup).value + CLEANUP_INTERVAL))
    {
      hide Invariant, Onwards, ClearsStay, AllPublished, FailuresDone, AllSettled, HasVerdict, RowsShow;
      hide Outbox.IsOldest;
      var ok;
      ok, batch := ClaimPending(c, plan.skipped, plan.claim);
      sent := [];
      NonePublished(c.s);
      if !ok || |batch| == 0 {
        NothingToSettle(c.s, batch, plan);
        return;
      }
      NoFailureYet(c.s, batch, plan);
      for i := 0 to |batch|
        invariant Working(c, workerID, Publishing(batch, i, sent)) && AllPublished(c.s, sent)
        invariant SentOf(batch, plan, i, sent) && FailuresDone(c.s, batch, plan, i)
        invariant lastCleanup == old(lastCleanup)
      {
        ghost var before := c.s;
        c.Yield(WorkerActor(workerID));
        StillPublished(before, c.s, sent);
        FailuresStay(before, c.s, batch, plan, i);
        sent := PublishOne(c, batch, i, sent, plan);
      }
      SettleBatch(c, batch, sent, plan);
      ghost var settled := c.s;
      CleanUp(c, plan.pluckFails, plan.delete);
      StillPublished(settled, c.s, sent);
      VerdictsStay(settled, c.s, batch, plan);
      if DatabaseWorks(plan) {
        VerdictsShow(c.cfg, c.s, batch, plan, sent);
      }
    }
  }

  lemma NothingToSettle(s: State, batch: seq<Job>, plan: Schedule)
    requires |batch| == 0
    ensures AllSettled(s, batch, plan) && RowsShow(s, batch, [])
  {}

  lemma NonePublished(s: State)
    ensures AllPublished(s, [])
  {}

  lemma NothingCanBeClaimed(s: State)
    ensures CanClaim(s, [])
  {}

  lemma NoneChosen(t: Outbox.Table, deadline: int)
    ensures OnlyOldSent(t, Outbox.Elements([]), deadline) && t - Outbox.Elements([]) == t
  {}

  lemma SentTable(t: Outbox.Table, t': Outbox.Table, ids: seq<nat>, worker: string, now: Time, takes: bool)
    requires t'.Keys == t.Keys
    requires forall id :: id in t ==>
              t'[id] == if id in ids && takes && Outbox.OwnedBy(t[id], worker) then Outbox.SentRow(t[id], now)
              else t[id]
    ensures t' == if ids == [] || takes then Outbox.MarkSent(t, Outbox.Elements(ids), worker, now) else t
  {
    assert forall id :: id in Outbox.Elements(ids) <==> id in ids;
  }

  lemma DeletedTable(t: Outbox.Table, t': Outbox.Table, ids: seq<nat>, takes: bool)
    requires forall id :: id in t' <==> id in t && !(takes && id in ids)
    requires forall id :: id in t' ==> t'[id] == t[id]
    ensures t' == if takes then t - Outbox.Elements(ids) else t
  {
    assert forall id :: id in Outbox.Elements(ids) <==> id in ids;
  }
}
