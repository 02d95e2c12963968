/** What a worker has in its hands: claims that nobody else settles. */
module Holding {
  import opened Common
  import opened SystemModel
  import opened Frames
  import opened Leases
  import Outbox

  predicate Busy(at: Worker) {
    at.Publishing? || at.PublishFailed?
  }

  /** The job has still to be published, or published and still to be settled. */
  predicate StillHeld(batch: seq<Job>, pos: nat, sent: seq<nat>, i: nat)
    requires i < |batch|
  {
    i >= pos || batch[i].id in sent
  }

  /** The claim that handed out the job has no verdict. */
  ghost predicate IsOpen(s: State, job: Job) {
    && job.id in s.aux.claims && job.claim < |s.aux.claims[job.id]| && s.aux.claims[job.id][job.claim].outcome.Open?
  }

  ghost predicate SentIsBehind(batch: seq<Job>, pos: nat, sent: seq<nat>)
    requires pos <= |batch|
  {
    forall id :: id in sent ==> exists i :: 0 <= i < pos && batch[i].id == id
  }

  /** The batch's rows are distinct, the published ones are among those that the worker has been through, and no claim
      that is still in its hands has a verdict. */
  ghost predicate HandsOk(s: State, batch: seq<Job>, pos: nat, sent: seq<nat>) {
    && pos <= |batch|
    && (forall i, j :: 0 <= i < j < |batch| ==> batch[i].id != batch[j].id)
    && SentIsBehind(batch, pos, sent)
    && (forall i :: 0 <= i < |batch| && StillHeld(batch, pos, sent, i) ==> IsOpen(s, batch[i]))
  }

  ghost predicate WorkerHolds(s: State, at: Worker) {
    Busy(at) ==> HandsOk(s, at.batch, at.pos, at.sent)
  }

  /** The last claim of a row that was deleted had found it sent. */
  ghost predicate GoneWasSent(s: State) {
    forall id :: id in s.aux.claims && id !in s.db.outbox ==>
        var h := s.aux.claims[id]; h != [] && h[|h| - 1].outcome.WasSent?
  }

  ghost predicate HoldingOk(s: State) {
    GoneWasSent(s) && forall w :: w in s.workers ==> WorkerHolds(s, s.workers[w])
  }

  // ---- the fence, for an open claim ----

  /** While an open claim is the row's last, its worker owns the row. */
  lemma LastOpenOwns(cfg: Config, s: State, w: string, job: Job)
    requires LeasesOk(cfg, s) && GoneWasSent(s) && Fenced(s, w, job) && IsOpen(s, job)
    requires job.claim == |s.aux.claims[job.id]| - 1
    ensures job.id in s.db.outbox && Outbox.OwnedBy(s.db.outbox[job.id], w)
  {
    hide Exclusive, Past, Failures;
    if job.id in s.db.outbox {
      assert RowMatches(cfg, s.db.outbox[job.id], s.aux.claims[job.id]);
    }
  }

  lemma OwnerClaimedLast(cfg: Config, s: State, w: string, id: nat)
    requires LeasesOk(cfg, s) && id in s.db.outbox && Outbox.OwnedBy(s.db.outbox[id], w)
    ensures id in s.aux.claims
    ensures var h := s.aux.claims[id]; h != [] && h[|h| - 1].worker == w && h[|h| - 1].outcome.Open?
  {
    hide Exclusive, Past, Failures;
    assert RowMatches(cfg, s.db.outbox[id], s.aux.claims[id]);
  }

  // ---- the steps ----

  /** Rows, histories and workers are all that holding speaks of. */
  lemma Frame(s: State, s': State)
    requires HoldingOk(s) && s'.db.outbox == s.db.outbox && s'.aux.claims == s.aux.claims && s'.workers == s.workers
    ensures HoldingOk(s')
  {
    forall w | w in s'.workers ensures WorkerHolds(s', s'.workers[w]) {
      SameHands(s, s', s.workers[w]);
    }
  }

  lemma SameHands(s: State, s': State, at: Worker)
    requires WorkerHolds(s, at) && s'.aux.claims == s.aux.claims
    ensures WorkerHolds(s', at)
  {}

  lemma OpenHands(s: State, s': State, at: Worker)
    requires WorkerHolds(s, at)
    requires Busy(at) ==> forall i :: 0 <= i < |at.batch| && IsOpen(s, at.batch[i]) ==> IsOpen(s', at.batch[i])
    ensures WorkerHolds(s', at)
  {}

  lemma AfterInsert(cfg: Config, s: State, id: nat, m: Message)
    requires LeasesOk(cfg, s) && HoldingOk(s)
    ensures HoldingOk(Insert(s, id, m))
  {
    var s' := Insert(s, id, m);
    assert s.db.nextId !in s.aux.claims;
    forall w | w in s'.workers ensures WorkerHolds(s', s'.workers[w]) {
      OpenHands(s, s', s.workers[w]);
    }
  }

  lemma AfterBecome(s: State, w: string, at: Worker)
    requires HoldingOk(s) && WorkerHolds(s, at)
    ensures HoldingOk(Become(s, w, at))
  {
    var s' := Become(s, w, at);
    forall v | v in s'.workers ensures WorkerHolds(s', s'.workers[v]) {
      SameHands(s, s', if v == w then at else s.workers[v]);
    }
  }

  lemma AtHolds(s: State, w: string)
    requires HoldingOk(s)
    ensures WorkerHolds(s, WorkerAt(s, w))
  {}

  lemma AfterClaim(cfg: Config, s: State, w: string, ids: seq<nat>)
    requires LeasesOk(cfg, s) && HoldingOk(s) && CanClaim(s, ids)
    ensures HoldingOk(ClaimAll(cfg, s, w, ids))
  {
    hide HandsOk, WorkerHolds;
    var s' := ClaimAll(cfg, s, w, ids);
    forall id | id in Outbox.Elements(ids) ensures id in s.db.outbox {}
    forall v | v in s'.workers ensures WorkerHolds(s', s'.workers[v]) {
      OpenHands(s, s', s.workers[v]);
    }
  }

  lemma ClaimIsHeld(cfg: Config, s: State, w: string, ids: seq<nat>)
    requires CanClaim(s, ids)
    ensures HandsOk(ClaimAll(cfg, s, w, ids), JobsOf(s, ids), 0, [])
  {
    var s' := ClaimAll(cfg, s, w, ids);
    forall i | 0 <= i < |ids| ensures IsOpen(s', JobsOf(s, ids)[i]) {
      assert ids[i] in Outbox.Elements(ids);
    }
  }

  /** The open claims of `w` on the rows `ids` get the verdict `o`. */
  ghost predicate Verdicts(s: State, s': State, w: string, ids: set<nat>, o: Outcome) {
    && s'.aux.claims.Keys == s.aux.claims.Keys
    && forall id :: id in s.aux.claims ==>
         s'.aux.claims[id] == if id in ids && id in s.db.outbox && Outbox.OwnedBy(s.db.outbox[id], w)
                              then Settle(s.aux.claims[id], o) else s.aux.claims[id]
  }

  /** A verdict on a row that `w` owns leaves every other open claim open. */
  lemma VerdictLeavesOthers(cfg: Config, s: State, s': State, w: string, ids: set<nat>, o: Outcome, v: string, job: Job)
    requires LeasesOk(cfg, s) && Fenced(s, v, job) && IsOpen(s, job) && (v != w || job.id !in ids)
    requires Verdicts(s, s', w, ids, o)
    ensures IsOpen(s', job)
  {
    if job.id in ids && job.id in s.db.outbox && Outbox.OwnedBy(s.db.outbox[job.id], w) {
      OwnerClaimedLast(cfg, s, w, job.id);
    }
  }

  /** A verdict on rows that `w` owns leaves the hands of the others as they are. */
  lemma VerdictLeavesHands(cfg: Config, s: State, s': State, w: string, ids: set<nat>, o: Outcome, v: string)
    requires LeasesOk(cfg, s) && v in s.workers && v != w && WorkerHolds(s, s.workers[v])
    requires Verdicts(s, s', w, ids, o)
    ensures WorkerHolds(s', s.workers[v])
  {
    hide IsOpen, Settle, RowsOk, ClaimsOk;
    var at := s.workers[v];
    assert WorkerOk(cfg, s, v, at);
    if Busy(at) {
      forall i | 0 <= i < |at.batch| && IsOpen(s, at.batch[i]) ensures IsOpen(s', at.batch[i]) {
        VerdictLeavesOthers(cfg, s, s', w, ids, o, v, at.batch[i]);
      }
      OpenHands(s, s', at);
    }
  }

  lemma GoneAfterVerdict(s: State, s': State, w: string, ids: set<nat>, o: Outcome)
    requires GoneWasSent(s) && s'.db.outbox.Keys == s.db.outbox.Keys && Verdicts(s, s', w, ids, o)
    ensures GoneWasSent(s')
  {}

  lemma FailedIsVerdict(cfg: Config, s: State, w: string, id: nat)
    requires LeasesOk(cfg, s)
    ensures var s' := SettleFailed(cfg, s, w, id);
            s'.workers == s.workers && s'.db.outbox.Keys == s.db.outbox.Keys
            && Verdicts(s, s', w, {id}, WasFailed(s.now))
  {}

  lemma SentIsVerdict(s: State, w: string, ids: set<nat>)
    ensures var s' := SettleSent(s, w, ids);
            s'.workers == s.workers && s'.db.outbox.Keys == s.db.outbox.Keys
            && Verdicts(s, s', w, ids, WasSent(s.now))
  {}

  /** A failure takes the job at `pos` out of the worker's hands. */
  lemma AfterFailed(cfg: Config, s: State, w: string)
    requires LeasesOk(cfg, s) && HoldingOk(s) && WorkerAt(s, w).PublishFailed?
    requires WorkerAt(s, w).pos < |WorkerAt(s, w).batch|
    ensures var at := WorkerAt(s, w);
            var s1 := SettleFailed(cfg, s, w, at.batch[at.pos].id);
            HoldingOk(Become(s1, w, Publishing(at.batch, at.pos + 1, at.sent)))
  {
    hide LeasesOk, GoneWasSent, Settle;
    var at := WorkerAt(s, w);
    var id := at.batch[at.pos].id;
    var s1 := SettleFailed(cfg, s, w, id);
    FailedIsVerdict(cfg, s, w, id);
    GoneAfterVerdict(s, s1, w, {id}, WasFailed(s.now));
    var s' := Become(s1, w, Publishing(at.batch, at.pos + 1, at.sent));
    PosIsDone(cfg, s, s1, w);
    forall v | v in s'.workers ensures WorkerHolds(s', s'.workers[v]) {
      if v != w {
        VerdictLeavesHands(cfg, s, s1, w, {id}, WasFailed(s.now), v);
        SameHands(s1, s', s.workers[v]);
      } else {
        SameHands(s1, s', s'.workers[w]);
      }
    }
    assert GoneWasSent(s') by { SameGone(s1, s'); }
  }

  lemma SameGone(s: State, s': State)
    requires GoneWasSent(s) && s'.db == s.db && s'.aux == s.aux
    ensures GoneWasSent(s')
  {}

  lemma PosIsDone(cfg: Config, s: State, s': State, w: string)
    requires LeasesOk(cfg, s) && HoldingOk(s) && WorkerAt(s, w).PublishFailed?
    requires WorkerAt(s, w).pos < |WorkerAt(s, w).batch|
    requires Verdicts(s, s', w, {WorkerAt(s, w).batch[WorkerAt(s, w).pos].id}, WasFailed(s.now))
    ensures var at := WorkerAt(s, w); HandsOk(s', at.batch, at.pos + 1, at.sent)
  {
    hide Settle, IsOpen, RowsOk, ClaimsOk, GoneWasSent;
    var at := WorkerAt(s, w);
    assert WorkerOk(cfg, s, w, at);
    assert HandsOk(s, at.batch, at.pos, at.sent);
    forall i | 0 <= i < |at.batch| && StillHeld(at.batch, at.pos + 1, at.sent, i) ensures IsOpen(s', at.batch[i]) {
      assert StillHeld(at.batch, at.pos, at.sent, i);
      VerdictLeavesOthers(cfg, s, s', w, {at.batch[at.pos].id}, WasFailed(s.now), w, at.batch[i]);
    }
  }

  /** A lost update takes it out of them, too. */
  lemma PosIsDropped(s: State, at: Worker)
    requires WorkerHolds(s, at) && Busy(at) && at.pos < |at.batch|
    ensures HandsOk(s, at.batch, at.pos + 1, at.sent)
  {
    hide IsOpen;
  }

  lemma PosIsPublished(s: State, at: Worker)
    requires WorkerHolds(s, at) && Busy(at) && at.pos < |at.batch|
    ensures HandsOk(s, at.batch, at.pos + 1, at.sent + [at.batch[at.pos].id])
  {
    hide IsOpen;
    assert forall id :: id in at.sent + [at.batch[at.pos].id] ==> id in at.sent || id == at.batch[at.pos].id;
  }

  lemma AfterSent(cfg: Config, s: State, w: string, ids: set<nat>)
    requires LeasesOk(cfg, s) && HoldingOk(s)
    ensures HoldingOk(Become(SettleSent(s, w, ids), w, Settled))
  {
    hide LeasesOk, GoneWasSent, Settle;
    var s1 := SettleSent(s, w, ids);
    var s' := Become(s1, w, Settled);
    SentIsVerdict(s, w, ids);
    GoneAfterVerdict(s, s1, w, ids, WasSent(s.now));
    forall v | v in s'.workers ensures WorkerHolds(s', s'.workers[v]) {
      if v != w {
        VerdictLeavesHands(cfg, s, s1, w, ids, WasSent(s.now), v);
        SameHands(s1, s', s.workers[v]);
      }
    }
    SameGone(s1, s');
  }

  lemma AfterDelete(cfg: Config, s: State, w: string)
    requires LeasesOk(cfg, s) && HoldingOk(s) && WorkerAt(s, w).Cleaning?
    ensures HoldingOk(s.(db := s.db.(outbox := s.db.outbox - WorkerAt(s, w).ids)))
  {
    hide Exclusive, Past, Failures, HandsOk;
    var s' := s.(db := s.db.(outbox := s.db.outbox - WorkerAt(s, w).ids));
    AtOk(cfg, s, w);
    forall id | id in s'.aux.claims && id !in s'.db.outbox
      ensures var h := s'.aux.claims[id]; h != [] && h[|h| - 1].outcome.WasSent?
    {
      if id in s.db.outbox {
        assert RowMatches(cfg, s.db.outbox[id], s.aux.claims[id]);
      }
    }
    forall v | v in s'.workers ensures WorkerHolds(s', s'.workers[v]) {
      SameHands(s, s', s.workers[v]);
    }
  }

  lemma PublishKeeps(cfg: Config, s: State, w: string, x: WorkerStep, s': State)
    requires HoldingOk(s) && WorkerNext(cfg, s, w, x) == Some(s') && x.WPublish?
    ensures HoldingOk(s')
  {
    hide HoldingOk, WorkerHolds, HandsOk;
    var at := WorkerAt(s, w);
    var s1 := s.(queue := s'.queue, aux := s'.aux);
    Frame(s, s1);
    AtHolds(s1, w);
    HandsOfBusy(s1, at);
    PosIsPublished(s1, at);
    BusyHands(s1, s'.workers[w]);
    AfterBecome(s1, w, s'.workers[w]);
  }

  lemma HandsOfBusy(s: State, at: Worker)
    requires WorkerHolds(s, at) && Busy(at)
    ensures HandsOk(s, at.batch, at.pos, at.sent)
  {}

  lemma BusyHands(s: State, at: Worker)
    requires Busy(at) ==> HandsOk(s, at.batch, at.pos, at.sent)
    ensures WorkerHolds(s, at)
  {}

  lemma WorkerKeeps(cfg: Config, s: State, w: string, x: WorkerStep, s': State)
    requires LeasesOk(cfg, s) && HoldingOk(s) && WorkerNext(cfg, s, w, x) == Some(s')
    ensures HoldingOk(s')
  {
    hide LeasesOk, HoldingOk, WorkerHolds, HandsOk;
    var at := WorkerAt(s, w);
    AtHolds(s, w);
    match x {
      case WClaim(ids, applied, ok) =>
        if applied {
          AfterClaim(cfg, s, w, ids);
          ClaimIsHeld(cfg, s, w, ids);
          BusyHands(ClaimAll(cfg, s, w, ids), s'.workers[w]);
          AfterBecome(ClaimAll(cfg, s, w, ids), w, s'.workers[w]);
        }
      case WPublish(_, _) => PublishKeeps(cfg, s, w, x, s');
      case WMarkFailed(applied) =>
        if applied {
          AfterFailed(cfg, s, w);
        } else {
          PosIsDropped(s, at);
          BusyHands(s, s'.workers[w]);
          AfterBecome(s, w, s'.workers[w]);
        }
      case WMarkSent(applied) =>
        if applied {
          AfterSent(cfg, s, w, Outbox.Elements(at.sent));
        } else {
          BusyHands(s, s'.workers[w]);
          AfterBecome(s, w, s'.workers[w]);
        }
      case WDelete(applied) =>
        if applied {
          AfterDelete(cfg, s, w);
        }
        var s1 := if applied then s.(db := s.db.(outbox := s.db.outbox - at.ids)) else s;
        BusyHands(s1, s'.workers[w]);
        AfterBecome(s1, w, s'.workers[w]);
      case _ =>
        BusyHands(s, s'.workers[w]);
        AfterBecome(s, w, s'.workers[w]);
    }
  }

  lemma StepKeepsHolding(cfg: Config, s: State, l: Label, s': State)
    requires LeasesOk(cfg, s) && HoldingOk(s) && Next(cfg, s, l) == Some(s')
    ensures HoldingOk(s')
  {
    hide LeasesOk, HoldingOk, CreateNext, RedirectNext, RebuildNext, ConsumeNext, WorkerNext, EnvNext;
    match l {
      case Work(w, x) => WorkerKeeps(cfg, s, w, x, s');
      case Create(o, c) =>
        if c.CInsert? {
          InsertFrame(cfg, s, o, c, s');
          var m := Message(c.code, s.ops.creates[o].url, cfg.md5(s.ops.creates[o].url));
          AfterInsert(cfg, s, c.id, m);
          Frame(if s' == GoCreate(s, o, s'.ops.creates[o]) then s else Insert(s, c.id, m), s');
        } else {
          CreateFrame(cfg, s, o, c, s');
          Frame(s, s');
        }
      case Env(e) =>
        EnvFrame(cfg, s, e, s');
        Frame(s, s');
      case Redirect(o, r) =>
        RedirectFrame(cfg, s, o, r, s');
        Frame(s, s');
      case Rebuild(o, b) =>
        RebuildFrame(cfg, s, o, b, s');
        Frame(s, s');
      case Consume(o, k) =>
        ConsumeFrame(cfg, s, o, k, s');
        Frame(s, s');
    }
  }
}
