/** Claims get their verdicts: what the settling updates do, what follows when no worker crashes and no call of one
    fails, and that a worker can always finish its batch. */
module Settling {
  import opened Common
  import opened SystemModel
  import opened Leases
  import opened Holding
  import opened SystemTheorems
  import Frames
  import Outbox

  // ---- the updates ----

  /** The batch update that takes effect: the published rows that the worker owns are sent, all others unchanged. */
  lemma OwnedBatchIsSent(cfg: Config, s: State, w: string, s': State)
    requires WorkerNext(cfg, s, w, WMarkSent(true)) == Some(s')
    ensures WorkerAt(s, w).Publishing? && WorkerAt(s', w).Settled? && s'.db.outbox.Keys == s.db.outbox.Keys
    ensures forall id :: id in s.db.outbox ==>
              var r, r' := s.db.outbox[id], s'.db.outbox[id];
              if id in WorkerAt(s, w).sent && Outbox.OwnedBy(r, w)
              then r' == Outbox.Row(r.msg, Outbox.Sent, r.retryCount, "", None, r.createdAt, s.now) else r' == r
  {}

  /** A recorded failure: the row of the job, if the worker owns it, has one more failure and is given up exactly when
      they reach the budget; all others unchanged. */
  lemma OwnedFailureIsRecorded(cfg: Config, s: State, w: string, s': State)
    requires WorkerNext(cfg, s, w, WMarkFailed(true)) == Some(s')
    ensures WorkerAt(s, w).PublishFailed? && WorkerAt(s, w).pos < |WorkerAt(s, w).batch|
    ensures var at := WorkerAt(s, w);
            && WorkerAt(s', w) == Publishing(at.batch, at.pos + 1, at.sent)
            && Outbox.FailureRecorded(s.db.outbox, s'.db.outbox, at.batch[at.pos].id, cfg.maxRetry, w, s.now, cfg.order)
  {}

  /** The claim of the job has the verdict that fits, or was superseded and will never have one. */
  ghost predicate HasVerdict(s: State, job: Job, published: bool) {
    var h := ClaimsOf(s, job.id);
    && job.claim < |h|
    && (h[job.claim].outcome.Open? ==> job.claim < |h| - 1)
    && (!h[job.claim].outcome.Open? ==> (h[job.claim].outcome.WasSent? <==> published))
  }

  lemma VerdictStays(s: State, s': State, job: Job, published: bool)
    requires HistoriesGrow(s, s') && HasVerdict(s, job, published)
    ensures HasVerdict(s', job, published)
  {
    assert HistoryGrows(s.aux.claims[job.id], s'.aux.claims[job.id]);
  }

  /** While the claim is the row's last, the row shows the verdict. */
  lemma VerdictShows(cfg: Config, s: State, job: Job, published: bool)
    requires Invariant(cfg, s) && HasVerdict(s, job, published)
    requires job.id in s.db.outbox && job.claim == |ClaimsOf(s, job.id)| - 1
    ensures published <==> s.db.outbox[job.id].status.Sent?
    ensures !published <==> s.db.outbox[job.id].status.Pending? || s.db.outbox[job.id].status.Failed?
  {
    LeasesOfInvariant(cfg, s);
    hide Invariant, Exclusive, Past, Failures;
    assert RowMatches(cfg, s.db.outbox[job.id], s.aux.claims[job.id]);
  }

  lemma HeldJob(cfg: Config, s: State, w: string, i: nat)
    requires Invariant(cfg, s) && Busy(WorkerAt(s, w)) && i < |WorkerAt(s, w).batch|
    requires StillHeld(WorkerAt(s, w).batch, WorkerAt(s, w).pos, WorkerAt(s, w).sent, i)
    ensures var job := WorkerAt(s, w).batch[i];
            && Fenced(s, w, job) && IsOpen(s, job)
            && (job.claim == |s.aux.claims[job.id]| - 1 ==>
                job.id in s.db.outbox && Outbox.OwnedBy(s.db.outbox[job.id], w))
  {
    hide RowsOk, ClaimsOk, GoneWasSent;
    assert WorkerOk(cfg, s, w, s.workers[w]) && WorkerHolds(s, s.workers[w]);
    var job := WorkerAt(s, w).batch[i];
    if job.claim == |s.aux.claims[job.id]| - 1 {
      LastOpenOwns(cfg, s, w, job);
    }
  }

  lemma SentGetVerdicts(cfg: Config, s: State, w: string, i: nat, ids: set<nat>)
    requires Invariant(cfg, s) && WorkerAt(s, w).Publishing? && i < |WorkerAt(s, w).batch|
    requires var id := WorkerAt(s, w).batch[i].id; id in WorkerAt(s, w).sent && id in ids
    ensures HasVerdict(SettleSent(s, w, ids), WorkerAt(s, w).batch[i], true)
  {
    HeldJob(cfg, s, w, i);
    hide Invariant;
  }

  lemma FailureGetsVerdict(cfg: Config, s: State, w: string)
    requires Invariant(cfg, s) && WorkerAt(s, w).PublishFailed? && WorkerAt(s, w).pos < |WorkerAt(s, w).batch|
    ensures var job := WorkerAt(s, w).batch[WorkerAt(s, w).pos]; HasVerdict(SettleFailed(cfg, s, w, job.id), job, false)
  {
    HeldJob(cfg, s, w, WorkerAt(s, w).pos);
    hide Invariant;
  }

  // ---- smooth runs ----

  /** No worker crashes with a batch in its hands, its database calls succeed, and it claims no row whose lease has run
      out.  A publish may fail. */
  predicate Smooth(s: State, l: Label) {
    l.Work? ==>
        match l.x
        case WClaim(ids, applied, ok) =>
          (applied ==> ok)
          && forall i :: 0 <= i < |ids| ==> ids[i] in s.db.outbox && s.db.outbox[ids[i]].status.Pending?
        case WMarkFailed(applied) => applied
        case WMarkSent(applied) => applied
        case WCrash => !Busy(WorkerAt(s, l.w))
        case _ => true
  }

  ghost predicate SmoothRun(cfg: Config, s: State, run: seq<Label>) {
    run == [] || (SmoothRun(cfg, s, run[..|run| - 1])
                  && forall t :: Run(cfg, s, run[..|run| - 1]) == Some(t) ==> Smooth(t, run[|run| - 1]))
  }

  /** The row's worker still has it in its hands. */
  ghost predicate Tended(s: State, id: nat)
    requires id in s.db.outbox
  {
    var at := WorkerAt(s, s.db.outbox[id].workerId);
    Busy(at) && exists i :: 0 <= i < |at.batch| && StillHeld(at.batch, at.pos, at.sent, i) && at.batch[i].id == id
  }

  /** Every earlier claim than the last has its verdict. */
  ghost predicate NoneAbandoned(s: State) {
    forall id, i :: id in s.aux.claims && 0 <= i < |s.aux.claims[id]| - 1 ==> !s.aux.claims[id][i].outcome.Open?
  }

  ghost predicate AllTended(s: State) {
    forall id :: id in s.db.outbox && s.db.outbox[id].status.Processing? ==> Tended(s, id)
  }

  lemma ClaimAbandonsNone(cfg: Config, s: State, w: string, ids: seq<nat>, ok: bool, s': State)
    requires RowsOk(cfg, s) && NoneAbandoned(s) && Next(cfg, s, Work(w, WClaim(ids, true, ok))) == Some(s')
    requires Smooth(s, Work(w, WClaim(ids, true, ok)))
    ensures NoneAbandoned(s')
  {
    hide Failures;
    forall id | id in Outbox.Elements(ids) ensures id in s.db.outbox && s.db.outbox[id].status.Pending? {}
    forall id, i | id in s'.aux.claims && 0 <= i < |s'.aux.claims[id]| - 1
      ensures !s'.aux.claims[id][i].outcome.Open?
    {
      if id in Outbox.Elements(ids) {
        assert RowMatches(cfg, s.db.outbox[id], s.aux.claims[id]);
      }
    }
  }

  lemma ClaimIsTended(cfg: Config, s: State, w: string, ids: seq<nat>, ok: bool, s': State)
    requires AllTended(s) && Next(cfg, s, Work(w, WClaim(ids, true, ok))) == Some(s')
    requires Smooth(s, Work(w, WClaim(ids, true, ok)))
    ensures AllTended(s')
  {
    forall id | id in s'.db.outbox && s'.db.outbox[id].status.Processing? ensures Tended(s', id) {
      if id in Outbox.Elements(ids) {
        var i :| 0 <= i < |ids| && ids[i] == id;
        assert JobsOf(s, ids)[i].id == id;
      } else {
        assert Tended(s, id);
      }
    }
  }

  lemma WorkAbandonsNone(cfg: Config, s: State, w: string, x: WorkerStep, s': State)
    requires NoneAbandoned(s) && WorkerNext(cfg, s, w, x) == Some(s') && !(x.WClaim? && x.applied)
    ensures NoneAbandoned(s')
  {}

  /** What is processing now was so before, and only the hands of `w` have changed. */
  ghost predicate OnlyHandsOf(s: State, s': State, w: string) {
    && (forall v :: v != w ==> WorkerAt(s', v) == WorkerAt(s, v))
    && forall id :: id in s'.db.outbox && s'.db.outbox[id].status.Processing? ==>
        id in s.db.outbox && s'.db.outbox[id] == s.db.outbox[id] && (s.db.outbox[id].workerId == w ==> Tended(s', id))
  }

  lemma StillTended(s: State, s': State, w: string)
    requires AllTended(s) && OnlyHandsOf(s, s', w)
    ensures AllTended(s')
  {
    forall id | id in s'.db.outbox && s'.db.outbox[id].status.Processing? ensures Tended(s', id) {
      assert Tended(s, id);
    }
  }

  lemma PublishIsTended(cfg: Config, s: State, w: string, x: WorkerStep, s': State)
    requires AllTended(s) && WorkerNext(cfg, s, w, x) == Some(s') && x.WPublish?
    ensures AllTended(s')
  {
    forall id | id in s'.db.outbox && s'.db.outbox[id].status.Processing? && s'.db.outbox[id].workerId == w
      ensures Tended(s', id)
    {
      assert Tended(s, id);
      var at, at' := WorkerAt(s, w), WorkerAt(s', w);
      var i :| 0 <= i < |at.batch| && StillHeld(at.batch, at.pos, at.sent, i) && at.batch[i].id == id;
      assert StillHeld(at'.batch, at'.pos, at'.sent, i);
    }
    StillTended(s, s', w);
  }

  lemma FailureIsTended(cfg: Config, s: State, w: string, s': State)
    requires AllTended(s) && WorkerNext(cfg, s, w, WMarkFailed(true)) == Some(s')
    ensures AllTended(s')
  {
    OwnedFailureIsRecorded(cfg, s, w, s');
    forall id | id in s'.db.outbox && s'.db.outbox[id].status.Processing? && s'.db.outbox[id].workerId == w
      ensures id in s.db.outbox && s'.db.outbox[id] == s.db.outbox[id] && Tended(s', id)
    {
      assert Tended(s, id);
      var at, at' := WorkerAt(s, w), WorkerAt(s', w);
      var i :| 0 <= i < |at.batch| && StillHeld(at.batch, at.pos, at.sent, i) && at.batch[i].id == id;
      assert StillHeld(at'.batch, at'.pos, at'.sent, i);
    }
    StillTended(s, s', w);
  }

  /** After the batch update the worker owns no row. */
  lemma SentIsTended(cfg: Config, s: State, w: string, s': State)
    requires AllTended(s) && WorkerNext(cfg, s, w, WMarkSent(true)) == Some(s')
    ensures AllTended(s')
  {
    OwnedBatchIsSent(cfg, s, w, s');
    forall id | id in s'.db.outbox && s'.db.outbox[id].status.Processing?
      ensures id in s.db.outbox && s'.db.outbox[id] == s.db.outbox[id] && s.db.outbox[id].workerId != w
    {
      assert Tended(s, id);
    }
    StillTended(s, s', w);
  }

  lemma RestIsTended(cfg: Config, s: State, w: string, x: WorkerStep, s': State)
    requires AllTended(s) && WorkerNext(cfg, s, w, x) == Some(s') && Smooth(s, Work(w, x))
    requires x.WPluck? || x.WDelete? || x.WSkipCleanup? || x.WCrash? || (x.WClaim? && !x.applied)
    ensures AllTended(s')
  {
    forall id | id in s'.db.outbox && s'.db.outbox[id].status.Processing?
      ensures s.db.outbox[id].workerId != w || s' == s
    {
      assert Tended(s, id);
    }
    StillTended(s, s', w);
  }

  lemma WorkIsTended(cfg: Config, s: State, w: string, x: WorkerStep, s': State)
    requires AllTended(s) && WorkerNext(cfg, s, w, x) == Some(s') && Smooth(s, Work(w, x))
    ensures AllTended(s')
  {
    hide WorkerNext, AllTended;
    match x {
      case WClaim(ids, applied, ok) =>
        if applied {
          ClaimIsTended(cfg, s, w, ids, ok, s');
        } else {
          RestIsTended(cfg, s, w, x, s');
        }
      case WPublish(_, _) => PublishIsTended(cfg, s, w, x, s');
      case WMarkFailed(_) => FailureIsTended(cfg, s, w, s');
      case WMarkSent(_) => SentIsTended(cfg, s, w, s');
      case _ => RestIsTended(cfg, s, w, x, s');
    }
  }

  lemma NewRowIsPending(s: State, id: nat, m: Message)
    requires NoneAbandoned(s) && AllTended(s)
    ensures NoneAbandoned(Insert(s, id, m)) && AllTended(Insert(s, id, m))
  {
    var s' := Insert(s, id, m);
    forall id | id in s'.db.outbox && s'.db.outbox[id].status.Processing? ensures Tended(s', id) {
      assert Tended(s, id);
    }
  }

  lemma Frame(s: State, s': State)
    requires NoneAbandoned(s) && AllTended(s)
    requires s'.db.outbox == s.db.outbox && s'.aux.claims == s.aux.claims && s'.workers == s.workers
    ensures NoneAbandoned(s') && AllTended(s')
  {
    forall id | id in s'.db.outbox && s'.db.outbox[id].status.Processing? ensures Tended(s', id) {
      assert Tended(s, id);
    }
  }

  lemma SmoothStep(cfg: Config, s: State, l: Label, s': State)
    requires LeasesOk(cfg, s) && NoneAbandoned(s) && AllTended(s) && Next(cfg, s, l) == Some(s') && Smooth(s, l)
    ensures NoneAbandoned(s') && AllTended(s')
  {
    hide NoneAbandoned, AllTended, CreateNext, RedirectNext, RebuildNext, ConsumeNext, WorkerNext, EnvNext, LeasesOk;
    match l {
      case Work(w, x) =>
        WorkIsTended(cfg, s, w, x, s');
        if x.WClaim? && x.applied {
          RowsOfLeases(cfg, s);
          ClaimAbandonsNone(cfg, s, w, x.ids, x.ok, s');
        } else {
          WorkAbandonsNone(cfg, s, w, x, s');
        }
      case Create(o, c) =>
        if c.CInsert? {
          Frames.InsertFrame(cfg, s, o, c, s');
          var m := Message(c.code, s.ops.creates[o].url, cfg.md5(s.ops.creates[o].url));
          NewRowIsPending(s, c.id, m);
          Frame(if s' == GoCreate(s, o, s'.ops.creates[o]) then s else Insert(s, c.id, m), s');
        } else {
          Frames.CreateFrame(cfg, s, o, c, s');
          Frame(s, s');
        }
      case Env(e) =>
        Frames.EnvFrame(cfg, s, e, s');
        Frame(s, s');
      case Redirect(o, r) =>
        Frames.RedirectFrame(cfg, s, o, r, s');
        Frame(s, s');
      case Rebuild(o, b) =>
        Frames.RebuildFrame(cfg, s, o, b, s');
        Frame(s, s');
      case Consume(o, k) =>
        Frames.ConsumeFrame(cfg, s, o, k, s');
        Frame(s, s');
    }
  }

  lemma RowsOfLeases(cfg: Config, s: State)
    requires LeasesOk(cfg, s)
    ensures RowsOk(cfg, s)
  {}

  lemma {:induction false} SmoothRunKeeps(cfg: Config, s: State, run: seq<Label>, t: State)
    requires Invariant(cfg, s) && NoneAbandoned(s) && AllTended(s)
    requires Run(cfg, s, run) == Some(t) && SmoothRun(cfg, s, run)
    ensures Invariant(cfg, t) && NoneAbandoned(t) && AllTended(t)
  {
    hide Next, Invariant, NoneAbandoned, AllTended, LeasesOk, Smooth;
    if run != [] {
      var prefix, last := run[..|run| - 1], run[|run| - 1];
      var before := Run(cfg, s, prefix).value;
      SmoothRunKeeps(cfg, s, prefix, before);
      StepKeeps(cfg, before, last, t);
      LeasesOfInvariant(cfg, before);
      SmoothStep(cfg, before, last, t);
    }
  }

  /** After a smooth run from the start: every claim but one still in its worker's hands has ended with the row sent or
      with one more failure, so a row that is not in a worker's hands is settled after at most `Attempts` claims. */
  lemma EveryClaimCounts(cfg: Config, s0: State, run: seq<Label>, t: State, id: nat)
    requires Init(cfg, s0) && Run(cfg, s0, run) == Some(t) && SmoothRun(cfg, s0, run) && id in t.db.outbox
    ensures var r, h, budget := t.db.outbox[id], ClaimsOf(t, id), Outbox.Attempts(cfg.maxRetry, cfg.order);
            && (forall i :: 0 <= i < |h| - 1 ==> h[i].outcome.WasFailed?)
            && |h| == r.retryCount + (if r.status.Processing? || r.status.Sent? then 1 else 0)
            && |h| <= budget
            && (r.status.Processing? ==> Tended(t, id))
            && (|h| == budget && !r.status.Processing? ==> r.status.Sent? || r.status.Failed?)
  {
    hide Next, Invariant, LeasesOk, Tended;
    assert Reachable(cfg, t);
    InitHolds(cfg, s0);
    SmoothRunKeeps(cfg, s0, run, t);
    LeasesOfInvariant(cfg, t);
    TriesAreBounded(cfg, t, id);
    RowsOfLeases(cfg, t);
    assert RowMatches(cfg, t.db.outbox[id], t.aux.claims[id]);
    AllVerdicts(t.aux.claims[id]);
  }

  lemma {:induction false} NoneOpen(h: seq<ClaimRecord>)
    requires forall i :: 0 <= i < |h| ==> !h[i].outcome.Open?
    ensures Opens(h) == 0
  {
    if h != [] {
      NoneOpen(h[..|h| - 1]);
    }
  }

  lemma AllVerdicts(h: seq<ClaimRecord>)
    requires forall i :: 0 <= i < |h| - 1 ==> !h[i].outcome.Open?
    ensures Abandoned(h) == 0
  {
    if h != [] {
      NoneOpen(h[..|h| - 1]);
    }
  }

  // ---- a worker can finish ----

  ghost predicate HoldsRow(at: Worker, id: nat)
    requires Busy(at)
  {
    exists i :: 0 <= i < |at.batch| && StillHeld(at.batch, at.pos, at.sent, i) && at.batch[i].id == id
  }

  /** The rows in the worker's hands that it owns are sent, all others unchanged. */
  ghost predicate HeldAreSent(t: Outbox.Table, t': Outbox.Table, w: string, at: Worker, now: Time)
    requires Busy(at)
  {
    && t'.Keys == t.Keys
    && forall id :: id in t ==>
         t'[id] == if HoldsRow(at, id) && Outbox.OwnedBy(t[id], w) then Outbox.SentRow(t[id], now) else t[id]
  }

  lemma OneStep(cfg: Config, s: State, l: Label)
    ensures Run(cfg, s, [l]) == Next(cfg, s, l)
  {
    hide Next;
    assert [l][..0] == [];
  }

  lemma StepAndRun(cfg: Config, s: State, l: Label, s': State, rest: seq<Label>)
    requires Next(cfg, s, l) == Some(s')
    ensures Run(cfg, s, [l] + rest) == Run(cfg, s', rest)
  {
    hide Next;
    OneStep(cfg, s, l);
    RunsJoin(cfg, s, [l], s', rest);
  }

  lemma HeldIsSentAtTheEnd(cfg: Config, s: State, w: string)
    requires HoldingOk(s) && WorkerAt(s, w).Publishing? && WorkerAt(s, w).pos == |WorkerAt(s, w).batch|
    ensures forall id :: HoldsRow(WorkerAt(s, w), id) <==> id in WorkerAt(s, w).sent
  {
    assert WorkerHolds(s, s.workers[w]);
    var at := WorkerAt(s, w);
    forall id | id in at.sent ensures HoldsRow(at, id) {
      var i :| 0 <= i < at.pos && at.batch[i].id == id;
      assert StillHeld(at.batch, at.pos, at.sent, i);
    }
  }

  lemma PublishHolds(cfg: Config, s: State, w: string, s': State)
    requires HoldingOk(s) && WorkerNext(cfg, s, w, WPublish(true, true)) == Some(s')
    ensures WorkerAt(s', w).Publishing? && |WorkerAt(s', w).batch| == |WorkerAt(s, w).batch|
    ensures WorkerAt(s', w).pos == WorkerAt(s, w).pos + 1 && s'.db == s.db && s'.now == s.now
    ensures forall id :: HoldsRow(WorkerAt(s', w), id) <==> HoldsRow(WorkerAt(s, w), id)
  {
    var at, at' := WorkerAt(s, w), WorkerAt(s', w);
    assert forall id :: id in at'.sent <==> id in at.sent || id == at.batch[at.pos].id;
    assert WorkerHolds(s, s.workers[w]);
    forall id | HoldsRow(at, id) ensures HoldsRow(at', id) {
      var i :| 0 <= i < |at.batch| && StillHeld(at.batch, at.pos, at.sent, i) && at.batch[i].id == id;
      assert StillHeld(at'.batch, at'.pos, at'.sent, i);
    }
    forall id | HoldsRow(at', id) ensures HoldsRow(at, id) {
      var i :| 0 <= i < |at'.batch| && StillHeld(at'.batch, at'.pos, at'.sent, i) && at'.batch[i].id == id;
      assert StillHeld(at.batch, at.pos, at.sent, i);
    }
  }

  /** A worker that is publishing can go on, on its own and with calls that succeed, until every row that it holds and
      owns is sent. */
  lemma BatchCanBeSent(cfg: Config, s: State, w: string) returns (run: seq<Label>, t: State)
    requires Invariant(cfg, s) && WorkerAt(s, w).Publishing?
    ensures Run(cfg, s, run) == Some(t) && WorkerAt(t, w).Settled?
    ensures HeldAreSent(s.db.outbox, t.db.outbox, w, WorkerAt(s, w), s.now)
    ensures forall l :: l in run ==> l == Work(w, WPublish(true, true)) || l == Work(w, WMarkSent(true))
    decreases |WorkerAt(s, w).batch| - WorkerAt(s, w).pos
  {
    hide Invariant, HoldsRow, GoneWasSent;
    HoldingOfInvariant(cfg, s, w);
    var at := WorkerAt(s, w);
    if at.pos >= |at.batch| {
      t := WorkerNext(cfg, s, w, WMarkSent(true)).value;
      run := [Work(w, WMarkSent(true))];
      OneStep(cfg, s, run[0]);
      HeldIsSentAtTheEnd(cfg, s, w);
      OwnedBatchIsSent(cfg, s, w, t);
    } else {
      var l := Work(w, WPublish(true, true));
      var s' := Next(cfg, s, l).value;
      PublishHolds(cfg, s, w, s');
      StepKeeps(cfg, s, l, s');
      var rest;
      rest, t := BatchCanBeSent(cfg, s', w);
      StepAndRun(cfg, s, l, s', rest);
      run := [l] + rest;
    }
  }

  lemma HoldingOfInvariant(cfg: Config, s: State, w: string)
    requires Invariant(cfg, s)
    ensures HoldingOk(s)
    ensures Busy(WorkerAt(s, w)) ==> WorkerAt(s, w).pos <= |WorkerAt(s, w).batch|
  {
    assert w in s.workers ==> WorkerHolds(s, s.workers[w]);
  }

  /** A row that a worker can claim can be sent. */
  lemma ClaimableCanBeSent(cfg: Config, s: State, w: string, id: nat) returns (run: seq<Label>, t: State)
    requires Invariant(cfg, s) && WorkerAt(s, w).Idle?
    requires id in s.db.outbox && Outbox.Claimable(s.db.outbox[id], s.now)
    ensures Run(cfg, s, run) == Some(t) && t.db.outbox.Keys == s.db.outbox.Keys && t.db.outbox[id].status.Sent?
    ensures forall k :: k in s.db.outbox && k != id ==> t.db.outbox[k] == s.db.outbox[k]
    ensures forall l :: l in run ==> l.Work? && l.w == w
  {
    hide Invariant, HoldsRow;
    var l := Work(w, WClaim([id], true, true));
    var s' := Next(cfg, s, l).value;
    OneRowIsHeld(cfg, s, w, id, s');
    StepKeeps(cfg, s, l, s');
    var rest;
    rest, t := BatchCanBeSent(cfg, s', w);
    StepAndRun(cfg, s, l, s', rest);
    run := [l] + rest;
  }

  lemma OneRowIsHeld(cfg: Config, s: State, w: string, id: nat, s': State)
    requires Next(cfg, s, Work(w, WClaim([id], true, true))) == Some(s')
    ensures WorkerAt(s', w).Publishing? && HoldsRow(WorkerAt(s', w), id)
    ensures forall k :: HoldsRow(WorkerAt(s', w), k) ==> k == id
    ensures s'.db.outbox.Keys == s.db.outbox.Keys && id in s.db.outbox && Outbox.OwnedBy(s'.db.outbox[id], w)
    ensures forall k :: k in s.db.outbox && k != id ==> s'.db.outbox[k] == s.db.outbox[k]
  {
    var at := WorkerAt(s', w);
    assert [id][0] == id && StillHeld(at.batch, at.pos, at.sent, 0) && at.batch[0].id == id;
  }
}
