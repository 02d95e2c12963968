/** Claims of outbox rows: exclusion, fencing, and how often a row can be tried. */
module Leases {
  import opened Common
  import opened SystemModel
  import opened Frames
  import Outbox

  /** The claim has ended by `t`: it was settled, or its lease ran out. */
  predicate Over(c: ClaimRecord, t: Time) {
    c.until < t || (!c.outcome.Open? && c.outcome.at <= t)
  }

  /** No two claims of one row are in force at once. */
  ghost predicate Exclusive(h: seq<ClaimRecord>) {
    forall i, j :: 0 <= i < j < |h| ==> Over(h[i], h[j].from)
  }

  ghost predicate Past(h: seq<ClaimRecord>, now: Time) {
    forall i :: 0 <= i < |h| ==>
        h[i].from <= now && h[i].from <= h[i].until && (h[i].outcome.Open? || h[i].from <= h[i].outcome.at <= now)
  }

  function Failures(h: seq<ClaimRecord>): nat {
    if h == [] then 0 else Failures(h[..|h| - 1]) + (if h[|h| - 1].outcome.WasFailed? then 1 else 0)
  }

  function Opens(h: seq<ClaimRecord>): nat {
    if h == [] then 0 else Opens(h[..|h| - 1]) + (if h[|h| - 1].outcome.Open? then 1 else 0)
  }

  /** Claims that ended without a verdict, because the worker crashed or a database call failed:
      all the open ones but a last one that is still in force. */
  function Abandoned(h: seq<ClaimRecord>): nat {
    if h == [] then 0 else Opens(h[..|h| - 1])
  }

  lemma {:induction false} Tally(h: seq<ClaimRecord>)
    requires forall i :: 0 <= i < |h| - 1 ==> !h[i].outcome.WasSent?
    ensures |h| == Failures(h) + Opens(h) + (if h != [] && h[|h| - 1].outcome.WasSent? then 1 else 0)
  {
    if h != [] {
      Tally(h[..|h| - 1]);
    }
  }

  /** What the history of a row says about its columns. */
  ghost predicate RowMatches(cfg: Config, r: Outbox.Row, h: seq<ClaimRecord>) {
    && (forall i :: 0 <= i < |h| - 1 ==> !h[i].outcome.WasSent?)
    && r.retryCount == Failures(h)
    && (if r.status.Failed? then r.retryCount == Outbox.Attempts(cfg.maxRetry, cfg.order)
        else r.retryCount < Outbox.Attempts(cfg.maxRetry, cfg.order))
    && match r.status
       case Pending => h == [] || h[|h| - 1].outcome.WasFailed?
       case Processing => h != [] && h[|h| - 1].worker == r.workerId && r.lockedUntil == Some(h[|h| - 1].until)
           && h[|h| - 1].outcome.Open?
       case Sent => h != [] && h[|h| - 1].outcome.WasSent?
       case Failed => h != [] && h[|h| - 1].outcome.WasFailed?
  }

  ghost predicate RowsOk(cfg: Config, s: State) {
    forall id :: id in s.db.outbox ==> id in s.aux.claims && RowMatches(cfg, s.db.outbox[id], s.aux.claims[id])
  }

  ghost predicate ClaimsOk(s: State) {
    forall id :: id in s.aux.claims ==> id < s.db.nextId && Exclusive(s.aux.claims[id]) && Past(s.aux.claims[id], s.now)
  }

  /** The job was handed out by claim `job.claim` of worker `w`, and `w` owns the row only while that is its last
      claim. */
  ghost predicate Fenced(s: State, w: string, job: Job) {
    && job.id in s.aux.claims && job.claim < |s.aux.claims[job.id]|
    && s.aux.claims[job.id][job.claim].worker == w
    && (job.id in s.db.outbox && Outbox.OwnedBy(s.db.outbox[job.id], w) ==> job.claim == |s.aux.claims[job.id]| - 1)
  }

  ghost predicate AllFenced(s: State, w: string, batch: seq<Job>) {
    forall i :: 0 <= i < |batch| ==> Fenced(s, w, batch[i])
  }

  ghost predicate WorkerOk(cfg: Config, s: State, w: string, at: Worker) {
    match at
    case Publishing(batch, _, _) => AllFenced(s, w, batch)
    case PublishFailed(batch, _, _) => AllFenced(s, w, batch)
    case Cleaning(ids, deadline) => deadline <= s.now - cfg.retain
        && forall id :: id in ids ==>
             id < s.db.nextId && (id in s.db.outbox ==> Outbox.Expendable(s.db.outbox[id], deadline))
    case _ => true
  }

  ghost predicate WorkersOk(cfg: Config, s: State) {
    forall w :: w in s.workers ==> WorkerOk(cfg, s, w, s.workers[w])
  }

  ghost predicate LeasesOk(cfg: Config, s: State) {
    RowsOk(cfg, s) && ClaimsOk(s) && WorkersOk(cfg, s)
  }

  // ---- histories ----

  lemma FailuresOfAppend(h: seq<ClaimRecord>, c: ClaimRecord)
    ensures Failures(h + [c]) == Failures(h) + (if c.outcome.WasFailed? then 1 else 0)
  {
    assert (h + [c])[..|h|] == h;
  }

  lemma FailuresOfSettle(h: seq<ClaimRecord>, o: Outcome)
    requires h != [] && h[|h| - 1].outcome.Open?
    ensures Failures(Settle(h, o)) == Failures(h) + (if o.WasFailed? then 1 else 0)
  {
    assert Settle(h, o)[..|h| - 1] == h[..|h| - 1];
  }

  /** A claimable row's earlier claims are all over. */
  lemma ClaimableIsOver(cfg: Config, r: Outbox.Row, h: seq<ClaimRecord>, now: Time)
    requires RowMatches(cfg, r, h) && Exclusive(h) && Past(h, now) && Outbox.Claimable(r, now)
    ensures forall i :: 0 <= i < |h| ==> Over(h[i], now)
  {
    forall i | 0 <= i < |h| ensures Over(h[i], now) {
      if i < |h| - 1 {
        assert Over(h[i], h[|h| - 1].from);
      }
    }
  }

  lemma AfterClaimRow(cfg: Config, r: Outbox.Row, h: seq<ClaimRecord>, w: string, now: Time)
    requires RowMatches(cfg, r, h) && Exclusive(h) && Past(h, now) && Outbox.Claimable(r, now)
    ensures var h' := h + [ClaimRecord(w, now, now + cfg.lease, Open)];
            RowMatches(cfg, Outbox.ClaimRow(r, w, now, cfg.lease), h') && Exclusive(h') && Past(h', now)
  {
    ClaimableIsOver(cfg, r, h, now);
    FailuresOfAppend(h, ClaimRecord(w, now, now + cfg.lease, Open));
    var h' := h + [ClaimRecord(w, now, now + cfg.lease, Open)];
    forall i | 0 <= i < |h'| - 1 ensures !h'[i].outcome.WasSent? {
      assert h'[i] == h[i];
    }
  }

  lemma AfterSettleRow(cfg: Config, r: Outbox.Row, h: seq<ClaimRecord>, w: string, now: Time)
    requires RowMatches(cfg, r, h) && Exclusive(h) && Past(h, now) && Outbox.OwnedBy(r, w)
    ensures RowMatches(cfg, Outbox.SentRow(r, now), Settle(h, WasSent(now)))
    ensures RowMatches(cfg, Outbox.FailedRow(r, cfg.maxRetry, now, cfg.order), Settle(h, WasFailed(now)))
    ensures forall o | o in {WasSent(now), WasFailed(now)} :: Exclusive(Settle(h, o)) && Past(Settle(h, o), now)
  {
    FailuresOfSettle(h, WasSent(now));
    FailuresOfSettle(h, WasFailed(now));
  }

  // ---- the steps ----

  lemma AfterInsert(cfg: Config, s: State, id: nat, m: Message)
    requires LeasesOk(cfg, s)
    ensures LeasesOk(cfg, Insert(s, id, m))
  {
    var s' := Insert(s, id, m);
    assert s.db.nextId !in s.aux.claims && s.db.nextId !in s.db.outbox;
    forall w | w in s'.workers ensures WorkerOk(cfg, s', w, s'.workers[w]) {
      assert WorkerOk(cfg, s, w, s.workers[w]);
    }
  }

  lemma AfterTick(cfg: Config, s: State, t: Time)
    requires LeasesOk(cfg, s) && s.now <= t
    ensures LeasesOk(cfg, s.(now := t))
  {
    var s' := s.(now := t);
    forall w | w in s'.workers ensures WorkerOk(cfg, s', w, s'.workers[w]) {
      assert WorkerOk(cfg, s, w, s.workers[w]);
    }
  }

  /** Rows, histories, workers and the clock are all that leases speak of. */
  lemma Frame(cfg: Config, s: State, s': State)
    requires LeasesOk(cfg, s)
    requires s'.now == s.now && s'.db.outbox == s.db.outbox && s'.db.nextId == s.db.nextId
    requires s'.aux.claims == s.aux.claims && s'.workers == s.workers
    ensures LeasesOk(cfg, s')
  {
    forall w | w in s'.workers ensures WorkerOk(cfg, s', w, s'.workers[w]) {
      assert WorkerOk(cfg, s, w, s.workers[w]);
    }
  }

  lemma AfterBecome(cfg: Config, s: State, w: string, at: Worker)
    requires LeasesOk(cfg, s) && WorkerOk(cfg, s, w, at)
    ensures LeasesOk(cfg, Become(s, w, at))
  {
    var s' := Become(s, w, at);
    forall v | v in s'.workers ensures WorkerOk(cfg, s', v, s'.workers[v]) {
      assert WorkerOk(cfg, s, v, if v == w then at else s.workers[v]);
    }
  }

  lemma AtOk(cfg: Config, s: State, w: string)
    requires LeasesOk(cfg, s)
    ensures WorkerOk(cfg, s, w, WorkerAt(s, w)) && forall id :: id in s.db.outbox ==> id < s.db.nextId
  {}

  lemma RowsAfterClaim(cfg: Config, s: State, w: string, ids: seq<nat>)
    requires LeasesOk(cfg, s) && CanClaim(s, ids)
    ensures RowsOk(cfg, ClaimAll(cfg, s, w, ids)) && ClaimsOk(ClaimAll(cfg, s, w, ids))
  {
    hide RowMatches, Exclusive, Past;
    var s' := ClaimAll(cfg, s, w, ids);
    forall id | id in Outbox.Elements(ids) ensures id in s.db.outbox && Outbox.Claimable(s.db.outbox[id], s.now) {}
    forall id | id in s'.db.outbox ensures RowMatches(cfg, s'.db.outbox[id], s'.aux.claims[id]) {
      if id in Outbox.Elements(ids) {
        AfterClaimRow(cfg, s.db.outbox[id], s.aux.claims[id], w, s.now);
      }
    }
    forall id | id in s'.aux.claims ensures Exclusive(s'.aux.claims[id]) && Past(s'.aux.claims[id], s.now) {
      if id in Outbox.Elements(ids) {
        AfterClaimRow(cfg, s.db.outbox[id], s.aux.claims[id], w, s.now);
      }
    }
  }

  /** The worker that claims is idle, so no job of its own is in its hands. */
  lemma AfterClaim(cfg: Config, s: State, w: string, ids: seq<nat>)
    requires LeasesOk(cfg, s) && CanClaim(s, ids) && WorkerAt(s, w).Idle?
    ensures LeasesOk(cfg, ClaimAll(cfg, s, w, ids))
              && WorkerOk(cfg, ClaimAll(cfg, s, w, ids), w, Publishing(JobsOf(s, ids), 0, []))
  {
    var s' := ClaimAll(cfg, s, w, ids);
    RowsAfterClaim(cfg, s, w, ids);
    forall v | v in s'.workers ensures WorkerOk(cfg, s', v, s'.workers[v]) {
      OthersAfterClaim(cfg, s, w, ids, v);
    }
    forall i | 0 <= i < |ids| ensures Fenced(s', w, JobsOf(s, ids)[i]) {
      assert ids[i] in Outbox.Elements(ids);
    }
  }

  lemma OthersAfterClaim(cfg: Config, s: State, w: string, ids: seq<nat>, v: string)
    requires LeasesOk(cfg, s) && CanClaim(s, ids) && WorkerAt(s, w).Idle? && v in s.workers
    ensures WorkerOk(cfg, ClaimAll(cfg, s, w, ids), v, s.workers[v])
  {
    var s' := ClaimAll(cfg, s, w, ids);
    assert WorkerOk(cfg, s, v, s.workers[v]);
    forall id | id in Outbox.Elements(ids) ensures id in s.db.outbox && Outbox.Claimable(s.db.outbox[id], s.now) {}
    forall job | Fenced(s, v, job) && v != w ensures Fenced(s', v, job) {
      assert s'.aux.claims[job.id][job.claim] == s.aux.claims[job.id][job.claim];
    }
  }

  lemma AfterFailed(cfg: Config, s: State, w: string, id: nat)
    requires LeasesOk(cfg, s)
    ensures LeasesOk(cfg, SettleFailed(cfg, s, w, id))
  {
    hide RowMatches, Exclusive, Past;
    var s' := SettleFailed(cfg, s, w, id);
    if id in s.db.outbox && Outbox.OwnedBy(s.db.outbox[id], w) {
      AfterSettleRow(cfg, s.db.outbox[id], s.aux.claims[id], w, s.now);
      forall v | v in s'.workers ensures WorkerOk(cfg, s', v, s'.workers[v]) {
        assert WorkerOk(cfg, s, v, s.workers[v]);
        forall job | Fenced(s, v, job) ensures Fenced(s', v, job) {}
      }
    } else {
      Frame(cfg, s, s');
    }
  }

  lemma RowsAfterSent(cfg: Config, s: State, w: string, ids: set<nat>)
    requires LeasesOk(cfg, s)
    ensures RowsOk(cfg, SettleSent(s, w, ids)) && ClaimsOk(SettleSent(s, w, ids))
  {
    hide RowMatches, Exclusive, Past;
    forall id | id in s.db.outbox && Outbox.OwnedBy(s.db.outbox[id], w)
      ensures RowMatches(cfg, Outbox.SentRow(s.db.outbox[id], s.now), Settle(s.aux.claims[id], WasSent(s.now)))
      ensures Exclusive(Settle(s.aux.claims[id], WasSent(s.now)))
                && Past(Settle(s.aux.claims[id], WasSent(s.now)), s.now)
    {
      AfterSettleRow(cfg, s.db.outbox[id], s.aux.claims[id], w, s.now);
    }
  }

  lemma AfterSent(cfg: Config, s: State, w: string, ids: set<nat>)
    requires LeasesOk(cfg, s)
    ensures LeasesOk(cfg, SettleSent(s, w, ids))
  {
    hide RowMatches, Exclusive, Past;
    var s' := SettleSent(s, w, ids);
    RowsAfterSent(cfg, s, w, ids);
    forall v | v in s'.workers ensures WorkerOk(cfg, s', v, s'.workers[v]) {
      assert WorkerOk(cfg, s, v, s.workers[v]);
      forall job | Fenced(s, v, job) ensures Fenced(s', v, job) {}
    }
  }

  lemma AfterDelete(cfg: Config, s: State, ids: set<nat>)
    requires LeasesOk(cfg, s)
    ensures LeasesOk(cfg, s.(db := s.db.(outbox := s.db.outbox - ids)))
  {
    var s' := s.(db := s.db.(outbox := s.db.outbox - ids));
    forall v | v in s'.workers ensures WorkerOk(cfg, s', v, s'.workers[v]) {
      assert WorkerOk(cfg, s, v, s.workers[v]);
      forall job | Fenced(s, v, job) ensures Fenced(s', v, job) {}
    }
  }

  lemma WorkerKeeps(cfg: Config, s: State, w: string, x: WorkerStep, s': State)
    requires LeasesOk(cfg, s) && WorkerNext(cfg, s, w, x) == Some(s')
    ensures LeasesOk(cfg, s')
  {
    hide LeasesOk;
    var at := WorkerAt(s, w);
    AtOk(cfg, s, w);
    match x {
      case WClaim(ids, applied, ok) =>
        if applied {
          AfterClaim(cfg, s, w, ids);
          AfterBecome(cfg, ClaimAll(cfg, s, w, ids), w, if ok && ids != [] then Publishing(JobsOf(s, ids), 0, [])
              else Idle);
        }
      case WPublish(enqueued, ok) =>
        var s1 := s.(queue := s'.queue, aux := s'.aux);
        Frame(cfg, s, s1);
        AtOk(cfg, s1, w);
        AfterBecome(cfg, s1, w, s'.workers[w]);
      case WMarkFailed(applied) =>
        var s1 := if applied then SettleFailed(cfg, s, w, at.batch[at.pos].id) else s;
        AfterFailed(cfg, s, w, at.batch[at.pos].id);
        AtOk(cfg, s1, w);
        AfterBecome(cfg, s1, w, Publishing(at.batch, at.pos + 1, at.sent));
      case WMarkSent(applied) =>
        AfterSent(cfg, s, w, Outbox.Elements(at.sent));
        AfterBecome(cfg, if applied then SettleSent(s, w, Outbox.Elements(at.sent)) else s, w, Settled);
      case WPluck(ids) => AfterBecome(cfg, s, w, Cleaning(ids, s.now - cfg.retain));
      case WDelete(applied) =>
        AfterDelete(cfg, s, at.ids);
        AfterBecome(cfg, if applied then s.(db := s.db.(outbox := s.db.outbox - at.ids)) else s, w, Idle);
      case WSkipCleanup => AfterBecome(cfg, s, w, Idle);
      case WCrash => AfterBecome(cfg, s, w, Idle);
    }
  }

  lemma StepKeepsLeases(cfg: Config, s: State, l: Label, s': State)
    requires LeasesOk(cfg, s) && Next(cfg, s, l) == Some(s')
    ensures LeasesOk(cfg, s')
  {
    hide LeasesOk, CreateNext, RedirectNext, RebuildNext, ConsumeNext, WorkerNext, EnvNext;
    match l {
      case Work(w, x) => WorkerKeeps(cfg, s, w, x, s');
      case Create(o, c) =>
        if c.CInsert? {
          InsertFrame(cfg, s, o, c, s');
          var m := Message(c.code, s.ops.creates[o].url, cfg.md5(s.ops.creates[o].url));
          AfterInsert(cfg, s, c.id, m);
          Frame(cfg, if s' == GoCreate(s, o, s'.ops.creates[o]) then s else Insert(s, c.id, m), s');
        } else {
          CreateFrame(cfg, s, o, c, s');
          Frame(cfg, s, s');
        }
      case Env(e) =>
        EnvFrame(cfg, s, e, s');
        AfterTick(cfg, s, s'.now);
        Frame(cfg, s.(now := s'.now), s');
      case Redirect(o, r) =>
        RedirectFrame(cfg, s, o, r, s');
        Frame(cfg, s, s');
      case Rebuild(o, b) =>
        RebuildFrame(cfg, s, o, b, s');
        Frame(cfg, s, s');
      case Consume(o, k) =>
        ConsumeFrame(cfg, s, o, k, s');
        Frame(cfg, s, s');
    }
  }
}
