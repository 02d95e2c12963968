/** What holds over every run of the system. */
module SystemTheorems {
  import opened Common
  import opened SystemModel
  import opened Agreement
  import opened Leases
  import opened Holding
  import opened Delivery
  import opened Staleness
  import Frames
  import Outbox
  import Bloom

  ghost predicate Invariant(cfg: Config, s: State) {
    && AllAgree(cfg, s)
    && LeasesOk(cfg, s)
    && HoldingOk(s)
    && Conserved(cfg, s)
    && (cfg.delta.Some? ==> Fresh(cfg.delta.value, s))
  }

  lemma InitHolds(cfg: Config, s: State)
    requires Init(cfg, s)
    ensures Invariant(cfg, s)
  {}

  lemma StepKeeps(cfg: Config, s: State, l: Label, s': State)
    requires Invariant(cfg, s) && Next(cfg, s, l) == Some(s')
    ensures Invariant(cfg, s') && Extends(s.db.links, s'.db.links)
  {
    LinksAreOk(cfg, s);
    hide Next, AllAgree, LeasesOk, HoldingOk, Conserved, Fresh;
    StepKeepsAgreement(cfg, s, l, s');
    StepKeepsLeases(cfg, s, l, s');
    StepKeepsHolding(cfg, s, l, s');
    StepKeepsDelivery(cfg, s, l, s');
    if cfg.delta.Some? {
      StepKeepsFresh(cfg.delta.value, cfg, s, l, s');
    }
  }

  lemma LinksAreOk(cfg: Config, s: State)
    requires AllAgree(cfg, s)
    ensures LinksOk(cfg, s.db.links)
  {}

  /** The invariant of every reachable state; a run only adds links. */
  lemma {:induction false} RunKeeps(cfg: Config, s0: State, run: seq<Label>, s: State)
    requires Invariant(cfg, s0) && Run(cfg, s0, run) == Some(s)
    ensures Invariant(cfg, s) && Extends(s0.db.links, s.db.links) && s0.now <= s.now
  {
    hide Invariant, Next;
    if run != [] {
      var before := Run(cfg, s0, run[..|run| - 1]).value;
      RunKeeps(cfg, s0, run[..|run| - 1], before);
      StepKeeps(cfg, before, run[|run| - 1], s);
      TimeGoesOn(cfg, before, run[|run| - 1], s);
    }
  }

  lemma TimeGoesOn(cfg: Config, s: State, l: Label, s': State)
    requires Next(cfg, s, l) == Some(s')
    ensures s.now <= s'.now
  {
    hide CreateNext, RedirectNext, RebuildNext, ConsumeNext, WorkerNext, EnvNext;
    match l
    case Create(o, c) => if c.CInsert? { Frames.InsertFrame(cfg, s, o, c, s'); }
        else { Frames.CreateFrame(cfg, s, o, c, s'); }
    case Redirect(o, r) => Frames.RedirectFrame(cfg, s, o, r, s');
    case Rebuild(o, b) => Frames.RebuildFrame(cfg, s, o, b, s');
    case Consume(o, k) => Frames.ConsumeFrame(cfg, s, o, k, s');
    case Work(w, x) => Frames.WorkerFrame(cfg, s, w, x, s');
    case Env(e) => Frames.EnvFrame(cfg, s, e, s');
  }

  /** What lasts: links, the clock, set bits, what was published and applied, verdicts, and that a deleted row is gone.
      */
  ghost predicate Onwards(s: State, s': State) {
    && Extends(s.db.links, s'.db.links)
    && s.now <= s'.now
    && s.redis.bloom <= s'.redis.bloom
    && s.aux.applied <= s'.aux.applied
    && (forall id :: id in s.aux.published ==> id in s'.aux.published)
    && HistoriesGrow(s, s')
    && NoneReturns(s, s')
  }

  ghost predicate NoneReturns(s: State, s': State) {
    s.db.nextId <= s'.db.nextId && forall id :: id in s'.db.outbox && id < s.db.nextId ==> id in s.db.outbox
  }

  lemma OnwardsIsAnOrder(a: State, b: State, c: State)
    ensures Onwards(a, a)
    ensures Onwards(a, b) && Onwards(b, c) ==> Onwards(a, c)
  {
    hide HistoriesGrow;
    GrowthIsAnOrder(a, b, c);
  }

  lemma AppliedGrows(cfg: Config, s: State, o: nat, k: ConsumeStep, s': State)
    requires ConsumeNext(cfg, s, o, k) == Some(s')
    ensures s.aux.applied <= s'.aux.applied
  {
    hide Write, CmdFits;
    if k.KWrite? {
      Frames.WriteFrame(s, s.ops.deliveries[o].msg, k.cmd);
    }
  }

  lemma PublishedGrows(cfg: Config, s: State, w: string, x: WorkerStep, s': State)
    requires WorkerNext(cfg, s, w, x) == Some(s')
    ensures s.redis == s'.redis && s.aux.applied == s'.aux.applied && NoneReturns(s, s')
    ensures forall id :: id in s.aux.published ==> id in s'.aux.published
  {}

  lemma StepOnwards(cfg: Config, s: State, l: Label, s': State)
    requires Invariant(cfg, s) && Next(cfg, s, l) == Some(s')
    ensures Invariant(cfg, s') && Onwards(s, s')
  {
    hide CreateNext, RedirectNext, RebuildNext, ConsumeNext, WorkerNext, EnvNext, Invariant, HistoriesGrow, LeasesOk;
    StepKeeps(cfg, s, l, s');
    TimeGoesOn(cfg, s, l, s');
    LeasesOfInvariant(cfg, s);
    StepGrowsHistories(cfg, s, l, s');
    match l
    case Create(o, c) => if c.CInsert? { Frames.InsertFrame(cfg, s, o, c, s'); }
        else { Frames.CreateFrame(cfg, s, o, c, s'); }
    case Redirect(o, r) => Frames.RedirectFrame(cfg, s, o, r, s');
    case Rebuild(o, b) => Frames.RebuildFrame(cfg, s, o, b, s');
    case Consume(o, k) => Frames.ConsumeFrame(cfg, s, o, k, s'); AppliedGrows(cfg, s, o, k, s');
    case Work(w, x) => Frames.WorkerFrame(cfg, s, w, x, s'); PublishedGrows(cfg, s, w, x, s');
    case Env(e) => Frames.EnvFrame(cfg, s, e, s');
  }

  lemma {:induction false} RunOnwards(cfg: Config, s: State, run: seq<Label>, t: State)
    requires Invariant(cfg, s) && Run(cfg, s, run) == Some(t)
    ensures Invariant(cfg, t) && Onwards(s, t)
  {
    hide Invariant, Next, Onwards;
    OnwardsIsAnOrder(s, s, s);
    if run != [] {
      var before := Run(cfg, s, run[..|run| - 1]).value;
      RunOnwards(cfg, s, run[..|run| - 1], before);
      StepOnwards(cfg, before, run[|run| - 1], t);
      OnwardsIsAnOrder(s, before, t);
    }
  }

  lemma Holds(cfg: Config, s: State)
    requires Reachable(cfg, s)
    ensures Invariant(cfg, s)
  {
    var s0, run :| Init(cfg, s0) && Run(cfg, s0, run) == Some(s);
    InitHolds(cfg, s0);
    RunKeeps(cfg, s0, run, s);
  }

  // ---- soundness of positive answers ----

  /** Whatever is cached, stored, queued or in flight for a code is the URL of the committed row. */
  lemma PositivesAreSound(cfg: Config, s: State)
    requires Reachable(cfg, s)
    ensures forall c :: c in s.redis.link && s.redis.link[c].value != "" ==> IsUrl(s.db.links, c, s.redis.link[c].value)
    ensures forall p, c :: p in s.pods && c in s.pods[p].l1 && s.pods[p].l1[c].value != "" ==>
              IsUrl(s.db.links, c, s.pods[p].l1[c].value)
    ensures forall id :: id in s.db.outbox ==> Agrees(s.db.links, s.db.outbox[id].msg)
    ensures forall m :: m in s.queue ==> Agrees(s.db.links, m)
    ensures forall o :: o in s.ops.deliveries ==> Agrees(s.db.links, s.ops.deliveries[o].msg)
    ensures forall o :: o in s.ops.redirects && s.ops.redirects[o].RedirectFound? ==>
              IsUrl(s.db.links, s.ops.redirects[o].code, s.ops.redirects[o].url)
  {
    Holds(cfg, s);
    forall o | o in s.ops.redirects && s.ops.redirects[o].RedirectFound?
      ensures IsUrl(s.db.links, s.ops.redirects[o].code, s.ops.redirects[o].url)
    {
      assert RedirectOk(s.db.links, s.ops.redirects[o]);
    }
    forall p, c | p in s.pods && c in s.pods[p].l1 && s.pods[p].l1[c].value != ""
      ensures IsUrl(s.db.links, c, s.pods[p].l1[c].value)
    {
      assert Agreement.TierOk(s.db.links, s.pods[p].l1);
    }
  }

  /** A URL found before is the URL found after, however long the system runs in between. */
  lemma FoundStaysFound(cfg: Config, s: State, run: seq<Label>, t: State, o: nat, q: nat)
    requires Reachable(cfg, s) && Run(cfg, s, run) == Some(t)
    requires o in s.ops.redirects && s.ops.redirects[o].RedirectFound?
    requires q in t.ops.redirects && t.ops.redirects[q].RedirectFound?
              && t.ops.redirects[q].code == s.ops.redirects[o].code
    ensures t.ops.redirects[q].url == s.ops.redirects[o].url
  {
    hide Invariant, Next, Reachable;
    Holds(cfg, s);
    RunKeeps(cfg, s, run, t);
    AnswerAgrees(cfg, s, o);
    AnswerAgrees(cfg, t, q);
  }

  lemma AnswerAgrees(cfg: Config, s: State, o: nat)
    requires Invariant(cfg, s) && o in s.ops.redirects
    ensures RedirectOk(s.db.links, s.ops.redirects[o])
  {}

  lemma CodeAgrees(cfg: Config, s: State, o: nat)
    requires Invariant(cfg, s) && o in s.ops.creates
    ensures CreateOk(cfg, s.db.links, s.ops.creates[o]) && LinksOk(cfg, s.db.links)
  {}

  /** Two successful Creates of URLs with one hash, on any pods, return one code, and it is committed under that hash.
      */
  lemma CreateIsIdempotent(cfg: Config, s: State, o: nat, q: nat)
    requires Reachable(cfg, s) && o in s.ops.creates && q in s.ops.creates
    requires s.ops.creates[o].CreateDone? && s.ops.creates[q].CreateDone?
    ensures IsHash(s.db.links, s.ops.creates[o].code, cfg.md5(s.ops.creates[o].url))
    ensures cfg.md5(s.ops.creates[o].url) == cfg.md5(s.ops.creates[q].url) <==>
              s.ops.creates[o].code == s.ops.creates[q].code
  {
    hide Invariant, Reachable;
    Holds(cfg, s);
    CodeAgrees(cfg, s, o);
    CodeAgrees(cfg, s, q);
  }

  /** Redirecting to what Create returned gives back the URL, exactly up to collisions of the hash. */
  lemma CreateThenRedirect(cfg: Config, s: State, o: nat, q: nat)
    requires Reachable(cfg, s) && o in s.ops.creates && q in s.ops.redirects
    requires s.ops.creates[o].CreateDone? && s.ops.redirects[q].RedirectFound?
              && s.ops.creates[o].code == s.ops.redirects[q].code
    ensures cfg.md5(s.ops.redirects[q].url) == cfg.md5(s.ops.creates[o].url)
    ensures (forall u :: cfg.md5(u) == cfg.md5(s.ops.creates[o].url) ==> u == s.ops.creates[o].url) ==>
              s.ops.redirects[q].url == s.ops.creates[o].url
  {
    hide Invariant, Reachable;
    Holds(cfg, s);
    CodeAgrees(cfg, s, o);
    AnswerAgrees(cfg, s, q);
  }

  // ---- leases ----

  lemma LeaseFacts(cfg: Config, s: State)
    requires Reachable(cfg, s)
    ensures LeasesOk(cfg, s)
  {
    Holds(cfg, s);
    hide AllAgree, LeasesOk, HoldingOk, Conserved, Fresh;
  }

  /** Of two claims of one row, the earlier one was settled or had expired when the later one began. */
  lemma LeaseExclusion(cfg: Config, s: State, id: nat, i: nat, j: nat)
    requires Reachable(cfg, s) && id in s.aux.claims && i < j < |s.aux.claims[id]|
    ensures var h := s.aux.claims[id]; Over(h[i], h[j].from) && h[i].from <= h[j].from <= s.now
  {
    LeaseFacts(cfg, s);
    hide Reachable;
  }

  /** The fence lets a worker's update through exactly while the claim that gave it the job is the row's last and
      unsettled one. */
  lemma FenceIsExact(cfg: Config, s: State, w: string, i: nat)
    requires Reachable(cfg, s) && w in s.workers && (s.workers[w].Publishing? || s.workers[w].PublishFailed?)
    requires i < |s.workers[w].batch| && s.workers[w].batch[i].id in s.db.outbox
    ensures var job := s.workers[w].batch[i];
            var h := ClaimsOf(s, job.id);
            && job.claim < |h|
            && (Outbox.OwnedBy(s.db.outbox[job.id], w) <==> job.claim == |h| - 1 && h[job.claim].outcome.Open?)
            && (SettleFailed(cfg, s, w, job.id).db.outbox != s.db.outbox <==>
                job.claim == |h| - 1 && h[job.claim].outcome.Open?)
            && (SettleSent(s, w, {job.id}).db.outbox != s.db.outbox <==>
                job.claim == |h| - 1 && h[job.claim].outcome.Open?)
  {
    hide Reachable, Invariant, LeasesOk;
    LeaseFacts(cfg, s);
    var job := s.workers[w].batch[i];
    LastOpenIsOwned(cfg, s, w, i);
    UpdatesChangeOwned(cfg, s, w, job.id);
  }

  lemma LastOpenIsOwned(cfg: Config, s: State, w: string, i: nat)
    requires LeasesOk(cfg, s) && w in s.workers && (s.workers[w].Publishing? || s.workers[w].PublishFailed?)
    requires i < |s.workers[w].batch| && s.workers[w].batch[i].id in s.db.outbox
    ensures var job := s.workers[w].batch[i];
            var h := ClaimsOf(s, job.id);
            job.claim < |h| && (Outbox.OwnedBy(s.db.outbox[job.id], w) <==>
                job.claim == |h| - 1 && h[job.claim].outcome.Open?)
  {
    var job := s.workers[w].batch[i];
    assert Leases.WorkerOk(cfg, s, w, s.workers[w]);
    assert Fenced(s, w, job);
    assert RowMatches(cfg, s.db.outbox[job.id], s.aux.claims[job.id]);
  }

  lemma UpdatesChangeOwned(cfg: Config, s: State, w: string, id: nat)
    requires id in s.db.outbox
    ensures SettleFailed(cfg, s, w, id).db.outbox != s.db.outbox <==> Outbox.OwnedBy(s.db.outbox[id], w)
    ensures SettleSent(s, w, {id}).db.outbox != s.db.outbox <==> Outbox.OwnedBy(s.db.outbox[id], w)
  {
    var r := s.db.outbox[id];
    if Outbox.OwnedBy(r, w) {
      assert SettleSent(s, w, {id}).db.outbox[id] != r;
      assert SettleFailed(cfg, s, w, id).db.outbox[id] != r;
    } else {
      assert SettleSent(s, w, {id}).db.outbox == s.db.outbox;
    }
  }

  /** How a row's history may change: it grows at the end, and the last claim, while it is open, may get its one
      verdict. */
  ghost predicate HistoryGrows(h: seq<ClaimRecord>, later: seq<ClaimRecord>) {
    && |h| <= |later|
    && (forall i :: 0 <= i < |h| - 1 ==> later[i] == h[i])
    && forall i :: 0 <= i < |h| ==> later[i] == h[i].(outcome := later[i].outcome) && (!h[i].outcome.Open? ==>
        later[i] == h[i])
  }

  ghost predicate HistoriesGrow(s: State, t: State) {
    forall id :: id in s.aux.claims ==> id in t.aux.claims && HistoryGrows(s.aux.claims[id], t.aux.claims[id])
  }

  lemma SettleGrows(cfg: Config, s: State, w: string, id: nat, o: Outcome)
    requires LeasesOk(cfg, s) && id in s.db.outbox && Outbox.OwnedBy(s.db.outbox[id], w)
    ensures id in s.aux.claims && HistoryGrows(s.aux.claims[id], Settle(s.aux.claims[id], o))
  {
    assert RowMatches(cfg, s.db.outbox[id], s.aux.claims[id]);
  }

  /** What a worker's step does to the history of one row: nothing, a new claim, or a verdict on a row it owns. */
  lemma WorkerHistory(cfg: Config, s: State, w: string, x: WorkerStep, s': State, id: nat)
    requires WorkerNext(cfg, s, w, x) == Some(s') && id in s.aux.claims
    ensures id in s'.aux.claims
    ensures var h, h' := s.aux.claims[id], s'.aux.claims[id];
            || h' == h
            || h' == h + [ClaimRecord(w, s.now, s.now + cfg.lease, Open)]
            || (id in s.db.outbox && Outbox.OwnedBy(s.db.outbox[id], w)
                && (h' == Settle(h, WasSent(s.now)) || h' == Settle(h, WasFailed(s.now))))
  {
    hide Settle;
  }

  lemma WorkerGrowsHistories(cfg: Config, s: State, w: string, x: WorkerStep, s': State)
    requires LeasesOk(cfg, s) && WorkerNext(cfg, s, w, x) == Some(s')
    ensures HistoriesGrow(s, s')
  {
    hide LeasesOk, WorkerNext, Settle;
    forall id | id in s.aux.claims ensures id in s'.aux.claims && HistoryGrows(s.aux.claims[id], s'.aux.claims[id]) {
      WorkerHistory(cfg, s, w, x, s', id);
      if id in s.db.outbox && Outbox.OwnedBy(s.db.outbox[id], w) {
        SettleGrows(cfg, s, w, id, WasSent(s.now));
        SettleGrows(cfg, s, w, id, WasFailed(s.now));
      }
    }
  }

  lemma StepGrowsHistories(cfg: Config, s: State, l: Label, s': State)
    requires LeasesOk(cfg, s) && Next(cfg, s, l) == Some(s')
    ensures HistoriesGrow(s, s')
  {
    hide CreateNext, RedirectNext, RebuildNext, ConsumeNext, WorkerNext, EnvNext;
    match l {
      case Create(o, c) =>
        if c.CInsert? {
          Frames.InsertFrame(cfg, s, o, c, s');
          assert s.db.nextId !in s.aux.claims;
        } else {
          Frames.CreateFrame(cfg, s, o, c, s');
        }
      case Redirect(o, r) => Frames.RedirectFrame(cfg, s, o, r, s');
      case Rebuild(o, b) => Frames.RebuildFrame(cfg, s, o, b, s');
      case Consume(o, k) => Frames.ConsumeFrame(cfg, s, o, k, s');
      case Work(w, x) => WorkerGrowsHistories(cfg, s, w, x, s');
      case Env(e) => Frames.EnvFrame(cfg, s, e, s');
    }
  }

  /** Each claim is settled at most once: a verdict, once given, is never changed. */
  lemma {:induction false} VerdictsAreFinal(cfg: Config, s: State, run: seq<Label>, t: State)
    requires Reachable(cfg, s) && Run(cfg, s, run) == Some(t)
    ensures HistoriesGrow(s, t)
    decreases |run|
  {
    hide Invariant, Next, Reachable, HistoriesGrow, LeasesOk;
    Holds(cfg, s);
    GrowthIsAnOrder(s, s, s);
    if run != [] {
      var prefix := run[..|run| - 1];
      var before := Run(cfg, s, prefix).value;
      VerdictsAreFinal(cfg, s, prefix, before);
      RunKeeps(cfg, s, prefix, before);
      LeasesOfInvariant(cfg, before);
      StepGrowsHistories(cfg, before, run[|run| - 1], t);
      GrowthIsAnOrder(s, before, t);
    }
  }

  lemma GrowthIsAnOrder(a: State, b: State, c: State)
    ensures HistoriesGrow(a, a)
    ensures HistoriesGrow(a, b) && HistoriesGrow(b, c) ==> HistoriesGrow(a, c)
  {
    if HistoriesGrow(a, b) && HistoriesGrow(b, c) {
      forall id | id in a.aux.claims ensures id in c.aux.claims && HistoryGrows(a.aux.claims[id], c.aux.claims[id]) {
        assert HistoryGrows(a.aux.claims[id], b.aux.claims[id]) && HistoryGrows(b.aux.claims[id], c.aux.claims[id]);
      }
    }
  }

  lemma LeasesOfInvariant(cfg: Config, s: State)
    requires Invariant(cfg, s)
    ensures LeasesOk(cfg, s)
  {}

  /** A row is tried as often as the budget allows, plus once for every claim that was abandoned;
      `retry_count` counts the failed tries; a row is given up exactly when they have used up the budget. */
  lemma TriesAreBounded(cfg: Config, s: State, id: nat)
    requires Reachable(cfg, s) && id in s.db.outbox
    ensures var r, h, budget := s.db.outbox[id], ClaimsOf(s, id), Outbox.Attempts(cfg.maxRetry, cfg.order);
            && r.retryCount == Failures(h) <= budget
            && (r.status.Failed? <==> r.retryCount == budget)
            && |h| == Failures(h) + Abandoned(h) + (if r.status.Processing? || r.status.Sent? then 1 else 0)
            && |h| <= budget + Abandoned(h)
  {
    LeaseFacts(cfg, s);
    hide Reachable;
    assert RowMatches(cfg, s.db.outbox[id], s.aux.claims[id]);
    hide LeasesOk;
    Tally(s.aux.claims[id]);
  }

  /** In any step, rows that are sent or failed stay as they are, and only old sent rows are deleted. */
  lemma SettledRowsStay(cfg: Config, s: State, l: Label, s': State, id: nat)
    requires Reachable(cfg, s) && Next(cfg, s, l) == Some(s') && id in s.db.outbox
    ensures id in s'.db.outbox && (s.db.outbox[id].status.Sent? || s.db.outbox[id].status.Failed?) ==>
              s'.db.outbox[id] == s.db.outbox[id]
    ensures id !in s'.db.outbox ==> s.db.outbox[id].status.Sent? && s.db.outbox[id].updatedAt + cfg.retain < s.now
  {
    LeaseFacts(cfg, s);
    hide Reachable, CreateNext, RedirectNext, RebuildNext, ConsumeNext, WorkerNext, EnvNext;
    match l {
      case Create(o, c) => if c.CInsert? { Frames.InsertFrame(cfg, s, o, c, s'); }
          else { Frames.CreateFrame(cfg, s, o, c, s'); }
      case Redirect(o, r) => Frames.RedirectFrame(cfg, s, o, r, s');
      case Rebuild(o, b) => Frames.RebuildFrame(cfg, s, o, b, s');
      case Consume(o, k) => Frames.ConsumeFrame(cfg, s, o, k, s');
      case Work(w, x) => SettledRowsOfWorker(cfg, s, w, x, s', id);
      case Env(e) => Frames.EnvFrame(cfg, s, e, s');
    }
  }

  lemma DeleteIs(cfg: Config, s: State, w: string, x: WorkerStep, s': State)
    requires WorkerNext(cfg, s, w, x) == Some(s') && x.WDelete?
    ensures WorkerAt(s, w).Cleaning?
    ensures s'.db.outbox == s.db.outbox || s'.db.outbox == s.db.outbox - WorkerAt(s, w).ids
  {}

  lemma UpdateIs(cfg: Config, s: State, w: string, x: WorkerStep, s': State, id: nat)
    requires WorkerNext(cfg, s, w, x) == Some(s') && !x.WDelete? && id in s.db.outbox
    ensures id in s'.db.outbox
    ensures s.db.outbox[id].status.Sent? || s.db.outbox[id].status.Failed? ==> s'.db.outbox[id] == s.db.outbox[id]
  {}

  lemma SettledRowsOfWorker(cfg: Config, s: State, w: string, x: WorkerStep, s': State, id: nat)
    requires LeasesOk(cfg, s) && WorkerNext(cfg, s, w, x) == Some(s') && id in s.db.outbox
    ensures id in s'.db.outbox && (s.db.outbox[id].status.Sent? || s.db.outbox[id].status.Failed?) ==>
              s'.db.outbox[id] == s.db.outbox[id]
    ensures id !in s'.db.outbox ==> s.db.outbox[id].status.Sent? && s.db.outbox[id].updatedAt + cfg.retain < s.now
  {
    hide LeasesOk, WorkerNext;
    if x.WDelete? {
      Leases.AtOk(cfg, s, w);
      DeleteIs(cfg, s, w, x, s');
    } else {
      UpdateIs(cfg, s, w, x, s', id);
    }
  }

  // ---- conservation ----

  lemma ConservationFacts(cfg: Config, s: State)
    requires Reachable(cfg, s)
    ensures Conserved(cfg, s)
  {
    Holds(cfg, s);
    hide AllAgree, LeasesOk, HoldingOk, Conserved, Fresh;
  }

  function MessageOf(s: State, code: string): Message
    requires code in s.db.links
  {
    Message(code, s.db.links[code].url, s.db.links[code].hash)
  }

  /** The message of a committed link has not been published yet. */
  ghost predicate Unpublished(s: State, code: string) {
    && code in s.aux.origin && s.aux.origin[code] in s.db.outbox
    && var r := s.db.outbox[s.aux.origin[code]]; !r.status.Sent? && r.msg.code == code
  }

  /** Every link committed through Create still has its unsent outbox row, or its message is on the way or applied. */
  lemma NothingIsLost(cfg: Config, s: State, code: string)
    requires Reachable(cfg, s) && code in s.db.links && code !in s.aux.legacy
    ensures Unpublished(s, code) || Underway(s, MessageOf(s, code))
    ensures MessageOf(s, code) in s.aux.applied ==> Contains(cfg, s.redis.bloom, code)
    ensures code in s.aux.origin && (s.aux.origin[code] !in s.db.outbox
              || s.db.outbox[s.aux.origin[code]].status.Sent?) ==>
              s.aux.origin[code] in s.aux.published && s.aux.published[s.aux.origin[code]] == MessageOf(s, code)
  {
    ConservationFacts(cfg, s);
    hide Reachable;
    var id := s.aux.origin[code];
    if id in s.db.outbox {
      assert IsRow(s, id, s.db.outbox[id].msg);
    }
    if id in s.aux.published {
      assert IsRow(s, id, s.aux.published[id]) && Underway(s, s.aux.published[id]);
    }
  }

  /** A row that is marked sent, or deleted, was published, with the columns of its committed link. */
  lemma SentMeansPublished(cfg: Config, s: State, id: nat)
    requires Reachable(cfg, s) && id < s.db.nextId && (id !in s.db.outbox || s.db.outbox[id].status.Sent?)
    ensures id in s.aux.published
    ensures var m := s.aux.published[id];
            && m.code in s.db.links && m == MessageOf(s, m.code) && m.code in s.aux.origin && s.aux.origin[m.code] == id
            && Underway(s, m)
  {
    ConservationFacts(cfg, s);
    hide Reachable;
    assert IsRow(s, id, s.aux.published[id]) && Underway(s, s.aux.published[id]);
  }

  /** The row of the link was given up. */
  ghost predicate GivenUp(s: State, code: string) {
    code in s.aux.origin && s.aux.origin[code] in s.db.outbox && s.db.outbox[s.aux.origin[code]].status.Failed?
  }

  /** Once no row is pending or processing, and the queue and the consumers have nothing left to do, every link is
      in the Bloom filter, except those whose row was given up. */
  lemma QuietMeansComplete(cfg: Config, s: State)
    requires Reachable(cfg, s)
    requires forall id :: id in s.db.outbox ==> s.db.outbox[id].status.Sent? || s.db.outbox[id].status.Failed?
    requires s.queue == multiset{} && s.ops.deliveries == map[]
    ensures forall c :: c in s.db.links ==> c in s.aux.legacy || Contains(cfg, s.redis.bloom, c) || GivenUp(s, c)
  {
    forall c | c in s.db.links && c !in s.aux.legacy && !GivenUp(s, c) ensures Contains(cfg, s.redis.bloom, c) {
      NothingIsLost(cfg, s, c);
    }
  }

  /** A row that was given up is never touched again. */
  lemma {:induction false} GivenUpForGood(cfg: Config, s: State, run: seq<Label>, t: State, id: nat)
    requires Reachable(cfg, s) && Run(cfg, s, run) == Some(t)
    requires id in s.db.outbox && s.db.outbox[id].status.Failed?
    ensures id in t.db.outbox && t.db.outbox[id] == s.db.outbox[id]
    decreases |run|
  {
    hide Next, Reachable;
    if run != [] {
      var prefix := run[..|run| - 1];
      var before := Run(cfg, s, prefix).value;
      GivenUpForGood(cfg, s, prefix, before, id);
      ReachableGoesOn(cfg, s, prefix, before);
      SettledRowsStay(cfg, before, run[|run| - 1], t, id);
    }
  }

  lemma {:induction false} RunsJoin(cfg: Config, s0: State, first: seq<Label>, s: State, second: seq<Label>)
    requires Run(cfg, s0, first) == Some(s)
    ensures Run(cfg, s0, first + second) == Run(cfg, s, second)
  {
    hide Next;
    if second == [] {
      assert first + second == first;
    } else {
      var init := second[..|second| - 1];
      RunsJoin(cfg, s0, first, s, init);
      assert (first + second)[..|first + second| - 1] == first + init;
    }
  }

  lemma ReachableGoesOn(cfg: Config, s: State, run: seq<Label>, t: State)
    requires Reachable(cfg, s) && Run(cfg, s, run) == Some(t)
    ensures Reachable(cfg, t)
  {
    hide Next, Init;
    var s0, first :| Init(cfg, s0) && Run(cfg, s0, first) == Some(s);
    RunsJoin(cfg, s0, first, s, run);
  }

  /** The message of the link is still waiting in the outbox, given up there, queued, or with a consumer. */
  ghost predicate Undelivered(s: State, code: string) {
    && code in s.db.links
    && (Unpublished(s, code) || MessageOf(s, code) in s.queue || InHand(s.ops.deliveries, MessageOf(s, code)))
  }

  /** A ready Bloom filter misses a committed code only if it was committed after the rebuild began and is undelivered.
      */
  lemma BloomMissMeansUndelivered(cfg: Config, s: State, p: nat, code: string)
    requires Reachable(cfg, s) && code in s.db.links && PodAt(s, p).bloomReady && !Contains(cfg, s.redis.bloom, code)
    ensures code !in PodAt(s, p).rebuiltFrom && code !in s.aux.legacy && Undelivered(s, code)
  {
    ConservationFacts(cfg, s);
    assert Delivery.PodOk(cfg, s, p);
    hide Conserved;
    NothingIsLost(cfg, s, code);
  }

  // ---- staleness ----

  /** What an absence record claims about the state in which it was made. */
  ghost predicate Real(cfg: Config, s: State, a: Absence) {
    && s.now == a.at
    && match a
       case AtMaster(code, _) => code !in s.db.links
       case AtBloom(code, _, p) => PodAt(s, p).bloomReady && !Contains(cfg, s.redis.bloom, code)
  }

  lemma RedirectNotes(cfg: Config, s: State, o: nat, r: RedirectStep, s': State)
    requires RedirectNext(cfg, s, o, r) == Some(s') && !r.RBloom? && !r.RMaster?
    ensures s'.aux == s.aux
  {}

  lemma BloomFinds(cfg: Config, s: State, o: nat, r: RedirectStep, s': State)
    requires RedirectNext(cfg, s, o, r) == Some(s') && r.RBloom?
    ensures forall a :: a in s'.aux.absences ==> a in s.aux.absences || Real(cfg, s, a)
  {
    hide Contains;
  }

  lemma MasterFinds(cfg: Config, s: State, o: nat, r: RedirectStep, s': State)
    requires RedirectNext(cfg, s, o, r) == Some(s') && r.RMaster?
    ensures forall a :: a in s'.aux.absences ==> a in s.aux.absences || Real(cfg, s, a)
  {
    hide Contains;
  }

  lemma StepFinds(cfg: Config, s: State, l: Label, s': State)
    requires Next(cfg, s, l) == Some(s')
    ensures forall a :: a in s'.aux.absences ==> a in s.aux.absences || Real(cfg, s, a)
  {
    hide CreateNext, RedirectNext, RebuildNext, ConsumeNext, WorkerNext, EnvNext, Real;
    match l {
      case Create(o, c) => if c.CInsert? { Frames.InsertFrame(cfg, s, o, c, s'); }
          else { Frames.CreateFrame(cfg, s, o, c, s'); }
      case Redirect(o, r) =>
        if r.RBloom? {
          BloomFinds(cfg, s, o, r, s');
        } else if r.RMaster? {
          MasterFinds(cfg, s, o, r, s');
        } else {
          RedirectNotes(cfg, s, o, r, s');
        }
      case Rebuild(o, b) => Frames.RebuildFrame(cfg, s, o, b, s');
      case Consume(o, k) => Frames.ConsumeFrame(cfg, s, o, k, s');
      case Work(w, x) => Frames.WorkerFrame(cfg, s, w, x, s');
      case Env(e) => Frames.EnvFrame(cfg, s, e, s');
    }
  }

  /** Every recorded absence was real at some moment of the run. */
  lemma {:induction false} AbsencesAreReal(cfg: Config, s0: State, run: seq<Label>, s: State, a: Absence)
      returns (i: nat, t: State)
    requires Init(cfg, s0) && Run(cfg, s0, run) == Some(s) && a in s.aux.absences
    ensures i <= |run| && Run(cfg, s0, run[..i]) == Some(t) && Real(cfg, t, a)
  {
    hide Next, Real;
    if run == [] {
      assert false;
    } else {
      var prefix := run[..|run| - 1];
      var before := Run(cfg, s0, prefix).value;
      StepFinds(cfg, before, run[|run| - 1], s);
      if a in before.aux.absences {
        i, t := AbsencesAreReal(cfg, s0, prefix, before, a);
        assert prefix[..i] == run[..i];
      } else {
        i, t := |run| - 1, before;
      }
    }
  }

  /** When a Redirect answered "not found", there was a moment, at most ten minutes and twice `delta` earlier, at which
      the code was not committed, or was committed but its message was still undelivered and some pod's ready Bloom
      filter lacked it. */
  lemma NotFoundIsJustified(cfg: Config, s0: State, run: seq<Label>, s: State, o: nat) returns (i: nat, t: State)
    requires Init(cfg, s0) && Run(cfg, s0, run) == Some(s) && cfg.delta.Some?
    requires o in s.ops.redirects && s.ops.redirects[o].RedirectNotFound?
    ensures var answer := s.ops.redirects[o];
            && i <= |run| && Run(cfg, s0, run[..i]) == Some(t)
            && t.now <= answer.at <= t.now + 10 * 60 * 1000 + 2 * cfg.delta.value - 1
            && (answer.code !in t.db.links ||
                (Undelivered(t, answer.code)
                    && exists p :: PodAt(t, p).bloomReady && !Contains(cfg, t.redis.bloom, answer.code)))
  {
    hide Contains, Undelivered, Init;
    assert Reachable(cfg, s);
    Holds(cfg, s);
    var answer := s.ops.redirects[o];
    assert Staleness.OpOk(cfg.delta.value, s, answer);
    hide Invariant;
    var a :| a in s.aux.absences && a.code == answer.code && a.at == answer.evidence;
    i, t := AbsencesAreReal(cfg, s0, run, s, a);
    if answer.code in t.db.links {
      assert Reachable(cfg, t);
      BloomMissMeansUndelivered(cfg, t, a.pod, answer.code);
    }
  }

  lemma RunSplits(cfg: Config, s0: State, first: seq<Label>, s: State, run: seq<Label>, i: nat, u: State)
    requires Run(cfg, s0, first) == Some(s) && i <= |first + run| && Run(cfg, s0, (first + run)[..i]) == Some(u)
    ensures i <= |first| ==> Run(cfg, u, first[i..]) == Some(s)
    ensures i > |first| ==> Run(cfg, s, run[..i - |first|]) == Some(u)
  {
    hide Next;
    if i <= |first| {
      assert (first + run)[..i] == first[..i] && first[..i] + first[i..] == first;
      RunsJoin(cfg, s0, first[..i], u, first[i..]);
    } else {
      assert (first + run)[..i] == first + run[..i - |first|];
      RunsJoin(cfg, s0, first, s, run[..i - |first|]);
    }
  }

  /** Once a committed code is in the Bloom filter, the age bound is all that "not found" answers have left. */
  lemma ContainedIsFoundSoon(cfg: Config, s: State, run: seq<Label>, t: State, o: nat)
    requires Reachable(cfg, s) && Run(cfg, s, run) == Some(t) && cfg.delta.Some?
    requires o in t.ops.redirects && t.ops.redirects[o].RedirectNotFound?
    requires t.ops.redirects[o].code in s.db.links && Contains(cfg, s.redis.bloom, t.ops.redirects[o].code)
    ensures t.ops.redirects[o].at <= s.now + Bound(cfg.delta.value)
  {
    hide Next, Init, Invariant, Contains, Undelivered;
    var s0, first :| Init(cfg, s0) && Run(cfg, s0, first) == Some(s);
    RunsJoin(cfg, s0, first, s, run);
    var i, u := NotFoundIsJustified(cfg, s0, first + run, t, o);
    RunSplits(cfg, s0, first, s, run, i, u);
    InitHolds(cfg, s0);
    RunKeeps(cfg, s0, (first + run)[..i], u);
    if i <= |first| {
      RunKeeps(cfg, u, first[i..], s);
    } else {
      Holds(cfg, s);
      RunOnwards(cfg, s, run[..i - |first|], u);
      StillContained(cfg, s, u, t.ops.redirects[o].code);
    }
  }

  lemma StillContained(cfg: Config, s: State, u: State, code: string)
    requires Onwards(s, u) && code in s.db.links && Contains(cfg, s.redis.bloom, code)
    ensures code in u.db.links && Contains(cfg, u.redis.bloom, code)
  {}
}
