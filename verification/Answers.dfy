/** When a Redirect answers with the URL, and when with an error. */
module Answers {
  import opened Common
  import opened SystemModel
  import opened Agreement
  import opened SystemTheorems
  import opened OwnReads
  import Frames
  import Staleness

  // ---- errors ----

  /** A database query of this Redirect fails. */
  predicate QueryFails(l: Label, o: nat) {
    l.Redirect? && l.o == o && ((l.r.RReplica? && !l.r.ok) || (l.r.RMaster? && !l.r.ok))
  }

  ghost predicate HasFailed(s: State, o: nat) {
    o in s.ops.redirects && s.ops.redirects[o].RedirectFailed?
  }

  lemma ReadsDoNotFail(cfg: Config, s: State, o: nat, r: RedirectStep, s': State)
    requires RedirectNext(cfg, s, o, r) == Some(s') && (r.RBegin? || r.RL1? || r.RRedis? || r.RBloom?)
    ensures !HasFailed(s, o) && !HasFailed(s', o)
  {}

  lemma QueriesFailIff(cfg: Config, s: State, o: nat, r: RedirectStep, s': State)
    requires RedirectNext(cfg, s, o, r) == Some(s') && (r.RReplica? || r.RMaster?)
    ensures !HasFailed(s, o) && (HasFailed(s', o) <==> !r.ok)
  {}

  lemma StoresDoNotFail(cfg: Config, s: State, o: nat, r: RedirectStep, s': State)
    requires RedirectNext(cfg, s, o, r) == Some(s') && (r.RNegRedis? || r.RNegL1? || r.RPosRedis? || r.RPosL1?)
    ensures !HasFailed(s, o) && !HasFailed(s', o)
  {}

  lemma EnvFailsNothing(cfg: Config, s: State, e: EnvStep, s': State, o: nat)
    requires EnvNext(cfg, s, e) == Some(s')
    ensures HasFailed(s', o) <==> HasFailed(s, o)
  {}

  lemma StepFailsIff(cfg: Config, s: State, l: Label, s': State, o: nat)
    requires Next(cfg, s, l) == Some(s')
    ensures HasFailed(s', o) <==> HasFailed(s, o) || QueryFails(l, o)
  {
    hide CreateNext, RedirectNext, RebuildNext, ConsumeNext, WorkerNext, EnvNext;
    match l
    case Create(q, c) =>
      if c.CInsert? {
        Frames.InsertFrame(cfg, s, q, c, s');
      } else {
        Frames.CreateFrame(cfg, s, q, c, s');
      }
    case Redirect(q, r) =>
      Frames.RedirectFrame(cfg, s, q, r, s');
      if r.RReplica? || r.RMaster? {
        QueriesFailIff(cfg, s, q, r, s');
      } else if r.RNegRedis? || r.RNegL1? || r.RPosRedis? || r.RPosL1? {
        StoresDoNotFail(cfg, s, q, r, s');
      } else {
        ReadsDoNotFail(cfg, s, q, r, s');
      }
    case Rebuild(q, b) => Frames.RebuildFrame(cfg, s, q, b, s');
    case Consume(q, k) => Frames.ConsumeFrame(cfg, s, q, k, s');
    case Work(w, x) => Frames.WorkerFrame(cfg, s, w, x, s');
    case Env(e) => EnvFailsNothing(cfg, s, e, s', o);
  }

  /** A Redirect ends in an error exactly when one of its database queries has failed. */
  lemma {:induction false} RedirectFailsIff(cfg: Config, s: State, run: seq<Label>, t: State, o: nat)
    requires Run(cfg, s, run) == Some(t)
    ensures HasFailed(t, o) <==> HasFailed(s, o) || exists l :: l in run && QueryFails(l, o)
  {
    hide Next, HasFailed, QueryFails;
    if run != [] {
      var prefix, last := run[..|run| - 1], run[|run| - 1];
      var before := Run(cfg, s, prefix).value;
      RedirectFailsIff(cfg, s, prefix, before, o);
      StepFailsIff(cfg, before, last, t, o);
      assert forall l :: l in run <==> l in prefix || l == last;
    }
  }

  /** The master's query or the transaction of this Create fails. */
  predicate CallFails(l: Label, o: nat) {
    l.Create? && l.o == o && (l.c.CFindErr? || (l.c.CInsert? && !l.c.ok))
  }

  /** For a URL that is not empty. */
  ghost predicate CreateHasFailed(s: State, o: nat) {
    o in s.ops.creates && s.ops.creates[o].CreateFailed? && s.ops.creates[o].url != ""
  }

  /** Queries and transactions come only after the test for an empty URL. */
  ghost predicate UrlIsChecked(s: State, o: nat) {
    o in s.ops.creates && (s.ops.creates[o].CreateFind? || s.ops.creates[o].CreateInsert?) ==>
        s.ops.creates[o].url != ""
  }

  lemma MoveFailsIff(cfg: Config, s: State, o: nat, c: CreateStep, s': State)
    requires CreateNext(cfg, s, o, c) == Some(s') && (Frames.Moves(c) || c.CInsert?) && UrlIsChecked(s, o)
    ensures CreateHasFailed(s', o) <==> CreateHasFailed(s, o) || CallFails(Create(o, c), o)
  {}

  lemma StoreFailsNothing(cfg: Config, s: State, o: nat, c: CreateStep, s': State)
    requires CreateNext(cfg, s, o, c) == Some(s') && !Frames.Moves(c) && !c.CInsert?
    ensures !CreateHasFailed(s, o) && !CreateHasFailed(s', o)
  {
    hide Write, CmdFits;
    if c.CWrite? {
      var op := s.ops.creates[o];
      Frames.WriteFrame(s, Message(op.code, op.url, cfg.md5(op.url)), c.cmd);
    }
  }

  lemma CreateFailsByStep(cfg: Config, s: State, o: nat, c: CreateStep, s': State)
    requires AllAgree(cfg, s) && CreateNext(cfg, s, o, c) == Some(s')
    ensures CreateHasFailed(s', o) <==> CreateHasFailed(s, o) || CallFails(Create(o, c), o)
  {
    hide CreateNext, AllAgree;
    if o in s.ops.creates {
      CreateOpOk(cfg, s, o);
    }
    if Frames.Moves(c) || c.CInsert? {
      MoveFailsIff(cfg, s, o, c, s');
    } else {
      StoreFailsNothing(cfg, s, o, c, s');
    }
  }

  lemma CreateOpOk(cfg: Config, s: State, o: nat)
    requires AllAgree(cfg, s) && o in s.ops.creates
    ensures CreateOk(cfg, s.db.links, s.ops.creates[o])
  {}

  lemma StepCreateFailsIff(cfg: Config, s: State, l: Label, s': State, o: nat)
    requires AllAgree(cfg, s) && Next(cfg, s, l) == Some(s')
    ensures CreateHasFailed(s', o) <==> CreateHasFailed(s, o) || CallFails(l, o)
  {
    hide CreateNext, RedirectNext, RebuildNext, ConsumeNext, WorkerNext, EnvNext, AllAgree;
    match l
    case Create(q, c) =>
      if c.CInsert? {
        Frames.InsertFrame(cfg, s, q, c, s');
      } else {
        Frames.CreateFrame(cfg, s, q, c, s');
      }
      CreateFailsByStep(cfg, s, q, c, s');
    case Redirect(q, r) => Frames.RedirectFrame(cfg, s, q, r, s');
    case Rebuild(q, b) => Frames.RebuildFrame(cfg, s, q, b, s');
    case Consume(q, k) => Frames.ConsumeFrame(cfg, s, q, k, s');
    case Work(w, x) => Frames.WorkerFrame(cfg, s, w, x, s');
    case Env(e) => EnvFailsNoCreate(cfg, s, e, s', o);
  }

  /** A Create of a URL that is not empty ends in an error exactly when its query or its transaction has failed. */
  lemma {:induction false} CreateFailsIff(cfg: Config, s: State, run: seq<Label>, t: State, o: nat)
    requires Invariant(cfg, s) && Run(cfg, s, run) == Some(t)
    ensures Invariant(cfg, t)
    ensures CreateHasFailed(t, o) <==> CreateHasFailed(s, o) || exists l :: l in run && CallFails(l, o)
  {
    hide Next, Invariant, AllAgree, CreateHasFailed, CallFails;
    if run != [] {
      var prefix, last := run[..|run| - 1], run[|run| - 1];
      var before := Run(cfg, s, prefix).value;
      CreateFailsIff(cfg, s, prefix, before, o);
      AgreementHolds(cfg, before);
      StepKeeps(cfg, before, last, t);
      StepCreateFailsIff(cfg, before, last, t, o);
      assert forall l :: l in run <==> l in prefix || l == last;
    }
  }

  // ---- nothing speaks against the code ----

  predicate L1Negative(s: State, p: nat, code: string) {
    L1Live(PodAt(s, p).l1, code, s.now) && PodAt(s, p).l1[code].value == ""
  }

  ghost predicate HoldsFinding(s: State, p: nat, code: string) {
    exists o :: o in s.ops.redirects && s.ops.redirects[o].RedirectNegL1?
                && s.ops.redirects[o].p == p && s.ops.redirects[o].code == code
  }

  /** The code is committed, and on this pod nothing says or can come to say that it is not. */
  ghost predicate Clear(cfg: Config, s: State, p: nat, code: string) {
    && code in s.db.links && !CanReject(cfg, s, p, code) && !NegativeAround(s, code)
    && !L1Negative(s, p, code) && !HoldsFinding(s, p, code)
  }

  lemma SetL1Negative(s: State, q: nat, c: string, value: string, ev: Time, p: nat, code: string)
    requires L1Negative(SetL1(s, q, c, value, ev), p, code)
    ensures L1Negative(s, p, code) || (q == p && c == code && value == "")
  {}

  lemma SameL1(s: State, s': State, p: nat, code: string)
    requires PodAt(s', p).l1 == PodAt(s, p).l1 && s.now <= s'.now && L1Negative(s', p, code)
    ensures L1Negative(s, p, code)
  {}

  lemma RedirectL1Negative(cfg: Config, s: State, o: nat, r: RedirectStep, s': State, p: nat, code: string)
    requires AllAgree(cfg, s) && RedirectNext(cfg, s, o, r) == Some(s') && L1Negative(s', p, code)
    ensures L1Negative(s, p, code) || HoldsFinding(s, p, code)
  {
    hide RedirectNext, SetL1, L1Negative, AllAgree;
    RedirectL1Write(cfg, s, o, r, s');
    Frames.RedirectFrame(cfg, s, o, r, s');
    if r.RPosL1? {
      var op := s.ops.redirects[o];
      RedirectOpOk(cfg, s, o);
      SetL1Time(s, op.p, op.code, op.url, 0);
      SamePods(SetL1(s, op.p, op.code, op.url, 0), s', p, code);
      SetL1Negative(s, op.p, op.code, op.url, 0, p, code);
    } else if r.RNegL1? {
      var op := s.ops.redirects[o];
      SetL1Time(s, op.p, op.code, "", op.evidence);
      SamePods(SetL1(s, op.p, op.code, "", op.evidence), s', p, code);
      SetL1Negative(s, op.p, op.code, "", op.evidence, p, code);
    } else {
      SameL1(s, s', p, code);
    }
  }

  lemma SetL1Time(s: State, q: nat, c: string, value: string, ev: Time)
    ensures SetL1(s, q, c, value, ev).now == s.now
  {}

  lemma SamePods(s: State, s': State, p: nat, code: string)
    requires s'.pods == s.pods && s'.now == s.now
    ensures L1Negative(s', p, code) <==> L1Negative(s, p, code)
  {}

  lemma PositiveL1(s: State, s': State, p: nat, code: string)
    requires Staleness.NoNewNegative(s, s') && L1Negative(s', p, code)
    ensures L1Negative(s, p, code)
  {}

  lemma EnvL1Negative(cfg: Config, s: State, e: EnvStep, s': State, p: nat, code: string)
    requires EnvNext(cfg, s, e) == Some(s') && L1Negative(s', p, code)
    ensures L1Negative(s, p, code)
  {}

  lemma L1NegativesShrink(cfg: Config, s: State, l: Label, s': State, p: nat, code: string)
    requires AllAgree(cfg, s) && Next(cfg, s, l) == Some(s') && L1Negative(s', p, code)
    ensures L1Negative(s, p, code) || HoldsFinding(s, p, code)
  {
    hide CreateNext, RedirectNext, RebuildNext, ConsumeNext, WorkerNext, EnvNext;
    hide AllAgree, Staleness.NoNewNegative, L1Negative;
    match l
    case Create(o, c) =>
      Staleness.CreateStoresPositives(cfg, s, o, c, s');
      PositiveL1(s, s', p, code);
    case Redirect(o, r) => RedirectL1Negative(cfg, s, o, r, s', p, code);
    case Rebuild(o, b) =>
      Frames.RebuildFrame(cfg, s, o, b, s');
      SameL1(s, s', p, code);
    case Consume(o, k) =>
      Staleness.ConsumeStoresPositives(cfg, s, o, k, s');
      PositiveL1(s, s', p, code);
    case Work(w, x) =>
      Frames.WorkerFrame(cfg, s, w, x, s');
      SameL1(s, s', p, code);
    case Env(e) => EnvL1Negative(cfg, s, e, s', p, code);
  }

  lemma NoNewFinding(cfg: Config, s: State, l: Label, s': State, p: nat, code: string)
    requires Next(cfg, s, l) == Some(s') && Clear(cfg, s, p, code)
    ensures !HoldsFinding(s', p, code)
  {
    hide CreateNext, RedirectNext, RebuildNext, ConsumeNext, WorkerNext, EnvNext, L1Negative;
    if HoldsFinding(s', p, code) {
      var o :| o in s'.ops.redirects && s'.ops.redirects[o].RedirectNegL1?
               && s'.ops.redirects[o].p == p && s'.ops.redirects[o].code == code;
      if l.Redirect? && l.o == o {
        FindingComesFrom(cfg, s, o, l.r, s', p, code);
      } else {
        OthersStay(cfg, s, l, s', o);
      }
    }
  }

  lemma FindingComesFrom(cfg: Config, s: State, o: nat, r: RedirectStep, s': State, p: nat, code: string)
    requires RedirectNext(cfg, s, o, r) == Some(s') && o in s'.ops.redirects && s'.ops.redirects[o].RedirectNegL1?
    requires s'.ops.redirects[o].p == p && s'.ops.redirects[o].code == code
    ensures CanReject(cfg, s, p, code) || NegativeAround(s, code)
  {
    hide RedirectNext, Contains, Final;
    RedirectBegan(cfg, s, o, r, s');
    RedirectTurns(cfg, s, o, r, s');
  }

  /** What is clear stays clear, whatever happens. */
  lemma ClearStays(cfg: Config, s: State, l: Label, s': State, p: nat, code: string)
    requires Invariant(cfg, s) && Next(cfg, s, l) == Some(s') && Clear(cfg, s, p, code)
    ensures Clear(cfg, s', p, code)
  {
    hide Next, Invariant, AllAgree, CanReject, NegativeAround, L1Negative, HoldsFinding;
    StepKeeps(cfg, s, l, s');
    AgreementHolds(cfg, s);
    AgreementHolds(cfg, s');
    NoNewFinding(cfg, s, l, s', p, code);
    if CanReject(cfg, s', p, code) {
      RejectionShrinks(cfg, s, l, s', p, code);
    }
    if NegativeAround(s', code) {
      NegativesShrink(cfg, s, l, s', code);
    }
    if L1Negative(s', p, code) {
      L1NegativesShrink(cfg, s, l, s', p, code);
    }
  }

  function LinkOf(s: State, code: string): Option<Link> {
    if code in s.db.links then Some(s.db.links[code]) else None
  }

  ghost predicate ClearsStay(cfg: Config, s: State, s': State) {
    forall p, code :: Clear(cfg, s, p, code) ==> Clear(cfg, s', p, code) && LinkOf(s', code) == LinkOf(s, code)
  }

  lemma ClearIsCommitted(cfg: Config, s: State, p: nat, code: string)
    requires Clear(cfg, s, p, code)
    ensures code in s.db.links
  {}

  lemma StepKeepsClear(cfg: Config, s: State, l: Label, s': State)
    requires Invariant(cfg, s) && Next(cfg, s, l) == Some(s')
    ensures ClearsStay(cfg, s, s')
  {
    hide Next, Invariant, Clear;
    StepKeeps(cfg, s, l, s');
    forall p, code | Clear(cfg, s, p, code) ensures Clear(cfg, s', p, code) && LinkOf(s', code) == LinkOf(s, code) {
      ClearStays(cfg, s, l, s', p, code);
      ClearIsCommitted(cfg, s, p, code);
    }
  }

  lemma StayingIsAnOrder(cfg: Config, a: State, b: State, c: State)
    ensures ClearsStay(cfg, a, a)
    ensures ClearsStay(cfg, a, b) && ClearsStay(cfg, b, c) ==> ClearsStay(cfg, a, c)
  {
    hide Clear;
  }

  // ---- when it comes to that ----

  /** No evidence against a committed code that the filter has is younger than the moment from which it has it. */
  lemma EvidenceIsOld(cfg: Config, s0: State, first: seq<Label>, s: State, run: seq<Label>, t: State, a: Absence)
    requires Init(cfg, s0) && Run(cfg, s0, first) == Some(s) && Run(cfg, s, run) == Some(t) && a in t.aux.absences
    requires a.code in s.db.links && Contains(cfg, s.redis.bloom, a.code)
    ensures a.at <= s.now
  {
    hide Next, Init, Invariant, Contains;
    RunsJoin(cfg, s0, first, s, run);
    var i, u := AbsencesAreReal(cfg, s0, first + run, t, a);
    RunSplits(cfg, s0, first, s, run, i, u);
    InitHolds(cfg, s0);
    RunKeeps(cfg, s0, (first + run)[..i], u);
    if i <= |first| {
      RunKeeps(cfg, u, first[i..], s);
    } else {
      RunKeeps(cfg, s0, first, s);
      RunOnwards(cfg, s, run[..i - |first|], u);
      StillContained(cfg, s, u, a.code);
    }
  }

  /** A negative copy or finding is younger than its bound. */
  lemma NegativesAreYoung(cfg: Config, s: State, p: nat, code: string, since: Time)
    requires cfg.delta.Some? && Staleness.Fresh(cfg.delta.value, s)
    requires forall a :: a in s.aux.absences && a.code == code ==> a.at <= since
    requires s.now > since + Staleness.Bound(cfg.delta.value)
    ensures !NegativeAround(s, code) && !L1Negative(s, p, code) && !HoldsFinding(s, p, code)
  {
    var delta := cfg.delta.value;
    forall o | o in s.ops.redirects
      ensures !(s.ops.redirects[o].RedirectNegRedis? && s.ops.redirects[o].code == code)
      ensures !(s.ops.redirects[o].RedirectNegL1? && s.ops.redirects[o].code == code)
    {
      assert Staleness.OpOk(delta, s, s.ops.redirects[o]);
    }
    if p in s.pods {
      assert Staleness.TierOk(delta, s, s.pods[p].l1);
    }
  }

  lemma ContainedIsNotRejected(cfg: Config, s: State, p: nat, code: string)
    requires Contains(cfg, s.redis.bloom, code)
    ensures !CanReject(cfg, s, p, code)
  {}

  lemma FreshOfInvariant(cfg: Config, s: State)
    requires Invariant(cfg, s) && cfg.delta.Some?
    ensures Staleness.Fresh(cfg.delta.value, s)
  {}

  /** Once the filter has a committed code, ten minutes and twice `delta` later nothing speaks against it on any pod. */
  lemma ContainedBecomesClear(cfg: Config, s: State, run: seq<Label>, t: State, p: nat, code: string)
    requires Reachable(cfg, s) && Run(cfg, s, run) == Some(t) && cfg.delta.Some?
    requires code in s.db.links && Contains(cfg, s.redis.bloom, code)
    requires t.now >= s.now + 10 * 60 * 1000 + 2 * cfg.delta.value
    ensures Clear(cfg, t, p, code)
  {
    hide Next, Init, Invariant, Contains, Staleness.Fresh, CanReject, NegativeAround, L1Negative, HoldsFinding;
    var s0, first :| Init(cfg, s0) && Run(cfg, s0, first) == Some(s);
    forall a | a in t.aux.absences && a.code == code ensures a.at <= s.now {
      EvidenceIsOld(cfg, s0, first, s, run, t, a);
    }
    InitHolds(cfg, s0);
    RunKeeps(cfg, s0, first, s);
    RunOnwards(cfg, s, run, t);
    StillContained(cfg, s, t, code);
    ContainedIsNotRejected(cfg, t, p, code);
    FreshOfInvariant(cfg, t);
    NegativesAreYoung(cfg, t, p, code, s.now);
  }

  // ---- then the answer is the URL ----

  /** A Redirect of the code on the pod, still under way. */
  predicate IsOn(op: RedirectOp, p: nat, code: string) {
    !op.RedirectFound? && !op.RedirectNotFound? && !op.RedirectFailed? && op.p == p && op.code == code
  }

  ghost predicate OnTheWay(s: State, o: nat, p: nat, code: string) {
    o in s.ops.redirects && IsOn(s.ops.redirects[o], p, code)
  }

  ghost predicate FoundUrl(s: State, o: nat, code: string) {
    code in s.db.links && o in s.ops.redirects && s.ops.redirects[o] == RedirectFound(code, s.db.links[code].url)
  }

  lemma WayThroughL1(cfg: Config, s: State, o: nat, r: RedirectStep, s': State, p: nat, code: string)
    requires AllAgree(cfg, s) && RedirectNext(cfg, s, o, r) == Some(s') && r.RL1?
    requires OnTheWay(s, o, p, code) && code in s.db.links && !L1Negative(s, p, code)
    ensures OnTheWay(s', o, p, code) || FoundUrl(s', o, code)
  {
    hide RedirectNext, AllAgree;
    Frames.L1StepIs(cfg, s, o, r, s');
    PodOk(cfg, s, p);
  }

  lemma WayThroughRedis(cfg: Config, s: State, o: nat, r: RedirectStep, s': State, p: nat, code: string)
    requires RedirectNext(cfg, s, o, r) == Some(s') && r.RRedis? && OnTheWay(s, o, p, code)
    ensures OnTheWay(s', o, p, code)
  {
    hide RedirectNext;
    Frames.RedisStepIs(cfg, s, o, r, s');
  }

  lemma WayThroughFilter(cfg: Config, s: State, o: nat, r: RedirectStep, s': State, p: nat, code: string)
    requires RedirectNext(cfg, s, o, r) == Some(s') && r.RBloom? && OnTheWay(s, o, p, code)
    ensures OnTheWay(s', o, p, code)
  {
    hide RedirectNext;
    Frames.BloomStepIs(cfg, s, o, r, s');
  }

  lemma WayThroughDatabase(cfg: Config, s: State, o: nat, r: RedirectStep, s': State, p: nat, code: string)
    requires RedirectNext(cfg, s, o, r) == Some(s') && (r.RReplica? || r.RMaster?) && r.ok && OnTheWay(s, o, p, code)
    ensures OnTheWay(s', o, p, code)
  {}

  lemma WayThroughRest(cfg: Config, s: State, o: nat, r: RedirectStep, s': State, p: nat, code: string)
    requires AllAgree(cfg, s) && RedirectNext(cfg, s, o, r) == Some(s') && (r.RPosRedis? || r.RPosL1?)
    requires OnTheWay(s, o, p, code)
    ensures OnTheWay(s', o, p, code) || FoundUrl(s', o, code)
  {
    RedirectOpOk(cfg, s, o);
    hide AllAgree;
  }

  lemma NegativesHold(cfg: Config, s: State, o: nat, r: RedirectStep, s': State, p: nat, code: string)
    requires RedirectNext(cfg, s, o, r) == Some(s') && (r.RNegRedis? || r.RNegL1?) && OnTheWay(s, o, p, code)
    ensures NegativeAround(s, code) || HoldsFinding(s, p, code)
  {}

  lemma OnTheWayNotBegun(cfg: Config, s: State, o: nat, r: RedirectStep, s': State)
    requires RedirectNext(cfg, s, o, r) == Some(s') && r.RBegin?
    ensures o !in s.ops.redirects
  {}

  lemma OwnStep(cfg: Config, s: State, o: nat, r: RedirectStep, s': State, p: nat, code: string)
    requires AllAgree(cfg, s) && RedirectNext(cfg, s, o, r) == Some(s') && !QueryFails(Redirect(o, r), o)
    requires OnTheWay(s, o, p, code) && Clear(cfg, s, p, code)
    ensures OnTheWay(s', o, p, code) || FoundUrl(s', o, code)
  {
    hide RedirectNext, AllAgree, CanReject, L1Negative, NegativeAround, HoldsFinding;
    match r
    case RBegin(_, _) => OnTheWayNotBegun(cfg, s, o, r, s');
    case RL1 => WayThroughL1(cfg, s, o, r, s', p, code);
    case RRedis(_) => WayThroughRedis(cfg, s, o, r, s', p, code);
    case RBloom(_) => WayThroughFilter(cfg, s, o, r, s', p, code);
    case RReplica(_, _) => WayThroughDatabase(cfg, s, o, r, s', p, code);
    case RMaster(_) => WayThroughDatabase(cfg, s, o, r, s', p, code);
    case RNegRedis(_) => NegativesHold(cfg, s, o, r, s', p, code);
    case RNegL1 => NegativesHold(cfg, s, o, r, s', p, code);
    case _ => WayThroughRest(cfg, s, o, r, s', p, code);
  }

  lemma FoundIsFinal(cfg: Config, s: State, o: nat, r: RedirectStep)
    requires o in s.ops.redirects && s.ops.redirects[o].RedirectFound?
    ensures RedirectNext(cfg, s, o, r) == None
  {}

  lemma EnvKeepsFound(cfg: Config, s: State, e: EnvStep, s': State, o: nat, code: string)
    requires EnvNext(cfg, s, e) == Some(s') && FoundUrl(s, o, code)
    ensures FoundUrl(s', o, code)
  {}

  lemma EnvKeepsTheWay(cfg: Config, s: State, e: EnvStep, s': State, o: nat, p: nat, code: string)
    requires EnvNext(cfg, s, e) == Some(s') && OnTheWay(s, o, p, code) && e != AbortRedirect(o)
    ensures OnTheWay(s', o, p, code)
  {}

  lemma EnvFailsNoCreate(cfg: Config, s: State, e: EnvStep, s': State, o: nat)
    requires EnvNext(cfg, s, e) == Some(s')
    ensures CreateHasFailed(s', o) <==> CreateHasFailed(s, o)
  {}

  lemma FoundStays(cfg: Config, s: State, l: Label, s': State, o: nat, code: string)
    requires Next(cfg, s, l) == Some(s') && Extends(s.db.links, s'.db.links) && FoundUrl(s, o, code)
    ensures FoundUrl(s', o, code)
  {
    hide CreateNext, RedirectNext, RebuildNext, ConsumeNext, WorkerNext, EnvNext;
    match l
    case Create(q, c) =>
      if c.CInsert? {
        Frames.InsertFrame(cfg, s, q, c, s');
      } else {
        Frames.CreateFrame(cfg, s, q, c, s');
      }
    case Redirect(q, r) =>
      FoundIsFinal(cfg, s, o, r);
      Frames.RedirectFrame(cfg, s, q, r, s');
    case Rebuild(q, b) => Frames.RebuildFrame(cfg, s, q, b, s');
    case Consume(q, k) => Frames.ConsumeFrame(cfg, s, q, k, s');
    case Work(w, x) => Frames.WorkerFrame(cfg, s, w, x, s');
    case Env(e) => EnvKeepsFound(cfg, s, e, s', o, code);
  }

  lemma WayStays(cfg: Config, s: State, l: Label, s': State, o: nat, p: nat, code: string)
    requires Next(cfg, s, l) == Some(s') && OnTheWay(s, o, p, code)
    requires !(l.Redirect? && l.o == o) && l != Env(AbortRedirect(o))
    ensures OnTheWay(s', o, p, code)
  {
    hide CreateNext, RebuildNext, RedirectNext, ConsumeNext, WorkerNext, EnvNext;
    match l
    case Create(q, c) =>
      if c.CInsert? {
        Frames.InsertFrame(cfg, s, q, c, s');
      } else {
        Frames.CreateFrame(cfg, s, q, c, s');
      }
    case Redirect(q, r) => Frames.RedirectFrame(cfg, s, q, r, s');
    case Rebuild(q, b) => Frames.RebuildFrame(cfg, s, q, b, s');
    case Consume(q, k) => Frames.ConsumeFrame(cfg, s, q, k, s');
    case Work(w, x) => Frames.WorkerFrame(cfg, s, w, x, s');
    case Env(e) => EnvKeepsTheWay(cfg, s, e, s', o, p, code);
  }

  /** No query of the Redirect fails, and it is not abandoned. */
  ghost predicate Undisturbed(run: seq<Label>, o: nat) {
    forall l :: l in run ==> !QueryFails(l, o) && l != Env(AbortRedirect(o))
  }

  /** A Redirect of a clear code answers with its URL, when it answers: over every run in which its queries succeed. */
  lemma {:induction false} CommittedIsFound(cfg: Config, s: State, run: seq<Label>, t: State, o: nat, p: nat,
      code: string)
    requires Invariant(cfg, s) && Clear(cfg, s, p, code) && OnTheWay(s, o, p, code)
    requires Run(cfg, s, run) == Some(t) && Undisturbed(run, o)
    ensures Invariant(cfg, t) && Clear(cfg, t, p, code)
    ensures OnTheWay(t, o, p, code) || FoundUrl(t, o, code)
    decreases |run|
  {
    hide Next, Invariant, AllAgree, Clear, OnTheWay, FoundUrl, QueryFails;
    if run != [] {
      var prefix, last := run[..|run| - 1], run[|run| - 1];
      var before := Run(cfg, s, prefix).value;
      assert last in run && forall l :: l in prefix ==> l in run;
      CommittedIsFound(cfg, s, prefix, before, o, p, code);
      StepKeeps(cfg, before, last, t);
      ClearStays(cfg, before, last, t, p, code);
      AgreementHolds(cfg, before);
      if FoundUrl(before, o, code) {
        FoundStays(cfg, before, last, t, o, code);
      } else if last.Redirect? && last.o == o {
        OwnStepOfRun(cfg, before, last, t, o, p, code);
      } else {
        WayStays(cfg, before, last, t, o, p, code);
      }
    }
  }

  lemma OwnStepOfRun(cfg: Config, s: State, l: Label, s': State, o: nat, p: nat, code: string)
    requires AllAgree(cfg, s) && Next(cfg, s, l) == Some(s') && l.Redirect? && l.o == o && !QueryFails(l, o)
    requires OnTheWay(s, o, p, code) && Clear(cfg, s, p, code)
    ensures OnTheWay(s', o, p, code) || FoundUrl(s', o, code)
  {
    hide RedirectNext, AllAgree, Clear, OnTheWay, FoundUrl, QueryFails;
    OwnStep(cfg, s, o, l.r, s', p, code);
  }

  // ---- and there is a way from everywhere ----

  /** The next step when every call succeeds. */
  function Succeeds(s: State, op: RedirectOp): RedirectStep {
    match op
    case RedirectL1(_, _) => RL1
    case RedirectRecheck(_, _) => RL1
    case RedirectRedis(_, _) => RRedis(true)
    case RedirectBloom(_, _) => RBloom(true)
    case RedirectReplica(_, code) => RReplica(code in s.db.links, true)
    case RedirectMaster(_, _) => RMaster(true)
    case RedirectPosRedis(_, _, _) => RPosRedis(true, 1)
    case _ => RPosL1
  }

  function StepsLeft(op: RedirectOp): nat {
    match op
    case RedirectL1(_, _) => 8
    case RedirectRecheck(_, _) => 7
    case RedirectRedis(_, _) => 6
    case RedirectBloom(_, _) => 5
    case RedirectReplica(_, _) => 4
    case RedirectMaster(_, _) => 3
    case RedirectPosRedis(_, _, _) => 2
    case RedirectPosL1(_, _, _) => 1
    case _ => 0
  }

  lemma LooksOn(cfg: Config, s: State, o: nat, p: nat, code: string) returns (s': State)
    requires OnTheWay(s, o, p, code) && (s.ops.redirects[o].RedirectL1? || s.ops.redirects[o].RedirectRecheck?)
    ensures RedirectNext(cfg, s, o, RL1) == Some(s') && o in s'.ops.redirects
    ensures StepsLeft(s'.ops.redirects[o]) < StepsLeft(s.ops.redirects[o])
  {
    s' := RedirectNext(cfg, s, o, RL1).value;
  }

  lemma AsksOn(cfg: Config, s: State, o: nat, p: nat, code: string) returns (s': State)
    requires OnTheWay(s, o, p, code) && (s.ops.redirects[o].RedirectRedis? || s.ops.redirects[o].RedirectBloom?)
    ensures RedirectNext(cfg, s, o, Succeeds(s, s.ops.redirects[o])) == Some(s') && o in s'.ops.redirects
    ensures StepsLeft(s'.ops.redirects[o]) < StepsLeft(s.ops.redirects[o])
  {
    hide Contains;
    s' := RedirectNext(cfg, s, o, Succeeds(s, s.ops.redirects[o])).value;
  }

  lemma QueriesOn(cfg: Config, s: State, o: nat, p: nat, code: string) returns (s': State)
    requires OnTheWay(s, o, p, code) && (s.ops.redirects[o].RedirectReplica? || s.ops.redirects[o].RedirectMaster?)
    requires code in s.db.links
    ensures RedirectNext(cfg, s, o, Succeeds(s, s.ops.redirects[o])) == Some(s') && o in s'.ops.redirects
    ensures StepsLeft(s'.ops.redirects[o]) < StepsLeft(s.ops.redirects[o])
  {
    s' := RedirectNext(cfg, s, o, Succeeds(s, s.ops.redirects[o])).value;
  }

  lemma StoresOn(cfg: Config, s: State, o: nat, p: nat, code: string) returns (s': State)
    requires OnTheWay(s, o, p, code) && (s.ops.redirects[o].RedirectPosRedis? || s.ops.redirects[o].RedirectPosL1?)
    ensures RedirectNext(cfg, s, o, Succeeds(s, s.ops.redirects[o])) == Some(s') && o in s'.ops.redirects
    ensures StepsLeft(s'.ops.redirects[o]) < StepsLeft(s.ops.redirects[o])
  {
    s' := RedirectNext(cfg, s, o, Succeeds(s, s.ops.redirects[o])).value;
  }

  lemma NotHolding(cfg: Config, s: State, o: nat, p: nat, code: string)
    requires OnTheWay(s, o, p, code) && Clear(cfg, s, p, code)
    ensures !s.ops.redirects[o].RedirectNegRedis? && !s.ops.redirects[o].RedirectNegL1?
  {}

  lemma GoesOn(cfg: Config, s: State, o: nat, p: nat, code: string) returns (s': State)
    requires OnTheWay(s, o, p, code) && Clear(cfg, s, p, code)
    ensures RedirectNext(cfg, s, o, Succeeds(s, s.ops.redirects[o])) == Some(s') && o in s'.ops.redirects
    ensures StepsLeft(s'.ops.redirects[o]) < StepsLeft(s.ops.redirects[o])
  {
    hide RedirectNext, CanReject, NegativeAround, L1Negative, HoldsFinding;
    NotHolding(cfg, s, o, p, code);
    var op := s.ops.redirects[o];
    if op.RedirectL1? || op.RedirectRecheck? {
      s' := LooksOn(cfg, s, o, p, code);
    } else if op.RedirectRedis? || op.RedirectBloom? {
      s' := AsksOn(cfg, s, o, p, code);
    } else if op.RedirectReplica? || op.RedirectMaster? {
      s' := QueriesOn(cfg, s, o, p, code);
    } else {
      s' := StoresOn(cfg, s, o, p, code);
    }
  }

  lemma SucceedsIsNoFault(s: State, o: nat, p: nat, code: string)
    requires OnTheWay(s, o, p, code)
    ensures !QueryFails(Redirect(o, Succeeds(s, s.ops.redirects[o])), o)
  {}

  /** From every stage the Redirect of a clear code can go on to its answer, on its own and with calls that succeed. */
  lemma FoundCanBeReached(cfg: Config, s: State, o: nat, p: nat, code: string) returns (run: seq<Label>, t: State)
    requires Invariant(cfg, s) && Clear(cfg, s, p, code) && OnTheWay(s, o, p, code)
    ensures Run(cfg, s, run) == Some(t) && Undisturbed(run, o) && FoundUrl(t, o, code)
    ensures forall l :: l in run ==> l.Redirect? && l.o == o
    decreases StepsLeft(s.ops.redirects[o])
  {
    hide RedirectNext, Invariant, AllAgree, Clear, QueryFails;
    var l := Redirect(o, Succeeds(s, s.ops.redirects[o]));
    var s' := GoesOn(cfg, s, o, p, code);
    SucceedsIsNoFault(s, o, p, code);
    Extend(cfg, s, [], l);
    assert [] + [l] == [l];
    AgreementHolds(cfg, s);
    StepKeeps(cfg, s, l, s');
    ClearStays(cfg, s, l, s', p, code);
    OwnStep(cfg, s, o, l.r, s', p, code);
    if FoundUrl(s', o, code) {
      run, t := [l], s';
    } else {
      var rest;
      rest, t := FoundCanBeReached(cfg, s', o, p, code);
      RunsJoin(cfg, s, [l], s', rest);
      run := [l] + rest;
    }
  }
}
