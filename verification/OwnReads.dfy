/** The comment at the end of Create in internal/service/shortlink.go says that the new code can be read on the same
    pod at once, because Create has put it in the pod's L1.  Whether the entry can be trusted for its lifetime depends
    on the Redirects of the code that are already past L1 on that pod: `Endangered` says which of them can still store
    "not found" over it. */
module OwnReads {
  import opened Common
  import opened SystemModel
  import opened Agreement
  import opened SystemTheorems
  import Bloom
  import Frames
  import Staleness

  /** The pod's L1 answers with the URL, at least through `until`. */
  predicate Shows(s: State, p: nat, code: string, url: string, until: Time) {
    code in PodAt(s, p).l1 && PodAt(s, p).l1[code].value == url && PodAt(s, p).l1[code].expireAt >= until
  }

  /** A Redirect on the pod is about to store a negative finding for the code. */
  predicate StoresNegative(s: State, l: Label, p: nat, code: string) {
    && l.Redirect? && l.r.RNegL1? && l.o in s.ops.redirects
    && s.ops.redirects[l.o].RedirectNegL1? && s.ops.redirects[l.o].p == p && s.ops.redirects[l.o].code == code
  }

  /** Eviction or a restart of the pod. */
  predicate Forgets(l: Label, p: nat, code: string) {
    l == Env(L1Drop(p, code)) || l == Env(PodReset(p))
  }

  lemma SetL1Shows(s: State, p: nat, q: nat, code: string, c: string, url: string, value: string, ev: Time, until: Time)
    requires Shows(s, p, code, url, until) && until <= s.now + L1_TTL
    ensures Shows(SetL1(s, q, c, value, ev), p, code, url, until) <==> (q == p && c == code ==> value == url)
  {}

  lemma PodsOnly(s: State, s': State, p: nat, code: string, url: string, until: Time)
    requires PodAt(s', p).l1 == PodAt(s, p).l1
    ensures Shows(s', p, code, url, until) <==> Shows(s, p, code, url, until)
  {}

  lemma CreateL1(cfg: Config, s: State, o: nat, c: CreateStep, s': State, p: nat)
    requires CreateNext(cfg, s, o, c) == Some(s')
    ensures if c.CSetL1?
            then o in s.ops.creates && s.ops.creates[o].CreateSetL1? &&
                 s'.pods == SetL1(s, s.ops.creates[o].p, s.ops.creates[o].code, s.ops.creates[o].url, 0).pods
            else PodAt(s', p).l1 == PodAt(s, p).l1
  {}

  lemma CreateShows(cfg: Config, s: State, o: nat, c: CreateStep, s': State, p: nat, code: string, url: string,
      until: Time)
    requires AllAgree(cfg, s) && IsUrl(s.db.links, code, url) && CreateNext(cfg, s, o, c) == Some(s')
    requires Shows(s, p, code, url, until) && until <= s.now + L1_TTL
    ensures Shows(s', p, code, url, until)
  {
    hide CreateNext, SetL1, Shows;
    CreateL1(cfg, s, o, c, s', p);
    if c.CSetL1? {
      var op := s.ops.creates[o];
      assert CreateOk(cfg, s.db.links, op);
      SetL1Shows(s, p, op.p, code, op.code, url, op.url, 0, until);
      PodsOnly(SetL1(s, op.p, op.code, op.url, 0), s', p, code, url, until);
    } else {
      PodsOnly(s, s', p, code, url, until);
    }
  }

  /** What a Redirect writes to L1. */
  lemma RedirectL1Write(cfg: Config, s: State, o: nat, r: RedirectStep, s': State)
    requires RedirectNext(cfg, s, o, r) == Some(s')
    ensures if r.RPosL1? then
              o in s.ops.redirects && s.ops.redirects[o].RedirectPosL1? &&
              s'.pods == SetL1(s, s.ops.redirects[o].p, s.ops.redirects[o].code, s.ops.redirects[o].url, 0).pods
            else if r.RNegL1? then
              o in s.ops.redirects && s.ops.redirects[o].RedirectNegL1? &&
              s'.pods == SetL1(s, s.ops.redirects[o].p, s.ops.redirects[o].code, "", s.ops.redirects[o].evidence).pods
            else s'.pods == s.pods
  {}

  lemma RedirectShows(cfg: Config, s: State, o: nat, r: RedirectStep, s': State, p: nat, code: string, url: string,
      until: Time)
    requires AllAgree(cfg, s) && IsUrl(s.db.links, code, url) && url != "" && RedirectNext(cfg, s, o, r) == Some(s')
    requires Shows(s, p, code, url, until) && until <= s.now + L1_TTL
    ensures Shows(s', p, code, url, until) <==> !StoresNegative(s, Redirect(o, r), p, code)
  {
    hide RedirectNext, SetL1, Shows;
    RedirectL1Write(cfg, s, o, r, s');
    if r.RPosL1? {
      var op := s.ops.redirects[o];
      assert RedirectOk(s.db.links, op);
      SetL1Shows(s, p, op.p, code, op.code, url, op.url, 0, until);
      PodsOnly(SetL1(s, op.p, op.code, op.url, 0), s', p, code, url, until);
    } else if r.RNegL1? {
      var op := s.ops.redirects[o];
      SetL1Shows(s, p, op.p, code, op.code, url, "", op.evidence, until);
      PodsOnly(SetL1(s, op.p, op.code, "", op.evidence), s', p, code, url, until);
    } else {
      PodsOnly(s, s', p, code, url, until);
    }
  }

  lemma PipelineL1(cfg: Config, s: State, o: nat, k: ConsumeStep, s': State)
    requires ConsumeNext(cfg, s, o, k) == Some(s') && k.KWrite?
    ensures s'.pods == s.pods
  {
    hide Write, CmdFits;
    Frames.WriteFrame(s, s.ops.deliveries[o].msg, k.cmd);
  }

  lemma ConsumeL1(cfg: Config, s: State, o: nat, k: ConsumeStep, s': State, p: nat)
    requires ConsumeNext(cfg, s, o, k) == Some(s') && !k.KWrite? && !k.KSetL1?
    ensures PodAt(s', p).l1 == PodAt(s, p).l1
  {}

  lemma DeliveryL1(cfg: Config, s: State, o: nat, k: ConsumeStep, s': State)
    requires ConsumeNext(cfg, s, o, k) == Some(s') && k.KSetL1?
    ensures o in s.ops.deliveries
    ensures s'.pods == SetL1(s, s.ops.deliveries[o].p, s.ops.deliveries[o].msg.code, s.ops.deliveries[o].msg.url,
              0).pods
  {}

  lemma ConsumeShows(cfg: Config, s: State, o: nat, k: ConsumeStep, s': State, p: nat, code: string, url: string,
      until: Time)
    requires AllAgree(cfg, s) && IsUrl(s.db.links, code, url) && ConsumeNext(cfg, s, o, k) == Some(s')
    requires Shows(s, p, code, url, until) && until <= s.now + L1_TTL
    ensures Shows(s', p, code, url, until)
  {
    hide ConsumeNext, SetL1, Shows;
    if k.KWrite? {
      PipelineL1(cfg, s, o, k, s');
      PodsOnly(s, s', p, code, url, until);
      return;
    }
    if k.KSetL1? {
      DeliveryL1(cfg, s, o, k, s');
      var m, q := s.ops.deliveries[o].msg, s.ops.deliveries[o].p;
      assert Agrees(s.db.links, m);
      SetL1Shows(s, p, q, code, m.code, url, m.url, 0, until);
      PodsOnly(SetL1(s, q, m.code, m.url, 0), s', p, code, url, until);
    } else {
      ConsumeL1(cfg, s, o, k, s', p);
      PodsOnly(s, s', p, code, url, until);
    }
  }

  lemma EnvShows(cfg: Config, s: State, e: EnvStep, s': State, p: nat, code: string, url: string, until: Time)
    requires EnvNext(cfg, s, e) == Some(s') && Shows(s, p, code, url, until)
    ensures Shows(s', p, code, url, until) <==> !Forgets(Env(e), p, code)
  {}

  /** One step takes the pod's answer away exactly when it is one of these two. */
  lemma LostIff(cfg: Config, s: State, l: Label, s': State, p: nat, code: string, url: string, until: Time)
    requires AllAgree(cfg, s) && IsUrl(s.db.links, code, url) && Next(cfg, s, l) == Some(s')
    requires Shows(s, p, code, url, until) && until <= s.now + L1_TTL
    ensures Shows(s', p, code, url, until) <==> !StoresNegative(s, l, p, code) && !Forgets(l, p, code)
  {
    hide CreateNext, RedirectNext, RebuildNext, ConsumeNext, WorkerNext, EnvNext, Shows, AllAgree;
    UrlsAreNotBlank(cfg, s, code);
    match l
    case Create(o, c) => CreateShows(cfg, s, o, c, s', p, code, url, until);
    case Redirect(o, r) => RedirectShows(cfg, s, o, r, s', p, code, url, until);
    case Rebuild(o, b) => Frames.RebuildFrame(cfg, s, o, b, s'); PodsOnly(s, s', p, code, url, until);
    case Consume(o, k) => ConsumeShows(cfg, s, o, k, s', p, code, url, until);
    case Work(w, x) => Frames.WorkerFrame(cfg, s, w, x, s'); PodsOnly(s, s', p, code, url, until);
    case Env(e) => EnvShows(cfg, s, e, s', p, code, url, until);
  }

  lemma UrlsAreNotBlank(cfg: Config, s: State, code: string)
    requires AllAgree(cfg, s)
    ensures code in s.db.links ==> s.db.links[code].url != ""
  {}

  lemma AgreementHolds(cfg: Config, s: State)
    requires Invariant(cfg, s)
    ensures AllAgree(cfg, s)
  {}

  /** No eviction of the entry and no restart of the pod. */
  ghost predicate Remembers(run: seq<Label>, p: nat, code: string) {
    forall l :: l in run ==> !Forgets(l, p, code)
  }

  // ---- what can still store a negative ----

  function BitsOf(cfg: Config, codes: set<string>): set<nat> {
    set c, b | c in codes && b in Bloom.Bits(cfg.filter, c) :: b
  }

  /** The codes that a rebuild has still to write. */
  function Ahead(s: State, op: RebuildOp): set<string> {
    if op.RebuildScan? then set c | c in s.db.links && s.db.links[c].id > op.lastID
    else op.page + set c | c in s.db.links && s.db.links[c].id > op.upto
  }

  /** The bits that the filter has at least when the rebuild finishes. */
  function Final(cfg: Config, s: State, op: RebuildOp): set<nat> {
    s.redis.bloom + BitsOf(cfg, Ahead(s, op))
  }

  /** The pod's ready filter lacks the code, or a rebuild under way can finish without it. */
  ghost predicate CanReject(cfg: Config, s: State, p: nat, code: string) {
    || (PodAt(s, p).bloomReady && !Contains(cfg, s.redis.bloom, code))
    || exists o :: o in s.ops.rebuilds && s.ops.rebuilds[o].p == p
        && !Contains(cfg, Final(cfg, s, s.ops.rebuilds[o]), code)
  }

  /** Redis answers "not found" for the code, or some pod is about to make it do so. */
  ghost predicate NegativeAround(s: State, code: string) {
    || (RedisLive(s.redis.link, code, s.now) && s.redis.link[code].value == "")
    || exists o :: o in s.ops.redirects && s.ops.redirects[o].RedirectNegRedis? && s.ops.redirects[o].code == code
  }

  /** A Redirect on the pod that can still come to store "not found" for the code. */
  ghost predicate Menaces(cfg: Config, s: State, p: nat, code: string, op: RedirectOp) {
    match op
    case RedirectRedis(q, c) => q == p && c == code && (CanReject(cfg, s, p, code) || NegativeAround(s, code))
    case RedirectBloom(q, c) => q == p && c == code && CanReject(cfg, s, p, code)
    case RedirectNegRedis(q, c, _) => q == p && c == code
    case RedirectNegL1(q, c, _, _) => q == p && c == code
    case _ => false
  }

  ghost predicate Endangered(cfg: Config, s: State, p: nat, code: string) {
    exists o :: o in s.ops.redirects && Menaces(cfg, s, p, code, s.ops.redirects[o])
  }

  // ---- nothing but these: the condition is kept ----

  lemma FinalGrows(cfg: Config, s: State, s': State, op: RebuildOp)
    requires Extends(s.db.links, s'.db.links) && s.redis.bloom <= s'.redis.bloom
    ensures Final(cfg, s, op) <= Final(cfg, s', op)
  {
    hide Bloom.Bits;
    assert Ahead(s, op) <= Ahead(s', op);
  }

  /** The two states differ in nothing that lets a filter reject. */
  ghost predicate FilterKept(s: State, s': State) {
    && Extends(s.db.links, s'.db.links) && s.redis.bloom <= s'.redis.bloom
    && (forall p :: PodAt(s', p).bloomReady ==> PodAt(s, p).bloomReady)
    && (forall o :: o in s'.ops.rebuilds ==> o in s.ops.rebuilds && s'.ops.rebuilds[o] == s.ops.rebuilds[o])
  }

  lemma KeptCannotReject(cfg: Config, s: State, s': State, p: nat, code: string)
    requires FilterKept(s, s') && CanReject(cfg, s', p, code)
    ensures CanReject(cfg, s, p, code)
  {
    hide Final, Bloom.Bits;
    if !(PodAt(s', p).bloomReady && !Contains(cfg, s'.redis.bloom, code)) {
      var o :| o in s'.ops.rebuilds && s'.ops.rebuilds[o].p == p
          && !Contains(cfg, Final(cfg, s', s'.ops.rebuilds[o]), code);
      FinalGrows(cfg, s, s', s.ops.rebuilds[o]);
    }
  }

  lemma BitsOfMember(cfg: Config, codes: set<string>, code: string)
    requires code in codes
    ensures Bloom.Bits(cfg.filter, code) <= BitsOf(cfg, codes)
  {}

  /** A rebuild that has just begun will write every committed code. */
  lemma BeginsAhead(cfg: Config, s: State, o: nat, b: RebuildStep, s': State, code: string)
    requires RebuildNext(cfg, s, o, b) == Some(s') && b.BBegin? && code in s.db.links && s.db.links[code].id > 0
    ensures o in s'.ops.rebuilds && Contains(cfg, Final(cfg, s', s'.ops.rebuilds[o]), code)
    ensures s'.ops.rebuilds == s.ops.rebuilds[o := s'.ops.rebuilds[o]] && s'.pods == s.pods
  {
    BitsOfMember(cfg, Ahead(s', s'.ops.rebuilds[o]), code);
    hide Bloom.Bits, BitsOf;
  }

  /** What a rebuild under way has still to write only becomes what it has written. */
  lemma GoesAhead(cfg: Config, s: State, o: nat, b: RebuildStep, s': State)
    requires RebuildNext(cfg, s, o, b) == Some(s') && (b.BPage? || b.BBit? || b.BNext?)
    ensures o in s.ops.rebuilds && o in s'.ops.rebuilds && s'.ops.rebuilds[o].p == s.ops.rebuilds[o].p
    ensures s'.ops.rebuilds == s.ops.rebuilds[o := s'.ops.rebuilds[o]] && s'.pods == s.pods
    ensures Final(cfg, s, s.ops.rebuilds[o]) <= Final(cfg, s', s'.ops.rebuilds[o])
  {
    hide Bloom.Bits;
    var op, op' := s.ops.rebuilds[o], s'.ops.rebuilds[o];
    if b.BPage? {
      assert Ahead(s', op') == Ahead(s, op);
    } else if b.BBit? {
      assert Ahead(s', op') == Ahead(s, op);
    } else {
      assert BitsOf(cfg, op.page) <= s.redis.bloom;
      assert Ahead(s, op) == op.page + Ahead(s', op');
    }
  }

  lemma FinishesAhead(cfg: Config, s: State, o: nat, b: RebuildStep, s': State)
    requires RebuildNext(cfg, s, o, b) == Some(s') && b.BFinish?
    ensures o in s.ops.rebuilds && s'.ops.rebuilds == s.ops.rebuilds - {o}
    ensures Final(cfg, s, s.ops.rebuilds[o]) == s.redis.bloom
    ensures forall p :: PodAt(s', p).bloomReady ==> PodAt(s, p).bloomReady || p == s.ops.rebuilds[o].p
  {
    hide Bloom.Bits;
    assert Ahead(s, s.ops.rebuilds[o]) == {};
  }

  lemma RebuildCannotReject(cfg: Config, s: State, o: nat, b: RebuildStep, s': State, p: nat, code: string)
    requires RebuildNext(cfg, s, o, b) == Some(s') && code in s.db.links && s.db.links[code].id > 0
    requires CanReject(cfg, s', p, code)
    ensures CanReject(cfg, s, p, code)
  {
    hide RebuildNext, Final, Bloom.Bits;
    Frames.RebuildFrame(cfg, s, o, b, s');
    if b.BBegin? {
      BeginsAhead(cfg, s, o, b, s', code);
    } else if b.BFinish? {
      FinishesAhead(cfg, s, o, b, s');
    } else {
      GoesAhead(cfg, s, o, b, s');
    }
    if PodAt(s', p).bloomReady && !Contains(cfg, s'.redis.bloom, code) {
      assert PodAt(s, p).bloomReady || !Contains(cfg, Final(cfg, s, s.ops.rebuilds[o]), code);
    } else {
      var q :| q in s'.ops.rebuilds && s'.ops.rebuilds[q].p == p
          && !Contains(cfg, Final(cfg, s', s'.ops.rebuilds[q]), code);
      if q != o {
        FinalGrows(cfg, s, s', s.ops.rebuilds[q]);
      }
    }
  }

  /** No step lets a filter reject a committed code that none could reject before. */
  lemma RejectionShrinks(cfg: Config, s: State, l: Label, s': State, p: nat, code: string)
    requires AllAgree(cfg, s) && AllAgree(cfg, s') && Extends(s.db.links, s'.db.links) && Next(cfg, s, l) == Some(s')
    requires code in s.db.links && CanReject(cfg, s', p, code)
    ensures CanReject(cfg, s, p, code)
  {
    hide CreateNext, RedirectNext, RebuildNext, ConsumeNext, WorkerNext, EnvNext, AllAgree, CanReject;
    LinksAreOk(cfg, s);
    if l.Rebuild? {
      RebuildCannotReject(cfg, s, l.o, l.b, s', p, code);
    } else {
      match l {
        case Create(o, c) => if c.CInsert? { Frames.InsertFrame(cfg, s, o, c, s'); }
            else { Frames.CreateFrame(cfg, s, o, c, s'); }
        case Redirect(o, r) => Frames.RedirectFrame(cfg, s, o, r, s');
        case Consume(o, k) => Frames.ConsumeFrame(cfg, s, o, k, s');
        case Work(w, x) => Frames.WorkerFrame(cfg, s, w, x, s');
        case Env(e) => Frames.EnvFrame(cfg, s, e, s');
      }
      KeptCannotReject(cfg, s, s', p, code);
    }
  }

  // ---- negatives in Redis ----

  /** How a Redirect comes to the places where negatives are made and kept. */
  ghost predicate Turns(cfg: Config, s: State, op: RedirectOp, op': RedirectOp) {
    match op'
    case RedirectRedis(p, code) => op == RedirectRecheck(p, code) && !L1Live(PodAt(s, p).l1, code, s.now)
    case RedirectBloom(p, code) => op == RedirectRedis(p, code)
    case RedirectNegRedis(p, code, _) => op == RedirectMaster(p, code) && code !in s.db.links
    case RedirectNegL1(p, code, _, _) =>
      || (op.RedirectNegRedis? && op.p == p && op.code == code)
      || (op == RedirectRedis(p, code) && RedisLive(s.redis.link, code, s.now) && s.redis.link[code].value == "")
      || (op == RedirectBloom(p, code) && PodAt(s, p).bloomReady && !Contains(cfg, s.redis.bloom, code))
    case _ => true
  }

  lemma TurnsAtL1(cfg: Config, s: State, o: nat, r: RedirectStep, s': State)
    requires RedirectNext(cfg, s, o, r) == Some(s') && o in s.ops.redirects && r.RL1?
    ensures o in s'.ops.redirects && Turns(cfg, s, s.ops.redirects[o], s'.ops.redirects[o])
  {
    hide RedirectNext, Contains;
    Frames.L1StepIs(cfg, s, o, r, s');
  }

  lemma TurnsAtRedis(cfg: Config, s: State, o: nat, r: RedirectStep, s': State)
    requires RedirectNext(cfg, s, o, r) == Some(s') && o in s.ops.redirects && (r.RRedis?)
    ensures o in s'.ops.redirects && Turns(cfg, s, s.ops.redirects[o], s'.ops.redirects[o])
  {}

  lemma TurnsAtBloom(cfg: Config, s: State, o: nat, r: RedirectStep, s': State)
    requires RedirectNext(cfg, s, o, r) == Some(s') && o in s.ops.redirects && (r.RBloom?)
    ensures o in s'.ops.redirects && Turns(cfg, s, s.ops.redirects[o], s'.ops.redirects[o])
  {}

  lemma TurnsAtReplica(cfg: Config, s: State, o: nat, r: RedirectStep, s': State)
    requires RedirectNext(cfg, s, o, r) == Some(s') && r.RReplica?
    ensures o in s'.ops.redirects
    ensures var op' := s'.ops.redirects[o]; op'.RedirectFailed? || op'.RedirectPosRedis? || op'.RedirectMaster?
  {}

  lemma TurnsAtMaster(cfg: Config, s: State, o: nat, r: RedirectStep, s': State)
    requires RedirectNext(cfg, s, o, r) == Some(s') && r.RMaster?
    ensures o in s.ops.redirects && o in s'.ops.redirects
    ensures var op, op' := s.ops.redirects[o], s'.ops.redirects[o];
            || op'.RedirectFailed? || op'.RedirectPosRedis?
            || (op'.RedirectNegRedis? && op == RedirectMaster(op'.p, op'.code) && op'.code !in s.db.links)
  {}

  lemma TurnsAtStores(cfg: Config, s: State, o: nat, r: RedirectStep, s': State)
    requires RedirectNext(cfg, s, o, r) == Some(s') && o in s.ops.redirects
              && (r.RNegRedis? || r.RNegL1? || r.RPosRedis? || r.RPosL1?)
    ensures o in s'.ops.redirects && Turns(cfg, s, s.ops.redirects[o], s'.ops.redirects[o])
  {}

  lemma TurnsSafely(cfg: Config, s: State, op: RedirectOp, op': RedirectOp)
    requires || op'.RedirectFailed? || op'.RedirectPosRedis? || op'.RedirectMaster?
             || (op'.RedirectNegRedis? && op == RedirectMaster(op'.p, op'.code) && op'.code !in s.db.links)
    ensures Turns(cfg, s, op, op')
  {}

  lemma NoSecondBegin(cfg: Config, s: State, o: nat, r: RedirectStep, s': State)
    requires RedirectNext(cfg, s, o, r) == Some(s') && r.RBegin?
    ensures o !in s.ops.redirects
  {}

  lemma RedirectTurns(cfg: Config, s: State, o: nat, r: RedirectStep, s': State)
    requires RedirectNext(cfg, s, o, r) == Some(s') && o in s.ops.redirects
    ensures o in s'.ops.redirects && Turns(cfg, s, s.ops.redirects[o], s'.ops.redirects[o])
  {
    hide Turns, RedirectNext;
    match r
    case RBegin(_, _) => NoSecondBegin(cfg, s, o, r, s');
    case RL1 => TurnsAtL1(cfg, s, o, r, s');
    case RRedis(_) => TurnsAtRedis(cfg, s, o, r, s');
    case RBloom(_) => TurnsAtBloom(cfg, s, o, r, s');
    case RReplica(_, _) => TurnsAtReplica(cfg, s, o, r, s'); TurnsSafely(cfg, s, s.ops.redirects[o],
        s'.ops.redirects[o]);
    case RMaster(_) => TurnsAtMaster(cfg, s, o, r, s'); TurnsSafely(cfg, s, s.ops.redirects[o], s'.ops.redirects[o]);
    case _ => TurnsAtStores(cfg, s, o, r, s');
  }

  lemma RedirectPuts(cfg: Config, s: State, o: nat, r: RedirectStep, s': State, code: string)
    requires RedirectNext(cfg, s, o, r) == Some(s') && (r.RNegRedis? || r.RPosRedis?)
    requires AllAgree(cfg, s) && code in s'.redis.link && s'.redis.link[code].value == ""
    ensures (code in s.redis.link && s'.redis.link[code] == s.redis.link[code]) ||
            (o in s.ops.redirects && s.ops.redirects[o].RedirectNegRedis? && s.ops.redirects[o].code == code)
  {
    RedirectOpOk(cfg, s, o);
    hide AllAgree;
  }

  lemma RedirectLeavesRedis(cfg: Config, s: State, o: nat, r: RedirectStep, s': State)
    requires RedirectNext(cfg, s, o, r) == Some(s') && !r.RNegRedis? && !r.RPosRedis?
    ensures s'.redis == s.redis
  {}

  lemma RedirectAddsNoNegative(cfg: Config, s: State, o: nat, r: RedirectStep, s': State, code: string)
    requires AllAgree(cfg, s) && RedirectNext(cfg, s, o, r) == Some(s') && code in s.db.links
              && NegativeAround(s', code)
    ensures NegativeAround(s, code)
  {
    hide RedirectNext, AllAgree;
    Frames.RedirectFrame(cfg, s, o, r, s');
    if RedisLive(s'.redis.link, code, s'.now) && s'.redis.link[code].value == "" {
      if r.RNegRedis? || r.RPosRedis? {
        RedirectPuts(cfg, s, o, r, s', code);
      } else {
        RedirectLeavesRedis(cfg, s, o, r, s');
      }
    } else {
      var q :| q in s'.ops.redirects && s'.ops.redirects[q].RedirectNegRedis? && s'.ops.redirects[q].code == code;
      if q == o {
        RedirectBegan(cfg, s, o, r, s');
        RedirectTurns(cfg, s, o, r, s');
      }
    }
  }

  lemma RedirectBegan(cfg: Config, s: State, o: nat, r: RedirectStep, s': State)
    requires RedirectNext(cfg, s, o, r) == Some(s')
    ensures o in s.ops.redirects || (o in s'.ops.redirects && s'.ops.redirects[o].RedirectL1?)
  {}

  lemma EnvAddsNoNegative(cfg: Config, s: State, e: EnvStep, s': State, code: string)
    requires EnvNext(cfg, s, e) == Some(s') && NegativeAround(s', code)
    ensures NegativeAround(s, code)
  {}

  lemma KeptIsNotAround(s: State, s': State, code: string)
    requires Staleness.NoNewNegative(s, s') && NegativeAround(s', code)
    ensures NegativeAround(s, code)
  {}

  lemma NegativesShrink(cfg: Config, s: State, l: Label, s': State, code: string)
    requires AllAgree(cfg, s) && Next(cfg, s, l) == Some(s') && code in s.db.links && NegativeAround(s', code)
    ensures NegativeAround(s, code)
  {
    hide CreateNext, RedirectNext, RebuildNext, ConsumeNext, WorkerNext, EnvNext, AllAgree, Staleness.NoNewNegative;
    match l
    case Create(o, c) =>
      Staleness.CreateStoresPositives(cfg, s, o, c, s');
      KeptIsNotAround(s, s', code);
    case Redirect(o, r) => RedirectAddsNoNegative(cfg, s, o, r, s', code);
    case Rebuild(o, b) => Frames.RebuildFrame(cfg, s, o, b, s');
    case Consume(o, k) =>
      Staleness.ConsumeStoresPositives(cfg, s, o, k, s');
      KeptIsNotAround(s, s', code);
    case Work(w, x) => Frames.WorkerFrame(cfg, s, w, x, s');
    case Env(e) => EnvAddsNoNegative(cfg, s, e, s', code);
  }

  // ---- one step, one run ----

  lemma OldMenace(cfg: Config, s: State, s': State, p: nat, code: string, op: RedirectOp)
    requires Menaces(cfg, s', p, code, op)
    requires CanReject(cfg, s', p, code) ==> CanReject(cfg, s, p, code)
    requires NegativeAround(s', code) ==> NegativeAround(s, code)
    ensures Menaces(cfg, s, p, code, op)
  {
    hide CanReject, NegativeAround;
  }

  /** A Redirect gets no menacing place without having had one, as long as L1 answers. */
  lemma NoNewMenace(cfg: Config, s: State, o: nat, r: RedirectStep, s': State, p: nat, code: string, url: string,
      until: Time)
    requires RedirectNext(cfg, s, o, r) == Some(s') && code in s.db.links
    requires Shows(s, p, code, url, until) && s.now <= until
    requires CanReject(cfg, s', p, code) ==> CanReject(cfg, s, p, code)
    requires NegativeAround(s', code) ==> NegativeAround(s, code)
    requires o in s'.ops.redirects && Menaces(cfg, s', p, code, s'.ops.redirects[o])
    ensures o in s.ops.redirects && Menaces(cfg, s, p, code, s.ops.redirects[o])
  {
    hide RedirectNext, Bloom.Bits, Final;
    RedirectBegan(cfg, s, o, r, s');
    RedirectTurns(cfg, s, o, r, s');
  }

  lemma StaysCalm(cfg: Config, s: State, l: Label, s': State, p: nat, code: string, url: string, until: Time)
    requires Invariant(cfg, s) && IsUrl(s.db.links, code, url) && Next(cfg, s, l) == Some(s')
    requires Shows(s, p, code, url, until) && s'.now <= until && Endangered(cfg, s', p, code)
    ensures Endangered(cfg, s, p, code)
  {
    hide CreateNext, RedirectNext, RebuildNext, ConsumeNext, WorkerNext, EnvNext;
    hide Invariant, AllAgree, CanReject, NegativeAround, Menaces, Shows, Onwards;
    StepKeeps(cfg, s, l, s');
    TimeGoesOn(cfg, s, l, s');
    AgreementHolds(cfg, s);
    AgreementHolds(cfg, s');
    if CanReject(cfg, s', p, code) {
      RejectionShrinks(cfg, s, l, s', p, code);
    }
    if NegativeAround(s', code) {
      NegativesShrink(cfg, s, l, s', code);
    }
    var o :| o in s'.ops.redirects && Menaces(cfg, s', p, code, s'.ops.redirects[o]);
    if l.Redirect? && l.o == o {
      NoNewMenace(cfg, s, o, l.r, s', p, code, url, until);
    } else {
      OthersStay(cfg, s, l, s', o);
      OldMenace(cfg, s, s', p, code, s'.ops.redirects[o]);
    }
  }

  lemma OthersStay(cfg: Config, s: State, l: Label, s': State, o: nat)
    requires Next(cfg, s, l) == Some(s') && o in s'.ops.redirects && !(l.Redirect? && l.o == o)
    ensures o in s.ops.redirects && s'.ops.redirects[o] == s.ops.redirects[o]
  {
    hide CreateNext, RedirectNext, RebuildNext, ConsumeNext, WorkerNext;
    match l
    case Create(o, c) => if c.CInsert? { Frames.InsertFrame(cfg, s, o, c, s'); }
        else { Frames.CreateFrame(cfg, s, o, c, s'); }
    case Redirect(o, r) => Frames.RedirectFrame(cfg, s, o, r, s');
    case Rebuild(o, b) => Frames.RebuildFrame(cfg, s, o, b, s');
    case Consume(o, k) => Frames.ConsumeFrame(cfg, s, o, k, s');
    case Work(w, x) => Frames.WorkerFrame(cfg, s, w, x, s');
    case Env(e) =>
  }

  lemma CalmStoresNothing(cfg: Config, s: State, l: Label, p: nat, code: string)
    requires StoresNegative(s, l, p, code)
    ensures Endangered(cfg, s, p, code)
  {
    assert Menaces(cfg, s, p, code, s.ops.redirects[l.o]);
  }

  lemma {:induction false} CalmRun(cfg: Config, s: State, run: seq<Label>, t: State, p: nat, code: string, url: string,
      until: Time)
    requires Invariant(cfg, s) && IsUrl(s.db.links, code, url) && Run(cfg, s, run) == Some(t)
              && t.now <= until <= s.now + L1_TTL
    requires Shows(s, p, code, url, until) && !Endangered(cfg, s, p, code) && Remembers(run, p, code)
    ensures Shows(t, p, code, url, until) && !Endangered(cfg, t, p, code)
    decreases |run|
  {
    hide Invariant, AllAgree, Next, Endangered, Shows, StoresNegative, Forgets;
    if run != [] {
      var prefix, last := run[..|run| - 1], run[|run| - 1];
      var before := Run(cfg, s, prefix).value;
      RunKeeps(cfg, s, prefix, before);
      TimeGoesOn(cfg, before, last, t);
      CalmRun(cfg, s, prefix, before, p, code, url, until);
      AgreementHolds(cfg, before);
      LostIff(cfg, before, last, t, p, code, url, until);
      if StoresNegative(before, last, p, code) {
        CalmStoresNothing(cfg, before, last, p, code);
      }
      if Endangered(cfg, t, p, code) {
        StaysCalm(cfg, before, last, t, p, code, url, until);
      }
    }
  }

  // ---- the other half: an endangered entry can be lost ----

  lemma Extend(cfg: Config, s: State, run: seq<Label>, l: Label)
    requires Run(cfg, s, run).Some?
    ensures Run(cfg, s, run + [l]) == Next(cfg, Run(cfg, s, run).value, l)
  {
    assert (run + [l])[..|run|] == run;
  }

  /** `t` is where `run` leads from `s`, at the same time and without an eviction or a restart. */
  ghost predicate Leads(cfg: Config, s: State, run: seq<Label>, t: State, p: nat, code: string) {
    Run(cfg, s, run) == Some(t) && t.now == s.now && Remembers(run, p, code)
  }

  lemma Starts(cfg: Config, s: State, p: nat, code: string)
    ensures Leads(cfg, s, [], s, p, code)
  {}

  lemma Onward(cfg: Config, s: State, run: seq<Label>, t: State, l: Label, t': State, p: nat, code: string)
    requires Leads(cfg, s, run, t, p, code) && Next(cfg, t, l) == Some(t') && t'.now == t.now && !Forgets(l, p, code)
    ensures Leads(cfg, s, run + [l], t', p, code)
  {
    hide Next, Forgets;
    Extend(cfg, s, run, l);
  }

  lemma JoinLeads(cfg: Config, s: State, run: seq<Label>, t: State, run': seq<Label>, u: State, p: nat, code: string)
    requires Leads(cfg, s, run, t, p, code) && Leads(cfg, t, run', u, p, code)
    ensures Leads(cfg, s, run + run', u, p, code)
  {
    hide Next, Forgets;
    RunsJoin(cfg, s, run, t, run');
  }

  /** The last step: L1 gets the negative. */
  lemma StoreLoses(cfg: Config, s: State, o: nat, p: nat, code: string, url: string, until: Time)
      returns (run: seq<Label>, t: State)
    requires o in s.ops.redirects && s.ops.redirects[o].RedirectNegL1?
    requires s.ops.redirects[o].p == p && s.ops.redirects[o].code == code && url != ""
    ensures Leads(cfg, s, run, t, p, code) && !Shows(t, p, code, url, until)
  {
    hide Leads;
    var l := Redirect(o, RNegL1);
    t := RedirectNext(cfg, s, o, RNegL1).value;
    Starts(cfg, s, p, code);
    Onward(cfg, s, [], s, l, t, p, code);
    run := [] + [l];
  }

  lemma ThenStoreLoses(cfg: Config, s: State, l: Label, t: State, o: nat, p: nat, code: string, url: string,
      until: Time) returns (run: seq<Label>, u: State)
    requires Next(cfg, s, l) == Some(t) && t.now == s.now && !Forgets(l, p, code)
    requires o in t.ops.redirects && t.ops.redirects[o].RedirectNegL1?
    requires t.ops.redirects[o].p == p && t.ops.redirects[o].code == code && url != ""
    ensures Leads(cfg, s, run, u, p, code) && !Shows(u, p, code, url, until)
  {
    hide Leads, Next, Shows, Forgets;
    Starts(cfg, s, p, code);
    Onward(cfg, s, [], s, l, t, p, code);
    var rest;
    rest, u := StoreLoses(cfg, t, o, p, code, url, until);
    JoinLeads(cfg, s, [] + [l], t, rest, u, p, code);
    run := [] + [l] + rest;
  }

  /** The Redirect has found the code to be absent but has not told Redis. */
  lemma FindingLoses(cfg: Config, s: State, o: nat, p: nat, code: string, url: string, until: Time)
      returns (run: seq<Label>, t: State)
    requires o in s.ops.redirects && s.ops.redirects[o].RedirectNegRedis?
    requires s.ops.redirects[o].p == p && s.ops.redirects[o].code == code && url != ""
    ensures Leads(cfg, s, run, t, p, code) && !Shows(t, p, code, url, until)
  {
    hide Leads, Shows;
    run, t := ThenStoreLoses(cfg, s, Redirect(o, RNegRedis(false)), RedirectNext(cfg, s, o, RNegRedis(false)).value, o,
        p, code, url, until);
  }

  /** Redis says "not found". */
  lemma RedisLoses(cfg: Config, s: State, o: nat, p: nat, code: string, url: string, until: Time)
      returns (run: seq<Label>, t: State)
    requires o in s.ops.redirects && s.ops.redirects[o] == RedirectRedis(p, code) && url != ""
    requires RedisLive(s.redis.link, code, s.now) && s.redis.link[code].value == ""
    ensures Leads(cfg, s, run, t, p, code) && !Shows(t, p, code, url, until)
  {
    hide Leads, Shows;
    run, t := ThenStoreLoses(cfg, s, Redirect(o, RRedis(true)), RedirectNext(cfg, s, o, RRedis(true)).value, o, p, code,
        url, until);
  }

  /** A ready filter rejects. */
  lemma FilterLoses(cfg: Config, s: State, o: nat, p: nat, code: string, url: string, until: Time)
      returns (run: seq<Label>, t: State)
    requires o in s.ops.redirects && s.ops.redirects[o] == RedirectBloom(p, code) && url != ""
    requires PodAt(s, p).bloomReady && !Contains(cfg, s.redis.bloom, code)
    ensures Leads(cfg, s, run, t, p, code) && !Shows(t, p, code, url, until)
  {
    hide Leads, Shows, Contains;
    run, t := ThenStoreLoses(cfg, s, Redirect(o, RBloom(true)), RedirectNext(cfg, s, o, RBloom(true)).value, o, p, code,
        url, until);
  }

  /** Another pod is about to tell Redis. */
  lemma RumourLoses(cfg: Config, s: State, o: nat, q: nat, p: nat, code: string, url: string, until: Time)
      returns (run: seq<Label>, t: State)
    requires o in s.ops.redirects && s.ops.redirects[o] == RedirectRedis(p, code) && url != ""
    requires q in s.ops.redirects && s.ops.redirects[q].RedirectNegRedis? && s.ops.redirects[q].code == code
    ensures Leads(cfg, s, run, t, p, code) && !Shows(t, p, code, url, until)
  {
    hide Leads, Shows;
    var l := Redirect(q, RNegRedis(true));
    var s1 := RedirectNext(cfg, s, q, RNegRedis(true)).value;
    Starts(cfg, s, p, code);
    Onward(cfg, s, [], s, l, s1, p, code);
    var rest;
    rest, t := RedisLoses(cfg, s1, o, p, code, url, until);
    JoinLeads(cfg, s, [] + [l], s1, rest, t, p, code);
    run := [] + [l] + rest;
  }

  // ---- finishing a rebuild ----

  /** `t` is `s` but for what a rebuild changes. */
  ghost predicate OnlyRebuilt(s: State, t: State) {
    t == s.(redis := t.redis, pods := t.pods, ops := t.ops) && t.redis == s.redis.(bloom := t.redis.bloom)
    && t.ops == s.ops.(rebuilds := t.ops.rebuilds)
  }

  lemma {:induction false} WriteBits(cfg: Config, s: State, o: nat, bits: set<nat>, p: nat, code: string)
      returns (run: seq<Label>)
    requires o in s.ops.rebuilds && s.ops.rebuilds[o].RebuildWrite? && bits <= BitsOf(cfg, s.ops.rebuilds[o].page)
    ensures Leads(cfg, s, run, SetBits(s, bits), p, code)
  {
    if bits == {} {
      run := [];
      assert SetBits(s, {}) == s;
    } else {
      var b :| b in bits;
      var rest := WriteBits(cfg, s, o, bits - {b}, p, code);
      WriteBit(cfg, s, o, bits - {b}, b);
      hide BitsOf, Bloom.Bits;
      assert bits - {b} + {b} == bits;
      Onward(cfg, s, rest, SetBits(s, bits - {b}), Rebuild(o, BBit(b)), SetBits(s, bits), p, code);
      run := rest + [Rebuild(o, BBit(b))];
    }
  }

  lemma WriteBit(cfg: Config, s: State, o: nat, bits: set<nat>, b: nat)
    requires o in s.ops.rebuilds && s.ops.rebuilds[o].RebuildWrite? && b in BitsOf(cfg, s.ops.rebuilds[o].page)
    ensures RebuildNext(cfg, SetBits(s, bits), o, BBit(b)) == Some(SetBits(s, bits + {b}))
  {
    assert s.redis.bloom + bits + {b} == s.redis.bloom + (bits + {b});
  }

  lemma NextPage(cfg: Config, s: State, o: nat)
    requires o in s.ops.rebuilds && s.ops.rebuilds[o].RebuildWrite?
              && BitsOf(cfg, s.ops.rebuilds[o].page) <= s.redis.bloom
    ensures var op := s.ops.rebuilds[o];
            RebuildNext(cfg, s, o, BNext) == Some(GoRebuild(s, o, RebuildScan(op.p, op.upto, op.start)))
  {
    forall c | c in s.ops.rebuilds[o].page ensures Contains(cfg, s.redis.bloom, c) {
      BitsOfMember(cfg, s.ops.rebuilds[o].page, c);
    }
  }

  lemma TopOf(links: map<string, Link>, codes: set<string>) returns (top: string)
    requires codes != {} && codes <= links.Keys
    ensures top in codes && forall c :: c in codes ==> links[c].id <= links[top].id
  {
    top :| top in codes;
    if codes != {top} {
      var other := TopOf(links, codes - {top});
      if links[top].id < links[other].id {
        top := other;
      }
    }
  }

  /** From the page in hand to the end of the table. */
  lemma RebuildWrites(cfg: Config, s: State, o: nat, p: nat, code: string) returns (run: seq<Label>, t: State)
    requires o in s.ops.rebuilds && s.ops.rebuilds[o].RebuildWrite?
    ensures var op := s.ops.rebuilds[o];
            && Leads(cfg, s, run, t, p, code) && OnlyRebuilt(s, t) && t.pods == s.pods
            && o in t.ops.rebuilds && t.ops.rebuilds[o] == RebuildScan(op.p, op.upto, op.start)
            && t.redis.bloom == s.redis.bloom + BitsOf(cfg, op.page)
  {
    hide Leads, BitsOf;
    var op := s.ops.rebuilds[o];
    var s1 := SetBits(s, BitsOf(cfg, op.page));
    run := WriteBits(cfg, s, o, BitsOf(cfg, op.page), p, code);
    NextPage(cfg, s1, o);
    t := GoRebuild(s1, o, RebuildScan(op.p, op.upto, op.start));
    Onward(cfg, s, run, s1, Rebuild(o, BNext), t, p, code);
    run := run + [Rebuild(o, BNext)];
  }

  lemma RebuildEnds(cfg: Config, s: State, o: nat, p: nat, code: string) returns (run: seq<Label>, t: State)
    requires o in s.ops.rebuilds && s.ops.rebuilds[o].RebuildScan? && Ahead(s, s.ops.rebuilds[o]) == {}
    ensures Leads(cfg, s, run, t, p, code) && OnlyRebuilt(s, t) && t.redis == s.redis
              && PodAt(t, s.ops.rebuilds[o].p).bloomReady
  {
    hide Leads;
    assert forall c :: c in s.db.links ==> c !in Ahead(s, s.ops.rebuilds[o]);
    t := RebuildNext(cfg, s, o, BFinish).value;
    Starts(cfg, s, p, code);
    Onward(cfg, s, [], s, Rebuild(o, BFinish), t, p, code);
    run := [] + [Rebuild(o, BFinish)];
  }

  lemma RebuildTakesAll(cfg: Config, s: State, o: nat, p: nat, code: string) returns (run: seq<Label>, t: State)
    requires o in s.ops.rebuilds && s.ops.rebuilds[o].RebuildScan? && Ahead(s, s.ops.rebuilds[o]) != {}
    ensures Leads(cfg, s, run, t, p, code) && OnlyRebuilt(s, t) && t.redis == s.redis && t.pods == s.pods
    ensures o in t.ops.rebuilds && t.ops.rebuilds[o].RebuildWrite? && t.ops.rebuilds[o].p == s.ops.rebuilds[o].p
    ensures t.ops.rebuilds[o].page == Ahead(s, s.ops.rebuilds[o])
    ensures forall c :: c in s.db.links ==> s.db.links[c].id <= t.ops.rebuilds[o].upto
  {
    hide Leads;
    var op := s.ops.rebuilds[o];
    var top := TopOf(s.db.links, Ahead(s, op));
    forall c | c in s.db.links ensures s.db.links[c].id <= s.db.links[top].id {
      assert c in Ahead(s, op) || s.db.links[c].id <= op.lastID;
    }
    t := RebuildNext(cfg, s, o, BPage(top)).value;
    assert t.ops.rebuilds[o].page == Ahead(s, op);
    Starts(cfg, s, p, code);
    Onward(cfg, s, [], s, Rebuild(o, BPage(top)), t, p, code);
    run := [] + [Rebuild(o, BPage(top))];
  }

  /** A rebuild under way can always finish, with exactly the bits of `Final`. */
  lemma RebuildCanFinish(cfg: Config, s: State, o: nat, p: nat, code: string) returns (run: seq<Label>, t: State)
    requires o in s.ops.rebuilds
    ensures Leads(cfg, s, run, t, p, code) && OnlyRebuilt(s, t)
    ensures t.redis.bloom == Final(cfg, s, s.ops.rebuilds[o]) && PodAt(t, s.ops.rebuilds[o].p).bloomReady
    decreases s.ops.rebuilds[o].RebuildWrite?
  {
    hide Leads;
    var op := s.ops.rebuilds[o];
    if op.RebuildWrite? {
      var first, s1 := RebuildWrites(cfg, s, o, p, code);
      var rest;
      rest, t := RebuildCanFinish(cfg, s1, o, p, code);
      JoinLeads(cfg, s, first, s1, rest, t, p, code);
      run := first + rest;
      SplitAhead(cfg, s, op);
      assert Ahead(s1, s1.ops.rebuilds[o]) == set c | c in s.db.links && s.db.links[c].id > op.upto;
    } else if Ahead(s, op) == {} {
      run, t := RebuildEnds(cfg, s, o, p, code);
    } else {
      run, t := RebuildRest(cfg, s, o, p, code);
    }
  }

  lemma SplitAhead(cfg: Config, s: State, op: RebuildOp)
    requires op.RebuildWrite?
    ensures BitsOf(cfg, Ahead(s, op)) == BitsOf(cfg, op.page) + BitsOf(cfg, set c | c in s.db.links
              && s.db.links[c].id > op.upto)
  {
    hide Bloom.Bits;
  }

  /** One page for all the rest. */
  lemma RebuildRest(cfg: Config, s: State, o: nat, p: nat, code: string) returns (run: seq<Label>, t: State)
    requires o in s.ops.rebuilds && s.ops.rebuilds[o].RebuildScan? && Ahead(s, s.ops.rebuilds[o]) != {}
    ensures Leads(cfg, s, run, t, p, code) && OnlyRebuilt(s, t)
    ensures t.redis.bloom == Final(cfg, s, s.ops.rebuilds[o]) && PodAt(t, s.ops.rebuilds[o].p).bloomReady
  {
    hide Leads, BitsOf;
    var first, s1 := RebuildTakesAll(cfg, s, o, p, code);
    var second, s2 := RebuildWrites(cfg, s1, o, p, code);
    assert Ahead(s2, s2.ops.rebuilds[o]) == {};
    var third;
    third, t := RebuildEnds(cfg, s2, o, p, code);
    JoinLeads(cfg, s, first, s1, second, s2, p, code);
    JoinLeads(cfg, s, first + second, s2, third, t, p, code);
    run := first + second + third;
  }

  lemma BloomLoses(cfg: Config, s: State, o: nat, p: nat, code: string, url: string, until: Time)
      returns (run: seq<Label>, t: State)
    requires o in s.ops.redirects && s.ops.redirects[o] == RedirectBloom(p, code) && url != ""
              && CanReject(cfg, s, p, code)
    ensures Leads(cfg, s, run, t, p, code) && !Shows(t, p, code, url, until)
  {
    hide Leads, Shows, Contains, Final;
    if PodAt(s, p).bloomReady && !Contains(cfg, s.redis.bloom, code) {
      run, t := FilterLoses(cfg, s, o, p, code, url, until);
    } else {
      var q :| q in s.ops.rebuilds && s.ops.rebuilds[q].p == p
          && !Contains(cfg, Final(cfg, s, s.ops.rebuilds[q]), code);
      var first, s1 := RebuildCanFinish(cfg, s, q, p, code);
      var rest;
      rest, t := FilterLoses(cfg, s1, o, p, code, url, until);
      JoinLeads(cfg, s, first, s1, rest, t, p, code);
      run := first + rest;
    }
  }

  lemma MissMovesOn(cfg: Config, s: State, o: nat, p: nat, code: string) returns (t: State)
    requires o in s.ops.redirects && s.ops.redirects[o] == RedirectRedis(p, code)
    ensures Next(cfg, s, Redirect(o, RRedis(false))) == Some(t) && t == GoRedirect(s, o, RedirectBloom(p, code))
  {
    t := GoRedirect(s, o, RedirectBloom(p, code));
  }

  lemma MissLoses(cfg: Config, s: State, o: nat, p: nat, code: string, url: string, until: Time)
      returns (run: seq<Label>, t: State)
    requires o in s.ops.redirects && s.ops.redirects[o] == RedirectRedis(p, code) && url != ""
              && CanReject(cfg, s, p, code)
    ensures Leads(cfg, s, run, t, p, code) && !Shows(t, p, code, url, until)
  {
    var s1 := MissMovesOn(cfg, s, o, p, code);
    assert CanReject(cfg, s1, p, code) by {
      hide Bloom.Bits, Next;
      KeptCannotReject(cfg, s1, s, p, code);
    }
    hide Leads, Shows, CanReject, Next;
    Starts(cfg, s, p, code);
    Onward(cfg, s, [], s, Redirect(o, RRedis(false)), s1, p, code);
    var rest;
    rest, t := BloomLoses(cfg, s1, o, p, code, url, until);
    JoinLeads(cfg, s, [] + [Redirect(o, RRedis(false))], s1, rest, t, p, code);
    run := [] + [Redirect(o, RRedis(false))] + rest;
  }

  lemma EndangeredLoses(cfg: Config, s: State, p: nat, code: string, url: string, until: Time)
      returns (run: seq<Label>, t: State)
    requires Endangered(cfg, s, p, code) && url != ""
    ensures Leads(cfg, s, run, t, p, code) && !Shows(t, p, code, url, until)
  {
    hide Leads, Shows, CanReject;
    var o :| o in s.ops.redirects && Menaces(cfg, s, p, code, s.ops.redirects[o]);
    match s.ops.redirects[o]
    case RedirectNegL1(_, _, _, _) => run, t := StoreLoses(cfg, s, o, p, code, url, until);
    case RedirectNegRedis(_, _, _) => run, t := FindingLoses(cfg, s, o, p, code, url, until);
    case RedirectBloom(_, _) => run, t := BloomLoses(cfg, s, o, p, code, url, until);
    case RedirectRedis(_, _) =>
      if CanReject(cfg, s, p, code) {
        run, t := MissLoses(cfg, s, o, p, code, url, until);
      } else if RedisLive(s.redis.link, code, s.now) && s.redis.link[code].value == "" {
        run, t := RedisLoses(cfg, s, o, p, code, url, until);
      } else {
        var q :| q in s.ops.redirects && s.ops.redirects[q].RedirectNegRedis? && s.ops.redirects[q].code == code;
        run, t := RumourLoses(cfg, s, o, q, p, code, url, until);
      }
  }

  // ---- the promise ----

  /** The pod keeps answering with the URL through `until`, whatever runs, as long as it does not forget. */
  ghost predicate Lasts(cfg: Config, s: State, p: nat, code: string, url: string, until: Time) {
    forall run, t :: Run(cfg, s, run) == Some(t) && Remembers(run, p, code) && t.now <= until ==>
      L1Answer(t, p, code, RedirectRecheck(p, code)) == RedirectFound(code, url)
  }

  lemma ShowsIsFound(s: State, p: nat, code: string, url: string, until: Time)
    requires s.now <= until && url != ""
    ensures Shows(s, p, code, url, until) ==> L1Answer(s, p, code, RedirectRecheck(p, code)) == RedirectFound(code, url)
    ensures L1Answer(s, p, code, RedirectRecheck(p, code)) == RedirectFound(code, url) ==> Shows(s, p, code, url, s.now)
  {}

  /** Create puts the entry there for the whole time to live, once the link is committed. */
  lemma EntryIsMade(cfg: Config, s: State, o: nat, s': State)
    requires Invariant(cfg, s) && Next(cfg, s, Create(o, CSetL1)) == Some(s')
    ensures o in s.ops.creates && s.ops.creates[o].CreateSetL1?
    ensures var op := s.ops.creates[o];
            IsUrl(s'.db.links, op.code, op.url) && Shows(s', op.p, op.code, op.url, s'.now + L1_TTL)
  {
    CodeAgrees(cfg, s, o);
    hide Invariant;
  }

  /** The entry for a committed code can be trusted for its lifetime exactly when no Redirect endangers it now. */
  lemma OwnReadLastsIff(cfg: Config, s: State, p: nat, code: string, url: string, until: Time)
    requires Reachable(cfg, s) && IsUrl(s.db.links, code, url)
    requires Shows(s, p, code, url, until) && s.now <= until <= s.now + L1_TTL
    ensures Lasts(cfg, s, p, code, url, until) <==> !Endangered(cfg, s, p, code)
  {
    hide Reachable, Invariant, AllAgree, Run, Remembers, Endangered, Shows, L1Answer;
    Holds(cfg, s);
    AgreementHolds(cfg, s);
    UrlsAreNotBlank(cfg, s, code);
    if Endangered(cfg, s, p, code) {
      var run, t := EndangeredLoses(cfg, s, p, code, url, s.now);
      ShowsIsFound(t, p, code, url, until);
    } else {
      forall run, t | Run(cfg, s, run) == Some(t) && Remembers(run, p, code) && t.now <= until
        ensures L1Answer(t, p, code, RedirectRecheck(p, code)) == RedirectFound(code, url)
      {
        CalmRun(cfg, s, run, t, p, code, url, until);
        ShowsIsFound(t, p, code, url, until);
      }
    }
  }
}
