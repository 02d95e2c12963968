/** How old a "not found" can be. */
module Staleness {
  import opened Common
  import opened SystemModel
  import opened Agreement
  import Frames

  /** The longest time from the finding to an answer that repeats it: a Redis entry, then an L1 entry.  Redis answers
      only before its deadline, L1 at it too. */
  function Bound(delta: Time): Time {
    2 * delta + NULL_TTL - 1 + L1_TTL
  }

  /** The code was found to be absent at `t`. */
  ghost predicate Evident(absences: set<Absence>, code: string, t: Time) {
    exists a :: a in absences && a.code == code && a.at == t
  }

  ghost predicate NegOk(s: State, code: string, e: Cached, life: Time) {
    e.value == "" ==>
        Evident(s.aux.absences, code, e.evidence) && e.evidence <= s.now && e.expireAt <= e.evidence + life
  }

  ghost predicate RedisOk(delta: Time, s: State) {
    forall c :: c in s.redis.link ==> NegOk(s, c, s.redis.link[c], delta + NULL_TTL)
  }

  ghost predicate TierOk(delta: Time, s: State, tier: map<string, Cached>) {
    forall c :: c in tier ==> NegOk(s, c, tier[c], Bound(delta))
  }

  ghost predicate PodsOk(delta: Time, s: State) {
    forall p :: p in s.pods ==> TierOk(delta, s, s.pods[p].l1)
  }

  ghost predicate OpOk(delta: Time, s: State, op: RedirectOp) {
    match op
    case RedirectNegRedis(_, code, ev) => Evident(s.aux.absences, code, ev) && ev <= s.now <= ev + delta
    case RedirectNegL1(_, code, ev, held) =>
      Evident(s.aux.absences, code, ev) && ev <= held <= s.now <= held + delta && held < ev + delta + NULL_TTL
    case RedirectNotFound(code, ev, at) => Evident(s.aux.absences, code, ev) && ev <= at <= ev + Bound(delta)
    case _ => true
  }

  ghost predicate OpsOk(delta: Time, s: State) {
    forall o :: o in s.ops.redirects ==> OpOk(delta, s, s.ops.redirects[o])
  }

  ghost predicate Fresh(delta: Time, s: State) {
    RedisOk(delta, s) && PodsOk(delta, s) && OpsOk(delta, s)
  }

  // ---- effects ----

  /** Entries and operations may go, evidence may come, and time may pass while nothing negative is held. */
  lemma Frame(delta: Time, s: State, s': State)
    requires Fresh(delta, s) && s.now <= s'.now && s.aux.absences <= s'.aux.absences
    requires forall c :: c in s'.redis.link ==>
              s'.redis.link[c].value != "" || (c in s.redis.link && s'.redis.link[c] == s.redis.link[c])
    requires forall p, c :: p in s'.pods && c in s'.pods[p].l1 ==>
               s'.pods[p].l1[c].value != "" || (p in s.pods && c in s.pods[p].l1 && s'.pods[p].l1[c] == s.pods[p].l1[c])
    requires forall o :: o in s'.ops.redirects ==> o in s.ops.redirects && s'.ops.redirects[o] == s.ops.redirects[o]
    requires forall o :: o in s'.ops.redirects && HeldSince(s'.ops.redirects[o]).Some? ==>
              s'.now <= HeldSince(s'.ops.redirects[o]).value + delta
    ensures Fresh(delta, s')
  {
    forall c | c in s'.redis.link ensures NegOk(s', c, s'.redis.link[c], delta + NULL_TTL) {
      assert c in s.redis.link ==> NegOk(s, c, s.redis.link[c], delta + NULL_TTL);
    }
    forall p, c | p in s'.pods && c in s'.pods[p].l1 ensures NegOk(s', c, s'.pods[p].l1[c], Bound(delta)) {
      if s'.pods[p].l1[c].value == "" {
        assert TierOk(delta, s, s.pods[p].l1);
      }
    }
    forall o | o in s'.ops.redirects ensures OpOk(delta, s', s'.ops.redirects[o]) {
      assert OpOk(delta, s, s.ops.redirects[o]);
    }
  }

  lemma HeldOk(delta: Time, s: State)
    requires Fresh(delta, s)
    ensures forall o :: o in s.ops.redirects && HeldSince(s.ops.redirects[o]).Some? ==>
              s.now <= HeldSince(s.ops.redirects[o]).value + delta
  {
    forall o | o in s.ops.redirects && HeldSince(s.ops.redirects[o]).Some?
      ensures s.now <= HeldSince(s.ops.redirects[o]).value + delta
    {
      assert OpOk(delta, s, s.ops.redirects[o]);
    }
  }

  lemma AfterGo(delta: Time, s: State, o: nat, op: RedirectOp)
    requires Fresh(delta, s) && OpOk(delta, s, op)
    ensures Fresh(delta, GoRedirect(s, o, op))
  {
    var s' := GoRedirect(s, o, op);
    forall q | q in s'.ops.redirects ensures OpOk(delta, s', s'.ops.redirects[q]) {
      assert OpOk(delta, s, if q == o then op else s.ops.redirects[q]);
    }
    forall c | c in s'.redis.link ensures NegOk(s', c, s'.redis.link[c], delta + NULL_TTL) {
      assert NegOk(s, c, s.redis.link[c], delta + NULL_TTL);
    }
    forall p, c | p in s'.pods && c in s'.pods[p].l1 ensures NegOk(s', c, s'.pods[p].l1[c], Bound(delta)) {
      assert TierOk(delta, s, s.pods[p].l1);
    }
  }

  lemma AfterPutLink(delta: Time, s: State, code: string, e: Cached)
    requires Fresh(delta, s) && NegOk(s, code, e, delta + NULL_TTL)
    ensures Fresh(delta, PutLink(s, code, e))
  {
    var s' := PutLink(s, code, e);
    forall c | c in s'.redis.link ensures NegOk(s', c, s'.redis.link[c], delta + NULL_TTL) {
      assert NegOk(s, c, if c == code then e else s.redis.link[c], delta + NULL_TTL);
    }
    forall p, c | p in s'.pods && c in s'.pods[p].l1 ensures NegOk(s', c, s'.pods[p].l1[c], Bound(delta)) {
      assert TierOk(delta, s, s.pods[p].l1);
    }
    forall o | o in s'.ops.redirects ensures OpOk(delta, s', s'.ops.redirects[o]) {
      assert OpOk(delta, s, s.ops.redirects[o]);
    }
  }

  lemma AfterSetL1(delta: Time, s: State, p: nat, code: string, value: string, evidence: Time)
    requires Fresh(delta, s) && NegOk(s, code, Cached(value, s.now + L1_TTL, evidence), Bound(delta))
    ensures Fresh(delta, SetL1(s, p, code, value, evidence))
  {
    var s' := SetL1(s, p, code, value, evidence);
    forall q, c | q in s'.pods && c in s'.pods[q].l1 ensures NegOk(s', c, s'.pods[q].l1[c], Bound(delta)) {
      if q != p || c != code {
        assert q in s.pods && c in s.pods[q].l1 && TierOk(delta, s, s.pods[q].l1);
        assert NegOk(s, c, s.pods[q].l1[c], Bound(delta));
      } else {
        assert NegOk(s, code, Cached(value, s.now + L1_TTL, evidence), Bound(delta));
      }
    }
    forall c | c in s'.redis.link ensures NegOk(s', c, s'.redis.link[c], delta + NULL_TTL) {
      assert NegOk(s, c, s.redis.link[c], delta + NULL_TTL);
    }
    forall o | o in s'.ops.redirects ensures OpOk(delta, s', s'.ops.redirects[o]) {
      assert OpOk(delta, s, s.ops.redirects[o]);
    }
  }

  lemma AfterNoted(delta: Time, s: State, a: Absence)
    requires Fresh(delta, s)
    ensures Fresh(delta, Noted(s, a)) && Evident(Noted(s, a).aux.absences, a.code, a.at)
  {
    HeldOk(delta, s);
    Frame(delta, s, Noted(s, a));
    assert a in Noted(s, a).aux.absences;
  }

  lemma RedirectIs(delta: Time, s: State, o: nat)
    requires Fresh(delta, s) && o in s.ops.redirects
    ensures OpOk(delta, s, s.ops.redirects[o])
  {}

  lemma RedisIs(delta: Time, s: State, code: string)
    requires Fresh(delta, s) && code in s.redis.link
    ensures NegOk(s, code, s.redis.link[code], delta + NULL_TTL)
  {}

  lemma L1Is(delta: Time, s: State, p: nat, code: string, next: RedirectOp)
    requires Fresh(delta, s) && OpOk(delta, s, next)
    ensures OpOk(delta, s, L1Answer(s, p, code, next))
  {
    if code in PodAt(s, p).l1 {
      assert TierOk(delta, s, s.pods[p].l1);
      assert NegOk(s, code, s.pods[p].l1[code], Bound(delta));
    }
  }

  lemma RedirectReads(delta: Time, cfg: Config, s: State, o: nat, r: RedirectStep, s': State)
    requires Fresh(delta, s) && RedirectNext(cfg, s, o, r) == Some(s')
    requires r.RBegin? || r.RL1? || r.RRedis? || r.RReplica?
    ensures Fresh(delta, s')
  {
    if o in s.ops.redirects {
      RedirectIs(delta, s, o);
      if s.ops.redirects[o].RedirectRedis? && s.ops.redirects[o].code in s.redis.link {
        RedisIs(delta, s, s.ops.redirects[o].code);
      }
    }
    hide Fresh;
    if r.RL1? {
      var op := s.ops.redirects[o];
      var next := if op.RedirectL1? then RedirectRecheck(op.p, op.code) else RedirectRedis(op.p, op.code);
      L1Is(delta, s, op.p, op.code, next);
      AfterGo(delta, s, o, L1Answer(s, op.p, op.code, next));
    } else {
      AfterGo(delta, s, o, s'.ops.redirects[o]);
    }
  }

  /** The two places where a code is found to be absent. */
  lemma RedirectFinds(delta: Time, cfg: Config, s: State, o: nat, r: RedirectStep, s': State)
    requires Fresh(delta, s) && RedirectNext(cfg, s, o, r) == Some(s')
    requires r.RBloom? || r.RMaster?
    ensures Fresh(delta, s')
  {
    hide Fresh, RedirectNext, GoRedirect, Noted;
    if r.RBloom? {
      Frames.BloomStepIs(cfg, s, o, r, s');
      var op := s.ops.redirects[o];
      var a := AtBloom(op.code, s.now, op.p);
      AfterGo(delta, s, o, RedirectReplica(op.p, op.code));
      AfterNoted(delta, s, a);
      NotedKeepsTime(s, a);
      AfterGo(delta, Noted(s, a), o, RedirectNegL1(op.p, op.code, s.now, s.now));
    } else {
      Frames.MasterStepIs(cfg, s, o, r, s');
      var op := s.ops.redirects[o];
      var a := AtMaster(op.code, s.now);
      AfterGo(delta, s, o, RedirectFailed(op.code));
      if op.code in s.db.links {
        AfterGo(delta, s, o, RedirectPosRedis(op.p, op.code, s.db.links[op.code].url));
      }
      AfterNoted(delta, s, a);
      NotedKeepsTime(s, a);
      AfterGo(delta, Noted(s, a), o, RedirectNegRedis(op.p, op.code, s.now));
    }
  }

  lemma NotedKeepsTime(s: State, a: Absence)
    ensures Noted(s, a).now == s.now
  {}

  lemma RedirectStoresNegative(delta: Time, cfg: Config, s: State, o: nat, r: RedirectStep, s': State)
    requires Fresh(delta, s) && RedirectNext(cfg, s, o, r) == Some(s') && (r.RNegRedis? || r.RNegL1?)
    ensures Fresh(delta, s')
  {
    hide Fresh;
    RedirectIs(delta, s, o);
    var op := s.ops.redirects[o];
    if r.RNegRedis? {
      var e := Cached("", s.now + NULL_TTL, op.evidence);
      AfterPutLink(delta, s, op.code, e);
      AfterGo(delta, if r.applied then PutLink(s, op.code, e) else s, o,
          RedirectNegL1(op.p, op.code, op.evidence, op.evidence));
    } else {
      AfterSetL1(delta, s, op.p, op.code, "", op.evidence);
      AfterGo(delta, SetL1(s, op.p, op.code, "", op.evidence), o, RedirectNotFound(op.code, op.evidence, s.now));
    }
  }

  lemma RedirectStoresPositive(delta: Time, cfg: Config, s: State, o: nat, r: RedirectStep, s': State)
    requires Fresh(delta, s) && AllAgree(cfg, s) && RedirectNext(cfg, s, o, r) == Some(s')
              && (r.RPosRedis? || r.RPosL1?)
    ensures Fresh(delta, s')
  {
    hide Fresh, AllAgree;
    RedirectOpOk(cfg, s, o);
    var op := s.ops.redirects[o];
    if r.RPosRedis? {
      var e := Cached(op.url, s.now + r.ttl, 0);
      AfterPutLink(delta, s, op.code, e);
      AfterGo(delta, if r.applied then PutLink(s, op.code, e) else s, o, RedirectPosL1(op.p, op.code, op.url));
    } else {
      AfterSetL1(delta, s, op.p, op.code, op.url, 0);
      AfterGo(delta, SetL1(s, op.p, op.code, op.url, 0), o, RedirectFound(op.code, op.url));
    }
  }

  lemma RedirectKeeps(delta: Time, cfg: Config, s: State, o: nat, r: RedirectStep, s': State)
    requires Fresh(delta, s) && AllAgree(cfg, s) && RedirectNext(cfg, s, o, r) == Some(s')
    ensures Fresh(delta, s')
  {
    hide Fresh, AllAgree, RedirectNext;
    match r {
      case RBloom(_) => RedirectFinds(delta, cfg, s, o, r, s');
      case RMaster(_) => RedirectFinds(delta, cfg, s, o, r, s');
      case RBegin(_, _) => RedirectReads(delta, cfg, s, o, r, s');
      case RL1 => RedirectReads(delta, cfg, s, o, r, s');
      case RRedis(_) => RedirectReads(delta, cfg, s, o, r, s');
      case RReplica(_, _) => RedirectReads(delta, cfg, s, o, r, s');
      case RNegRedis(_) => RedirectStoresNegative(delta, cfg, s, o, r, s');
      case RNegL1 => RedirectStoresNegative(delta, cfg, s, o, r, s');
      case _ => RedirectStoresPositive(delta, cfg, s, o, r, s');
    }
  }

  /** No negative entry is stored. */
  ghost predicate NoNewNegative(s: State, s': State) {
    && s'.now == s.now && s'.aux.absences == s.aux.absences && s'.ops.redirects == s.ops.redirects
    && (forall c :: c in s'.redis.link ==>
          s'.redis.link[c].value != "" || (c in s.redis.link && s'.redis.link[c] == s.redis.link[c]))
    && (forall p, c :: p in s'.pods && c in s'.pods[p].l1 ==>
          s'.pods[p].l1[c].value != "" || (p in s.pods && c in s.pods[p].l1 && s'.pods[p].l1[c] == s.pods[p].l1[c]))
  }

  lemma WriteIsPositive(s: State, m: Message, cmd: RedisCmd)
    requires cmd.SetLink? ==> m.url != ""
    ensures NoNewNegative(s, Write(s, m, cmd))
  {}

  lemma SetL1IsPositive(s: State, p: nat, code: string, url: string)
    requires url != ""
    ensures NoNewNegative(s, SetL1(s, p, code, url, 0))
  {}

  lemma SetHashL1IsPositive(s: State, p: nat, hash: string, code: string)
    ensures NoNewNegative(s, SetHashL1(s, p, hash, code))
  {}

  /** The clean rest of a step: program counters, queue, database and history. */
  lemma RestIsPositive(s: State, s1: State, s': State)
    requires NoNewNegative(s, s1)
    requires s' == s1.(db := s'.db, queue := s'.queue, workers := s'.workers, aux := s'.aux,
                       ops := s'.ops.(redirects := s1.ops.redirects))
    requires s'.aux.absences == s1.aux.absences
    ensures NoNewNegative(s, s')
  {}

  lemma InsertIsPositive(cfg: Config, s: State, o: nat, c: CreateStep, s': State)
    requires CreateNext(cfg, s, o, c) == Some(s') && (c.CInsert? || Frames.Moves(c))
    ensures NoNewNegative(s, s')
  {
    hide CreateNext;
    if c.CInsert? {
      Frames.InsertFrame(cfg, s, o, c, s');
    } else {
      Frames.MoveFrame(cfg, s, o, c, s');
    }
  }

  lemma CreateWritesPositives(cfg: Config, s: State, o: nat, c: CreateStep, s': State)
    requires AllAgree(cfg, s) && CreateNext(cfg, s, o, c) == Some(s') && (c.CFillRedis? || c.CWrite?)
    ensures NoNewNegative(s, s')
  {
    hide AllAgree, Write, CmdFits, NoNewNegative;
    UrlNotBlank(cfg, s, o);
    var op := s.ops.creates[o];
    var m := Message(op.code, op.url, cfg.md5(op.url));
    var cmd := if c.CWrite? then c.cmd else SetHash(c.ttl);
    NothingIsPositive(s);
    WriteIsPositive(s, m, cmd);
    RestIsPositive(s, if c.CWrite? || c.applied then Write(s, m, cmd) else s, s');
  }

  lemma CreateStoresPositives(cfg: Config, s: State, o: nat, c: CreateStep, s': State)
    requires AllAgree(cfg, s) && CreateNext(cfg, s, o, c) == Some(s')
    ensures NoNewNegative(s, s')
  {
    hide AllAgree, CreateNext, NoNewNegative;
    if c.CInsert? || Frames.Moves(c) {
      InsertIsPositive(cfg, s, o, c, s');
    } else if c.CFillRedis? || c.CWrite? {
      CreateWritesPositives(cfg, s, o, c, s');
    } else {
      CreateFillsPositives(cfg, s, o, c, s');
    }
  }

  lemma CreateFillsPositives(cfg: Config, s: State, o: nat, c: CreateStep, s': State)
    requires AllAgree(cfg, s) && CreateNext(cfg, s, o, c) == Some(s') && (c.CFillL1? || c.CSetL1? || c.CSetHashL1?)
    ensures NoNewNegative(s, s')
  {
    hide AllAgree, SetL1, SetHashL1, NoNewNegative;
    UrlNotBlank(cfg, s, o);
    var op := s.ops.creates[o];
    if c.CSetL1? {
      SetL1IsPositive(s, op.p, op.code, op.url);
      RestIsPositive(s, SetL1(s, op.p, op.code, op.url, 0), s');
    } else {
      SetHashL1IsPositive(s, op.p, cfg.md5(op.url), op.code);
      RestIsPositive(s, SetHashL1(s, op.p, cfg.md5(op.url), op.code), s');
    }
  }

  lemma NothingIsPositive(s: State)
    ensures NoNewNegative(s, s)
  {}

  lemma ConsumeStoresPositives(cfg: Config, s: State, o: nat, k: ConsumeStep, s': State)
    requires AllAgree(cfg, s) && ConsumeNext(cfg, s, o, k) == Some(s')
    ensures NoNewNegative(s, s')
  {
    if o !in s.ops.deliveries { return; }
    MessageNotBlank(cfg, s, o);
    hide AllAgree, Write, SetL1, SetHashL1, NoNewNegative;
    var d := s.ops.deliveries[o];
    match k {
      case KWrite(cmd) =>
        WriteIsPositive(s, d.msg, cmd);
        RestIsPositive(s, Write(s, d.msg, cmd), s');
      case KSetL1 =>
        SetL1IsPositive(s, d.p, d.msg.code, d.msg.url);
        RestIsPositive(s, SetL1(s, d.p, d.msg.code, d.msg.url, 0), s');
      case KSetHashL1 =>
        SetHashL1IsPositive(s, d.p, d.msg.hash, d.msg.code);
        RestIsPositive(s, SetHashL1(s, d.p, d.msg.hash, d.msg.code), s');
      case _ =>
        NothingIsPositive(s);
        RestIsPositive(s, s, s');
    }
  }

  lemma UrlNotBlank(cfg: Config, s: State, o: nat)
    requires AllAgree(cfg, s) && o in s.ops.creates
    ensures s.ops.creates[o].CreateSetL1? || s.ops.creates[o].CreateWriteThrough? ==> s.ops.creates[o].url != ""
  {
    assert CreateOk(cfg, s.db.links, s.ops.creates[o]);
  }

  lemma MessageNotBlank(cfg: Config, s: State, o: nat)
    requires AllAgree(cfg, s) && o in s.ops.deliveries
    ensures s.ops.deliveries[o].msg.url != ""
  {}

  lemma EnvKeeps(delta: Time, cfg: Config, s: State, e: EnvStep, s': State)
    requires cfg.delta == Some(delta) && Fresh(delta, s) && EnvNext(cfg, s, e) == Some(s')
    ensures Fresh(delta, s')
  {
    HeldOk(delta, s);
    Frame(delta, s, s');
  }

  lemma StepKeepsFresh(delta: Time, cfg: Config, s: State, l: Label, s': State)
    requires cfg.delta == Some(delta) && Fresh(delta, s) && AllAgree(cfg, s) && Next(cfg, s, l) == Some(s')
    ensures Fresh(delta, s')
  {
    hide Fresh, AllAgree, CreateNext, RedirectNext, RebuildNext, ConsumeNext, WorkerNext, EnvNext;
    HeldOk(delta, s);
    match l {
      case Redirect(o, r) => RedirectKeeps(delta, cfg, s, o, r, s');
      case Env(e) => EnvKeeps(delta, cfg, s, e, s');
      case Work(w, x) =>
        Frames.WorkerFrame(cfg, s, w, x, s');
        Frame(delta, s, s');
      case Rebuild(o, b) =>
        Frames.RebuildFrame(cfg, s, o, b, s');
        RebuildKeepsL1(cfg, s, o, b, s');
        Frame(delta, s, s');
      case Create(o, c) =>
        CreateStoresPositives(cfg, s, o, c, s');
        Frame(delta, s, s');
      case Consume(o, k) =>
        ConsumeStoresPositives(cfg, s, o, k, s');
        Frame(delta, s, s');
    }
  }

  lemma RebuildKeepsL1(cfg: Config, s: State, o: nat, b: RebuildStep, s': State)
    requires RebuildNext(cfg, s, o, b) == Some(s')
    ensures forall p, c :: p in s'.pods && c in s'.pods[p].l1 ==>
              p in s.pods && c in s.pods[p].l1 && s'.pods[p].l1[c] == s.pods[p].l1[c]
  {}
}
