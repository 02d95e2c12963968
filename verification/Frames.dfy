/** What each operation leaves alone. */
module Frames {
  import opened Common
  import opened SystemModel
  import Outbox

  /** The steps of a Create that change nothing but its place. */
  predicate Moves(c: CreateStep) {
    c.CBegin? || c.CLookup? || c.CRedis? || c.CFindHit? || c.CFindMiss? || c.CFindErr? || c.CReturn?
  }

  lemma MoveFrame(cfg: Config, s: State, o: nat, c: CreateStep, s': State)
    requires CreateNext(cfg, s, o, c) == Some(s') && Moves(c)
    ensures o in s'.ops.creates && s' == GoCreate(s, o, s'.ops.creates[o])
  {}

  lemma CreateRedisFrame(cfg: Config, s: State, o: nat, c: CreateStep, s': State)
    requires CreateNext(cfg, s, o, c) == Some(s') && (c.CFillRedis? || c.CWrite?)
    ensures s' == s.(redis := s'.redis, ops := s'.ops) && s.redis.bloom <= s'.redis.bloom
    ensures o in s'.ops.creates && s'.ops == s.ops.(creates := s.ops.creates[o := s'.ops.creates[o]])
  {
    hide Write, CmdFits;
    var op := s.ops.creates[o];
    var m := Message(op.code, op.url, cfg.md5(op.url));
    WriteFrame(s, m, if c.CWrite? then c.cmd else SetHash(c.ttl));
  }

  lemma CreateL1Frame(cfg: Config, s: State, o: nat, c: CreateStep, s': State)
    requires CreateNext(cfg, s, o, c) == Some(s') && (c.CFillL1? || c.CSetL1? || c.CSetHashL1?)
    ensures s' == s.(pods := s'.pods, ops := s'.ops)
    ensures o in s'.ops.creates && s'.ops == s.ops.(creates := s.ops.creates[o := s'.ops.creates[o]])
    ensures forall p :: PodAt(s', p).bloomReady == PodAt(s, p).bloomReady
              && PodAt(s', p).rebuiltFrom == PodAt(s, p).rebuiltFrom
  {}

  lemma CreateFrame(cfg: Config, s: State, o: nat, c: CreateStep, s': State)
    requires !c.CInsert? && CreateNext(cfg, s, o, c) == Some(s')
    ensures s'.now == s.now && s'.db == s.db && s'.queue == s.queue && s'.workers == s.workers && s'.aux == s.aux
    ensures s.redis.bloom <= s'.redis.bloom && s'.ops == s.ops.(creates := s'.ops.creates)
    ensures forall p :: PodAt(s', p).bloomReady == PodAt(s, p).bloomReady
              && PodAt(s', p).rebuiltFrom == PodAt(s, p).rebuiltFrom
    ensures o in s'.ops.creates && s'.ops.creates == s.ops.creates[o := s'.ops.creates[o]]
  {
    hide CreateNext;
    if Moves(c) {
      MoveFrame(cfg, s, o, c, s');
    } else if c.CFillRedis? || c.CWrite? {
      CreateRedisFrame(cfg, s, o, c, s');
    } else {
      CreateL1Frame(cfg, s, o, c, s');
    }
  }

  lemma InsertFrame(cfg: Config, s: State, o: nat, c: CreateStep, s': State)
    requires c.CInsert? && CreateNext(cfg, s, o, c) == Some(s')
    ensures o in s.ops.creates && s.ops.creates[o].CreateInsert? && o in s'.ops.creates
    ensures var m := Message(c.code, s.ops.creates[o].url, cfg.md5(s.ops.creates[o].url));
            s' == GoCreate(s, o, s'.ops.creates[o]) ||
            (c.id > 0 && Unused(s.db.links, c.id, c.code, m.hash)
                && s' == GoCreate(Insert(s, c.id, m), o, s'.ops.creates[o]))
  {}

  /** The steps of a Redirect that only look. */
  predicate Looks(r: RedirectStep) {
    r.RBegin? || r.RL1? || r.RRedis? || r.RBloom? || r.RReplica? || r.RMaster?
  }

  // ---- what the looking steps are ----

  lemma L1StepIs(cfg: Config, s: State, o: nat, r: RedirectStep, s': State)
    requires RedirectNext(cfg, s, o, r) == Some(s') && r.RL1?
    ensures o in s.ops.redirects
    ensures var op := s.ops.redirects[o];
            || (op.RedirectL1? && s' == GoRedirect(s, o, L1Answer(s, op.p, op.code, RedirectRecheck(op.p, op.code))))
            || (op.RedirectRecheck? && s' == GoRedirect(s, o, L1Answer(s, op.p, op.code, RedirectRedis(op.p, op.code))))
  {}

  lemma RedisStepIs(cfg: Config, s: State, o: nat, r: RedirectStep, s': State)
    requires RedirectNext(cfg, s, o, r) == Some(s') && r.RRedis?
    ensures o in s.ops.redirects && s.ops.redirects[o].RedirectRedis?
    ensures var op := s.ops.redirects[o];
            || s' == GoRedirect(s, o, RedirectBloom(op.p, op.code))
            || (op.code in s.redis.link && s.redis.link[op.code].value == "" &&
                s' == GoRedirect(s, o, RedirectNegL1(op.p, op.code, s.redis.link[op.code].evidence, s.now)))
            || (op.code in s.redis.link && s.redis.link[op.code].value != "" &&
                s' == GoRedirect(s, o, RedirectPosL1(op.p, op.code, s.redis.link[op.code].value)))
  {}

  lemma BloomStepIs(cfg: Config, s: State, o: nat, r: RedirectStep, s': State)
    requires RedirectNext(cfg, s, o, r) == Some(s') && r.RBloom?
    ensures o in s.ops.redirects && s.ops.redirects[o].RedirectBloom?
    ensures var op := s.ops.redirects[o];
            || s' == GoRedirect(s, o, RedirectReplica(op.p, op.code))
            || s' == GoRedirect(Noted(s, AtBloom(op.code, s.now, op.p)), o, RedirectNegL1(op.p, op.code, s.now, s.now))
  {}

  lemma MasterStepIs(cfg: Config, s: State, o: nat, r: RedirectStep, s': State)
    requires RedirectNext(cfg, s, o, r) == Some(s') && r.RMaster?
    ensures o in s.ops.redirects && s.ops.redirects[o].RedirectMaster?
    ensures var op := s.ops.redirects[o];
            || s' == GoRedirect(s, o, RedirectFailed(op.code))
            || (op.code in s.db.links && s' == GoRedirect(s, o,
                RedirectPosRedis(op.p, op.code, s.db.links[op.code].url)))
            || s' == GoRedirect(Noted(s, AtMaster(op.code, s.now)), o, RedirectNegRedis(op.p, op.code, s.now))
  {}

  lemma ReplicaStepIs(cfg: Config, s: State, o: nat, r: RedirectStep, s': State)
    requires RedirectNext(cfg, s, o, r) == Some(s') && r.RReplica?
    ensures o in s.ops.redirects && s.ops.redirects[o].RedirectReplica?
    ensures var op := s.ops.redirects[o];
            || s' == GoRedirect(s, o, RedirectFailed(op.code)) || s' == GoRedirect(s, o, RedirectMaster(op.p, op.code))
            || (op.code in s.db.links && s' == GoRedirect(s, o,
                RedirectPosRedis(op.p, op.code, s.db.links[op.code].url)))
  {}

  // ---- frames ----

  lemma LookFrame(cfg: Config, s: State, o: nat, r: RedirectStep, s': State)
    requires RedirectNext(cfg, s, o, r) == Some(s') && Looks(r)
    ensures s' == s.(aux := s'.aux, ops := s'.ops) && s'.aux == s.aux.(absences := s'.aux.absences)
    ensures s'.ops == s.ops.(redirects := s'.ops.redirects)
  {}

  lemma LookIsOwn(cfg: Config, s: State, o: nat, r: RedirectStep, s': State)
    requires RedirectNext(cfg, s, o, r) == Some(s') && (r.RBegin? || r.RL1? || r.RRedis?)
    ensures o in s'.ops.redirects && s'.ops.redirects == s.ops.redirects[o := s'.ops.redirects[o]]
  {}

  lemma BloomIsOwn(cfg: Config, s: State, o: nat, r: RedirectStep, s': State)
    requires RedirectNext(cfg, s, o, r) == Some(s') && r.RBloom?
    ensures o in s'.ops.redirects && s'.ops.redirects == s.ops.redirects[o := s'.ops.redirects[o]]
  {}

  lemma DatabaseIsOwn(cfg: Config, s: State, o: nat, r: RedirectStep, s': State)
    requires RedirectNext(cfg, s, o, r) == Some(s') && (r.RReplica? || r.RMaster?)
    ensures o in s'.ops.redirects && s'.ops.redirects == s.ops.redirects[o := s'.ops.redirects[o]]
  {}

  lemma StoreFrame(cfg: Config, s: State, o: nat, r: RedirectStep, s': State)
    requires RedirectNext(cfg, s, o, r) == Some(s') && !Looks(r)
    ensures s'.now == s.now && s'.db == s.db && s'.queue == s.queue && s'.workers == s.workers
    ensures s'.aux == s.aux.(absences := s'.aux.absences)
    ensures s'.redis.bloom == s.redis.bloom && s'.ops == s.ops.(redirects := s'.ops.redirects)
    ensures forall p :: PodAt(s', p).bloomReady == PodAt(s, p).bloomReady
              && PodAt(s', p).rebuiltFrom == PodAt(s, p).rebuiltFrom
  {}

  lemma StoreIsOwn(cfg: Config, s: State, o: nat, r: RedirectStep, s': State)
    requires RedirectNext(cfg, s, o, r) == Some(s') && !Looks(r)
    ensures o in s'.ops.redirects && s'.ops.redirects == s.ops.redirects[o := s'.ops.redirects[o]]
  {}

  lemma RedirectFrame(cfg: Config, s: State, o: nat, r: RedirectStep, s': State)
    requires RedirectNext(cfg, s, o, r) == Some(s')
    ensures s'.now == s.now && s'.db == s.db && s'.queue == s.queue && s'.workers == s.workers
    ensures s'.aux == s.aux.(absences := s'.aux.absences)
    ensures s'.redis.bloom == s.redis.bloom && s'.ops == s.ops.(redirects := s'.ops.redirects)
    ensures forall p :: PodAt(s', p).bloomReady == PodAt(s, p).bloomReady
              && PodAt(s', p).rebuiltFrom == PodAt(s, p).rebuiltFrom
    ensures o in s'.ops.redirects && s'.ops.redirects == s.ops.redirects[o := s'.ops.redirects[o]]
  {
    hide RedirectNext;
    if Looks(r) {
      LookFrame(cfg, s, o, r, s');
      if r.RBegin? || r.RL1? || r.RRedis? {
        LookIsOwn(cfg, s, o, r, s');
      } else if r.RBloom? {
        BloomIsOwn(cfg, s, o, r, s');
      } else {
        DatabaseIsOwn(cfg, s, o, r, s');
      }
    } else {
      StoreFrame(cfg, s, o, r, s');
      StoreIsOwn(cfg, s, o, r, s');
    }
  }

  lemma RebuildFrame(cfg: Config, s: State, o: nat, b: RebuildStep, s': State)
    requires RebuildNext(cfg, s, o, b) == Some(s')
    ensures s'.now == s.now && s'.db == s.db && s'.queue == s.queue && s'.workers == s.workers && s'.aux == s.aux
    ensures s.redis.bloom <= s'.redis.bloom && s'.redis == s.redis.(bloom := s'.redis.bloom)
    ensures s'.ops == s.ops.(rebuilds := s'.ops.rebuilds)
    ensures forall p :: PodAt(s', p).l1 == PodAt(s, p).l1
  {}

  lemma WriteFrame(s: State, m: Message, cmd: RedisCmd)
    ensures var s' := Write(s, m, cmd);
            s' == s.(redis := s'.redis) && s.redis.bloom <= s'.redis.bloom
                && (cmd.SetBit? ==> cmd.bit in s'.redis.bloom)
  {}

  lemma PipelineFrame(cfg: Config, s: State, o: nat, k: ConsumeStep, s': State)
    requires ConsumeNext(cfg, s, o, k) == Some(s') && k.KWrite?
    ensures s' == s.(redis := s'.redis, ops := s'.ops) && s.redis.bloom <= s'.redis.bloom
    ensures s'.ops == s.ops.(deliveries := s'.ops.deliveries)
  {
    hide Write, CmdFits;
    WriteFrame(s, s.ops.deliveries[o].msg, k.cmd);
  }

  lemma ConsumerL1Frame(cfg: Config, s: State, o: nat, k: ConsumeStep, s': State)
    requires ConsumeNext(cfg, s, o, k) == Some(s') && (k.KSetL1? || k.KSetHashL1?)
    ensures s'.now == s.now && s'.db == s.db && s'.workers == s.workers && s'.aux == s.aux.(applied := s'.aux.applied)
    ensures s.redis.bloom <= s'.redis.bloom && s'.ops == s.ops.(deliveries := s'.ops.deliveries)
    ensures forall p :: PodAt(s', p).bloomReady == PodAt(s, p).bloomReady
              && PodAt(s', p).rebuiltFrom == PodAt(s, p).rebuiltFrom
  {}

  lemma TakeFrame(cfg: Config, s: State, o: nat, k: ConsumeStep, s': State)
    requires ConsumeNext(cfg, s, o, k) == Some(s') && (k.KDeliver? || k.KWritten?)
    ensures s' == s.(queue := s'.queue, ops := s'.ops, aux := s'.aux) && s'.aux == s.aux.(applied := s'.aux.applied)
    ensures s'.ops == s.ops.(deliveries := s'.ops.deliveries)
  {}

  lemma AckFrame(cfg: Config, s: State, o: nat, k: ConsumeStep, s': State)
    requires ConsumeNext(cfg, s, o, k) == Some(s') && (k.KNack? || k.KAck?)
    ensures s' == s.(queue := s'.queue, ops := s'.ops, aux := s'.aux) && s'.aux == s.aux.(applied := s'.aux.applied)
    ensures s'.ops == s.ops.(deliveries := s'.ops.deliveries)
  {}

  lemma ConsumeFrame(cfg: Config, s: State, o: nat, k: ConsumeStep, s': State)
    requires ConsumeNext(cfg, s, o, k) == Some(s')
    ensures s'.now == s.now && s'.db == s.db && s'.workers == s.workers && s'.aux == s.aux.(applied := s'.aux.applied)
    ensures s.redis.bloom <= s'.redis.bloom && s'.ops == s.ops.(deliveries := s'.ops.deliveries)
    ensures forall p :: PodAt(s', p).bloomReady == PodAt(s, p).bloomReady
              && PodAt(s', p).rebuiltFrom == PodAt(s, p).rebuiltFrom
  {
    hide ConsumeNext;
    if k.KWrite? {
      PipelineFrame(cfg, s, o, k, s');
    } else if k.KSetL1? || k.KSetHashL1? {
      ConsumerL1Frame(cfg, s, o, k, s');
    } else if k.KDeliver? || k.KWritten? {
      TakeFrame(cfg, s, o, k, s');
    } else {
      AckFrame(cfg, s, o, k, s');
    }
  }

  lemma WorkerFrame(cfg: Config, s: State, w: string, x: WorkerStep, s': State)
    requires WorkerNext(cfg, s, w, x) == Some(s')
    ensures s'.now == s.now && s'.db == s.db.(outbox := s'.db.outbox) && s'.redis == s.redis && s'.pods == s.pods
              && s'.ops == s.ops
    ensures s'.aux == s.aux.(claims := s'.aux.claims, published := s'.aux.published)
  {}

  lemma EnvFrame(cfg: Config, s: State, e: EnvStep, s': State)
    requires EnvNext(cfg, s, e) == Some(s')
    ensures s.now <= s'.now && (!e.Tick? ==> s'.now == s.now)
    ensures s'.db == s.db && s'.workers == s.workers && s'.aux == s.aux && s'.redis.bloom == s.redis.bloom
    ensures !e.AbortDelivery? ==> s'.queue == s.queue && s'.ops.deliveries == s.ops.deliveries
    ensures e.AbortDelivery? ==> e.o in s.ops.deliveries && s' == Requeue(s, e.o)
    ensures forall o :: o in s'.ops.rebuilds ==> o in s.ops.rebuilds && s'.ops.rebuilds[o] == s.ops.rebuilds[o]
    ensures forall p :: PodAt(s', p).bloomReady ==>
              PodAt(s, p).bloomReady && PodAt(s', p).rebuiltFrom == PodAt(s, p).rebuiltFrom
  {}
}
