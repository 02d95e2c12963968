/** Every copy of a link, in any tier, message or local variable, agrees with the committed row. */
module Agreement {
  import opened Common
  import opened SystemModel
  import Outbox
  import Bloom
  import Frames

  ghost predicate Extends(links: map<string, Link>, later: map<string, Link>) {
    forall c :: c in links ==> c in later && later[c] == links[c]
  }

  ghost predicate LinksOk(cfg: Config, links: map<string, Link>) {
    && (forall c :: c in links ==>
          c != "" && links[c].id > 0 && links[c].url != "" && links[c].hash == cfg.md5(links[c].url))
    && (forall c, d :: c in links && d in links && (links[c].hash == links[d].hash || links[c].id == links[d].id) ==>
          c == d)
  }

  ghost predicate Agrees(links: map<string, Link>, m: Message) {
    m.code in links && links[m.code].url == m.url && links[m.code].hash == m.hash
  }

  ghost predicate IsUrl(links: map<string, Link>, code: string, url: string) {
    code in links && links[code].url == url
  }

  ghost predicate IsHash(links: map<string, Link>, code: string, hash: string) {
    code in links && links[code].hash == hash
  }

  ghost predicate TierOk(links: map<string, Link>, tier: map<string, Cached>) {
    forall c :: c in tier && tier[c].value != "" ==> IsUrl(links, c, tier[c].value)
  }

  ghost predicate HashTierOk(links: map<string, Link>, tier: map<string, Cached>) {
    forall h :: h in tier && tier[h].value != "" ==> IsHash(links, tier[h].value, h)
  }

  ghost predicate PodsOk(links: map<string, Link>, pods: map<nat, Pod>) {
    forall p :: p in pods ==> TierOk(links, pods[p].l1) && HashTierOk(links, pods[p].hashL1)
  }

  ghost predicate CreateOk(cfg: Config, links: map<string, Link>, op: CreateOp) {
    match op
    case CreateRedis(_, url) => url != ""
    case CreateFind(_, url) => url != ""
    case CreateInsert(_, url) => url != ""
    case CreateFillRedis(_, url, code) => IsHash(links, code, cfg.md5(url))
    case CreateFillL1(_, url, code) => IsHash(links, code, cfg.md5(url))
    case CreateSetL1(_, url, code) => IsUrl(links, code, url)
    case CreateSetHashL1(_, url, code) => IsUrl(links, code, url)
    case CreateWriteThrough(_, url, code) => IsUrl(links, code, url)
    case CreateDone(url, code) => IsHash(links, code, cfg.md5(url))
    case _ => true
  }

  ghost predicate RedirectOk(links: map<string, Link>, op: RedirectOp) {
    match op
    case RedirectPosRedis(_, code, url) => url != "" && IsUrl(links, code, url)
    case RedirectPosL1(_, code, url) => url != "" && IsUrl(links, code, url)
    case RedirectFound(code, url) => IsUrl(links, code, url)
    case _ => true
  }

  ghost predicate OpsOk(cfg: Config, s: State, links: map<string, Link>) {
    && (forall o :: o in s.ops.creates ==> CreateOk(cfg, links, s.ops.creates[o]))
    && (forall o :: o in s.ops.redirects ==> RedirectOk(links, s.ops.redirects[o]))
    && (forall o :: o in s.ops.deliveries ==> Agrees(links, s.ops.deliveries[o].msg))
  }

  ghost predicate JobsOk(links: map<string, Link>, batch: seq<Job>) {
    forall i :: 0 <= i < |batch| ==> Agrees(links, batch[i].msg)
  }

  ghost predicate WorkerOk(links: map<string, Link>, w: Worker) {
    match w
    case Publishing(batch, _, _) => JobsOk(links, batch)
    case PublishFailed(batch, _, _) => JobsOk(links, batch)
    case _ => true
  }

  ghost predicate WorkersOk(links: map<string, Link>, workers: map<string, Worker>) {
    forall w :: w in workers ==> WorkerOk(links, workers[w])
  }

  ghost predicate OutboxOk(links: map<string, Link>, outbox: Outbox.Table) {
    forall id :: id in outbox ==> Agrees(links, outbox[id].msg)
  }

  ghost predicate QueueOk(links: map<string, Link>, queue: multiset<Message>) {
    forall m :: m in queue ==> Agrees(links, m)
  }

  ghost predicate AllAgree(cfg: Config, s: State) {
    && LinksOk(cfg, s.db.links)
    && TierOk(s.db.links, s.redis.link)
    && HashTierOk(s.db.links, s.redis.hash)
    && PodsOk(s.db.links, s.pods)
    && OpsOk(cfg, s, s.db.links)
    && WorkersOk(s.db.links, s.workers)
    && OutboxOk(s.db.links, s.db.outbox)
    && QueueOk(s.db.links, s.queue)
  }

  lemma OpsGrow(cfg: Config, s: State, links: map<string, Link>)
    requires OpsOk(cfg, s, s.db.links) && Extends(s.db.links, links)
    ensures OpsOk(cfg, s, links)
  {
    forall o | o in s.ops.creates ensures CreateOk(cfg, links, s.ops.creates[o]) {
      assert CreateOk(cfg, s.db.links, s.ops.creates[o]);
    }
    forall o | o in s.ops.redirects ensures RedirectOk(links, s.ops.redirects[o]) {
      assert RedirectOk(s.db.links, s.ops.redirects[o]);
    }
  }

  lemma WorkersGrow(s: State, links: map<string, Link>)
    requires WorkersOk(s.db.links, s.workers) && Extends(s.db.links, links)
    ensures WorkersOk(links, s.workers)
  {
    forall w | w in s.workers ensures WorkerOk(links, s.workers[w]) {
      assert WorkerOk(s.db.links, s.workers[w]);
    }
  }

  lemma PodsGrow(s: State, links: map<string, Link>)
    requires PodsOk(s.db.links, s.pods) && Extends(s.db.links, links)
    ensures PodsOk(links, s.pods)
  {
    forall p | p in s.pods ensures TierOk(links, s.pods[p].l1) && HashTierOk(links, s.pods[p].hashL1) {
      assert TierOk(s.db.links, s.pods[p].l1) && HashTierOk(s.db.links, s.pods[p].hashL1);
    }
  }

  lemma AgreementGrows(cfg: Config, s: State, links: map<string, Link>)
    requires AllAgree(cfg, s) && Extends(s.db.links, links) && LinksOk(cfg, links)
    ensures AllAgree(cfg, s.(db := s.db.(links := links)))
  {
    hide OpsOk, WorkersOk, PodsOk;
    OpsGrow(cfg, s, links);
    WorkersGrow(s, links);
    PodsGrow(s, links);
    SameOps(cfg, s, s.(db := s.db.(links := links)), links);
  }

  lemma SameOps(cfg: Config, s: State, s': State, links: map<string, Link>)
    requires OpsOk(cfg, s, links) && s'.ops == s.ops
    ensures OpsOk(cfg, s', links)
  {}

  // ---- what each kind of write needs ----

  lemma AfterGoCreate(cfg: Config, s: State, o: nat, op: CreateOp)
    requires AllAgree(cfg, s) && CreateOk(cfg, s.db.links, op)
    ensures AllAgree(cfg, GoCreate(s, o, op))
  {}

  lemma AfterGoRedirect(cfg: Config, s: State, o: nat, op: RedirectOp)
    requires AllAgree(cfg, s) && RedirectOk(s.db.links, op)
    ensures AllAgree(cfg, GoRedirect(s, o, op)) && GoRedirect(s, o, op).db == s.db
  {}

  lemma AfterGoDelivery(cfg: Config, s: State, o: nat, d: Delivery)
    requires AllAgree(cfg, s) && Agrees(s.db.links, d.msg)
    ensures AllAgree(cfg, GoDelivery(s, o, d))
  {}

  lemma AfterRequeue(cfg: Config, s: State, o: nat)
    requires AllAgree(cfg, s) && o in s.ops.deliveries
    ensures AllAgree(cfg, Requeue(s, o))
  {}

  lemma AfterPutLink(cfg: Config, s: State, code: string, e: Cached)
    requires AllAgree(cfg, s) && (e.value != "" ==> IsUrl(s.db.links, code, e.value))
    ensures AllAgree(cfg, PutLink(s, code, e))
  {
    assert TierOk(s.db.links, s.redis.link[code := e]);
  }

  lemma AfterWrite(cfg: Config, s: State, m: Message, cmd: RedisCmd)
    requires AllAgree(cfg, s)
    requires cmd.SetLink? ==> IsUrl(s.db.links, m.code, m.url)
    requires cmd.SetHash? ==> IsHash(s.db.links, m.code, m.hash)
    ensures AllAgree(cfg, Write(s, m, cmd))
  {
    match cmd
    case SetLink(ttl) => AfterPutLink(cfg, s, m.code, Cached(m.url, s.now + ttl, 0));
    case SetHash(_) => assert HashTierOk(s.db.links, Write(s, m, cmd).redis.hash);
    case SetBit(_) =>
  }

  lemma AfterPod(cfg: Config, s: State, p: nat, pod: Pod)
    requires AllAgree(cfg, s) && TierOk(s.db.links, pod.l1) && HashTierOk(s.db.links, pod.hashL1)
    ensures AllAgree(cfg, s.(pods := s.pods[p := pod]))
  {}

  lemma PodOk(cfg: Config, s: State, p: nat)
    requires AllAgree(cfg, s)
    ensures TierOk(s.db.links, PodAt(s, p).l1) && HashTierOk(s.db.links, PodAt(s, p).hashL1)
  {}

  lemma AfterSetL1(cfg: Config, s: State, p: nat, code: string, value: string, evidence: Time)
    requires AllAgree(cfg, s) && (value != "" ==> IsUrl(s.db.links, code, value))
    ensures AllAgree(cfg, SetL1(s, p, code, value, evidence))
  {
    var pod := PodAt(s, p);
    assert TierOk(s.db.links, pod.l1) && HashTierOk(s.db.links, pod.hashL1);
    AfterPod(cfg, s, p, pod.(l1 := pod.l1[code := Cached(value, s.now + L1_TTL, evidence)]));
  }

  lemma AfterSetHashL1(cfg: Config, s: State, p: nat, hash: string, code: string)
    requires AllAgree(cfg, s) && IsHash(s.db.links, code, hash)
    ensures AllAgree(cfg, SetHashL1(s, p, hash, code))
  {
    var pod := PodAt(s, p);
    assert TierOk(s.db.links, pod.l1) && HashTierOk(s.db.links, pod.hashL1);
    AfterPod(cfg, s, p, pod.(hashL1 := pod.hashL1[hash := Cached(code, s.now + URLHASH_TTL, 0)]));
  }

  lemma AfterQueue(cfg: Config, s: State, queue: multiset<Message>)
    requires AllAgree(cfg, s) && QueueOk(s.db.links, queue)
    ensures AllAgree(cfg, s.(queue := queue))
  {}

  lemma AfterBecome(cfg: Config, s: State, w: string, worker: Worker)
    requires AllAgree(cfg, s) && WorkerOk(s.db.links, worker)
    ensures AllAgree(cfg, Become(s, w, worker))
  {}

  /** Rows keep their message; columns and history may change. */
  lemma AfterOutbox(cfg: Config, s: State, outbox: Outbox.Table, aux: History)
    requires AllAgree(cfg, s)
    requires forall id :: id in outbox ==> id in s.db.outbox && outbox[id].msg == s.db.outbox[id].msg
    ensures AllAgree(cfg, s.(db := s.db.(outbox := outbox), aux := aux))
  {}

  lemma AfterInsert(cfg: Config, s: State, id: nat, m: Message)
    requires AllAgree(cfg, s) && id > 0 && m.code != "" && m.url != "" && m.hash == cfg.md5(m.url)
              && m.code !in s.db.links
    requires forall d :: d in s.db.links ==> s.db.links[d].hash != m.hash && s.db.links[d].id != id
    ensures Extends(s.db.links, Insert(s, id, m).db.links) && AllAgree(cfg, Insert(s, id, m))
  {
    var links := s.db.links[m.code := Link(id, m.url, m.hash)];
    AgreementGrows(cfg, s, links);
    var outbox := s.db.outbox[s.db.nextId := Outbox.NewRow(m, s.now)];
    assert OutboxOk(links, outbox);
  }

  /** Agreement does not speak of the clock, the bitmap, the rebuilds or the history. */
  lemma AfterOther(cfg: Config, s: State, s': State)
    requires AllAgree(cfg, s)
    requires s' == s.(now := s'.now, redis := s.redis.(bloom := s'.redis.bloom),
              ops := s.ops.(rebuilds := s'.ops.rebuilds), aux := s'.aux)
    ensures AllAgree(cfg, s')
  {}

  lemma AfterNoted(cfg: Config, s: State, a: Absence)
    requires AllAgree(cfg, s)
    ensures AllAgree(cfg, Noted(s, a)) && Noted(s, a).db == s.db && Noted(s, a).now == s.now
  {}

  // ---- the steps ----

  lemma CreateOpOk(cfg: Config, s: State, o: nat)
    requires AllAgree(cfg, s) && o in s.ops.creates
    ensures CreateOk(cfg, s.db.links, s.ops.creates[o])
    ensures HashTierOk(s.db.links, s.redis.hash)
  {}

  lemma RedirectOpOk(cfg: Config, s: State, o: nat)
    requires AllAgree(cfg, s) && o in s.ops.redirects
    ensures RedirectOk(s.db.links, s.ops.redirects[o])
    ensures TierOk(s.db.links, s.redis.link)
    ensures forall c :: c in s.db.links ==> s.db.links[c].url != ""
  {}

  lemma LookupOk(cfg: Config, s: State, o: nat, c: CreateStep, s': State)
    requires AllAgree(cfg, s) && CreateNext(cfg, s, o, c) == Some(s') && (c.CLookup? || c.CRedis?)
    ensures o in s'.ops.creates && CreateOk(cfg, s.db.links, s'.ops.creates[o])
  {
    hide AllAgree;
    CreateOpOk(cfg, s, o);
    if c.CLookup? {
      PodOk(cfg, s, s.ops.creates[o].p);
    }
  }

  lemma MoveOk(cfg: Config, s: State, o: nat, c: CreateStep, s': State)
    requires AllAgree(cfg, s) && CreateNext(cfg, s, o, c) == Some(s') && Frames.Moves(c) && !c.CLookup? && !c.CRedis?
    ensures o in s'.ops.creates && CreateOk(cfg, s.db.links, s'.ops.creates[o])
  {
    hide AllAgree;
    if o in s.ops.creates {
      CreateOpOk(cfg, s, o);
      if c.CReturn? {
        IsUrlHash(cfg, s, s.ops.creates[o].code, s.ops.creates[o].url);
      }
    }
  }

  lemma CreateWrites(cfg: Config, s: State, o: nat, c: CreateStep, s': State)
    requires AllAgree(cfg, s) && CreateNext(cfg, s, o, c) == Some(s') && (c.CFillRedis? || c.CWrite?)
    ensures AllAgree(cfg, s') && s'.db == s.db
  {
    hide AllAgree, Write;
    var op := s.ops.creates[o];
    CreateOpOk(cfg, s, o);
    var m := Message(op.code, op.url, cfg.md5(op.url));
    Frames.CreateRedisFrame(cfg, s, o, c, s');
    match c {
      case CFillRedis(applied, ttl) =>
        AfterWrite(cfg, s, m, SetHash(ttl));
        AfterGoCreate(cfg, if applied then Write(s, m, SetHash(ttl)) else s, o, CreateFillL1(op.p, op.url, op.code));
      case CWrite(cmd) =>
        IsUrlHash(cfg, s, op.code, op.url);
        AfterWrite(cfg, s, m, cmd);
    }
  }

  lemma CreateFillsL1(cfg: Config, s: State, o: nat, c: CreateStep, s': State)
    requires AllAgree(cfg, s) && CreateNext(cfg, s, o, c) == Some(s') && (c.CFillL1? || c.CSetL1? || c.CSetHashL1?)
    ensures AllAgree(cfg, s') && s'.db == s.db
  {
    hide AllAgree;
    var op := s.ops.creates[o];
    CreateOpOk(cfg, s, o);
    var h := cfg.md5(op.url);
    match c {
      case CFillL1 =>
        AfterSetHashL1(cfg, s, op.p, h, op.code);
        AfterGoCreate(cfg, SetHashL1(s, op.p, h, op.code), o, CreateDone(op.url, op.code));
      case CSetL1 =>
        AfterSetL1(cfg, s, op.p, op.code, op.url, 0);
        AfterGoCreate(cfg, SetL1(s, op.p, op.code, op.url, 0), o, CreateSetHashL1(op.p, op.url, op.code));
      case CSetHashL1 =>
        IsUrlHash(cfg, s, op.code, op.url);
        AfterSetHashL1(cfg, s, op.p, h, op.code);
        AfterGoCreate(cfg, SetHashL1(s, op.p, h, op.code), o, CreateWriteThrough(op.p, op.url, op.code));
    }
  }

  lemma CreateKeeps(cfg: Config, s: State, o: nat, c: CreateStep, s': State)
    requires AllAgree(cfg, s) && CreateNext(cfg, s, o, c) == Some(s')
    ensures AllAgree(cfg, s') && Extends(s.db.links, s'.db.links)
  {
    hide AllAgree, CreateNext;
    if Frames.Moves(c) {
      Frames.MoveFrame(cfg, s, o, c, s');
      if c.CLookup? || c.CRedis? {
        LookupOk(cfg, s, o, c, s');
      } else {
        MoveOk(cfg, s, o, c, s');
      }
      AfterGoCreate(cfg, s, o, s'.ops.creates[o]);
    } else if c.CInsert? {
      InsertKeeps(cfg, s, o, c, s');
    } else if c.CFillRedis? || c.CWrite? {
      CreateWrites(cfg, s, o, c, s');
    } else {
      CreateFillsL1(cfg, s, o, c, s');
    }
  }

  lemma IsUrlHash(cfg: Config, s: State, code: string, url: string)
    requires AllAgree(cfg, s) && IsUrl(s.db.links, code, url)
    ensures IsHash(s.db.links, code, cfg.md5(url))
  {}

  lemma InsertKeeps(cfg: Config, s: State, o: nat, c: CreateStep, s': State)
    requires AllAgree(cfg, s) && c.CInsert? && CreateNext(cfg, s, o, c) == Some(s')
    ensures AllAgree(cfg, s') && Extends(s.db.links, s'.db.links)
  {
    var op := s.ops.creates[o];
    assert CreateOk(cfg, s.db.links, op);
    var m := Message(c.code, op.url, cfg.md5(op.url));
    if c.applied && Unused(s.db.links, c.id, c.code, m.hash) {
      AfterInsert(cfg, s, c.id, m);
      AfterGoCreate(cfg, Insert(s, c.id, m), o, if c.ok then CreateSetL1(op.p, op.url, c.code)
          else CreateFailed(op.url));
    } else {
      AfterGoCreate(cfg, s, o, CreateFailed(op.url));
    }
  }

  lemma RedirectReads(cfg: Config, s: State, o: nat, r: RedirectStep, s': State)
    requires AllAgree(cfg, s) && RedirectNext(cfg, s, o, r) == Some(s') && (r.RL1? || r.RRedis?)
    ensures AllAgree(cfg, s') && s'.db == s.db
  {
    hide AllAgree, RedirectNext, GoRedirect;
    if r.RL1? {
      Frames.L1StepIs(cfg, s, o, r, s');
      var op := s.ops.redirects[o];
      var next := if op.RedirectL1? then RedirectRecheck(op.p, op.code) else RedirectRedis(op.p, op.code);
      PodOk(cfg, s, op.p);
      AfterGoRedirect(cfg, s, o, L1Answer(s, op.p, op.code, next));
    } else {
      Frames.RedisStepIs(cfg, s, o, r, s');
      var op := s.ops.redirects[o];
      RedirectOpOk(cfg, s, o);
      AfterGoRedirect(cfg, s, o, RedirectBloom(op.p, op.code));
      if op.code in s.redis.link {
        var e := s.redis.link[op.code];
        AfterGoRedirect(cfg, s, o, RedirectNegL1(op.p, op.code, e.evidence, s.now));
        if e.value != "" {
          AfterGoRedirect(cfg, s, o, RedirectPosL1(op.p, op.code, e.value));
        }
      }
    }
  }

  lemma RedirectQueries(cfg: Config, s: State, o: nat, r: RedirectStep, s': State)
    requires AllAgree(cfg, s) && RedirectNext(cfg, s, o, r) == Some(s') && (r.RBloom? || r.RReplica? || r.RMaster?)
    ensures AllAgree(cfg, s') && s'.db == s.db
  {
    hide AllAgree, RedirectNext, GoRedirect, Noted;
    match r {
      case RBloom(_) => Frames.BloomStepIs(cfg, s, o, r, s');
      case RReplica(_, _) => Frames.ReplicaStepIs(cfg, s, o, r, s');
      case RMaster(_) => Frames.MasterStepIs(cfg, s, o, r, s');
    }
    var op := s.ops.redirects[o];
    RedirectOpOk(cfg, s, o);
    var a := if r.RBloom? then AtBloom(op.code, s.now, op.p) else AtMaster(op.code, s.now);
    AfterNoted(cfg, s, a);
    AfterGoRedirect(cfg, s, o, RedirectReplica(op.p, op.code));
    AfterGoRedirect(cfg, s, o, RedirectMaster(op.p, op.code));
    AfterGoRedirect(cfg, s, o, RedirectFailed(op.code));
    AfterGoRedirect(cfg, Noted(s, a), o, RedirectNegL1(op.p, op.code, s.now, s.now));
    AfterGoRedirect(cfg, Noted(s, a), o, RedirectNegRedis(op.p, op.code, s.now));
    if op.code in s.db.links {
      AfterGoRedirect(cfg, s, o, RedirectPosRedis(op.p, op.code, s.db.links[op.code].url));
    }
  }

  lemma RedirectStores(cfg: Config, s: State, o: nat, r: RedirectStep, s': State)
    requires AllAgree(cfg, s) && RedirectNext(cfg, s, o, r) == Some(s') && !Frames.Looks(r)
    ensures AllAgree(cfg, s') && s'.db == s.db
  {
    hide AllAgree;
    var op := s.ops.redirects[o];
    RedirectOpOk(cfg, s, o);
    match r {
      case RNegRedis(applied) =>
        var e := Cached("", s.now + NULL_TTL, op.evidence);
        AfterPutLink(cfg, s, op.code, e);
        AfterGoRedirect(cfg, if applied then PutLink(s, op.code, e) else s, o,
            RedirectNegL1(op.p, op.code, op.evidence, op.evidence));
      case RNegL1 =>
        AfterSetL1(cfg, s, op.p, op.code, "", op.evidence);
        AfterGoRedirect(cfg, SetL1(s, op.p, op.code, "", op.evidence), o,
            RedirectNotFound(op.code, op.evidence, s.now));
      case RPosRedis(applied, ttl) =>
        var e := Cached(op.url, s.now + ttl, 0);
        AfterPutLink(cfg, s, op.code, e);
        AfterGoRedirect(cfg, if applied then PutLink(s, op.code, e) else s, o, RedirectPosL1(op.p, op.code, op.url));
      case RPosL1 =>
        AfterSetL1(cfg, s, op.p, op.code, op.url, 0);
        AfterGoRedirect(cfg, SetL1(s, op.p, op.code, op.url, 0), o, RedirectFound(op.code, op.url));
    }
  }

  lemma RedirectBegins(cfg: Config, s: State, o: nat, r: RedirectStep, s': State)
    requires AllAgree(cfg, s) && RedirectNext(cfg, s, o, r) == Some(s') && r.RBegin?
    ensures AllAgree(cfg, s') && s'.db == s.db
  {
    hide AllAgree;
    AfterGoRedirect(cfg, s, o, RedirectL1(r.p, r.code));
  }

  lemma RedirectKeeps(cfg: Config, s: State, o: nat, r: RedirectStep, s': State)
    requires AllAgree(cfg, s) && RedirectNext(cfg, s, o, r) == Some(s')
    ensures AllAgree(cfg, s') && s'.db == s.db
  {
    hide AllAgree, RedirectNext;
    if r.RBegin? {
      RedirectBegins(cfg, s, o, r, s');
    } else if r.RL1? || r.RRedis? {
      RedirectReads(cfg, s, o, r, s');
    } else if Frames.Looks(r) {
      RedirectQueries(cfg, s, o, r, s');
    } else {
      RedirectStores(cfg, s, o, r, s');
    }
  }

  lemma RebuildKeeps(cfg: Config, s: State, o: nat, b: RebuildStep, s': State)
    requires AllAgree(cfg, s) && RebuildNext(cfg, s, o, b) == Some(s')
    ensures AllAgree(cfg, s') && Extends(s.db.links, s'.db.links)
  {
    if b.BFinish? {
      var p := s.ops.rebuilds[o].p;
      PodOk(cfg, s, p);
      AfterPod(cfg, s, p, s'.pods[p]);
      AfterOther(cfg, s.(pods := s'.pods), s');
    } else {
      AfterOther(cfg, s, s');
    }
  }

  lemma ConsumeKeeps(cfg: Config, s: State, o: nat, k: ConsumeStep, s': State)
    requires AllAgree(cfg, s) && ConsumeNext(cfg, s, o, k) == Some(s')
    ensures AllAgree(cfg, s') && Extends(s.db.links, s'.db.links)
  {
    if k.KDeliver? {
      AfterQueue(cfg, s, s'.queue);
      AfterGoDelivery(cfg, s.(queue := s'.queue), o, s'.ops.deliveries[o]);
      return;
    }
    var d := s.ops.deliveries[o];
    match k {
      case KWrite(cmd) =>
        AfterWrite(cfg, s, d.msg, cmd);
        AfterGoDelivery(cfg, Write(s, d.msg, cmd), o, s'.ops.deliveries[o]);
      case KWritten =>
        AfterOther(cfg, s, s.(aux := s'.aux));
        AfterGoDelivery(cfg, s.(aux := s'.aux), o, s'.ops.deliveries[o]);
      case KSetL1 =>
        AfterSetL1(cfg, s, d.p, d.msg.code, d.msg.url, 0);
        AfterGoDelivery(cfg, SetL1(s, d.p, d.msg.code, d.msg.url, 0), o, s'.ops.deliveries[o]);
      case KSetHashL1 =>
        AfterSetHashL1(cfg, s, d.p, d.msg.hash, d.msg.code);
        AfterGoDelivery(cfg, SetHashL1(s, d.p, d.msg.hash, d.msg.code), o, s'.ops.deliveries[o]);
      case _ =>
        AfterRequeue(cfg, s, o);
    }
  }

  lemma AtOk(cfg: Config, s: State, w: string)
    requires AllAgree(cfg, s)
    ensures WorkerOk(s.db.links, WorkerAt(s, w))
  {}

  lemma AfterSettling(cfg: Config, s: State, w: string, id: nat, ids: set<nat>)
    requires AllAgree(cfg, s)
    ensures AllAgree(cfg, SettleFailed(cfg, s, w, id)) && AllAgree(cfg, SettleSent(s, w, ids))
    ensures AllAgree(cfg, s.(db := s.db.(outbox := s.db.outbox - ids)))
  {
    var f, g := SettleFailed(cfg, s, w, id), SettleSent(s, w, ids);
    AfterOutbox(cfg, s, f.db.outbox, f.aux);
    AfterOutbox(cfg, s, g.db.outbox, g.aux);
    AfterOutbox(cfg, s, s.db.outbox - ids, s.aux);
  }

  lemma AfterClaim(cfg: Config, s: State, w: string, ids: seq<nat>)
    requires AllAgree(cfg, s) && CanClaim(s, ids)
    ensures AllAgree(cfg, ClaimAll(cfg, s, w, ids)) && WorkerOk(s.db.links, Publishing(JobsOf(s, ids), 0, []))
  {
    var s1 := ClaimAll(cfg, s, w, ids);
    AfterOutbox(cfg, s, s1.db.outbox, s1.aux);
  }

  lemma AfterPublish(cfg: Config, s: State, m: Message, aux: History)
    requires AllAgree(cfg, s) && Agrees(s.db.links, m)
    ensures AllAgree(cfg, s.(queue := s.queue + multiset{m}, aux := aux)) && AllAgree(cfg, s.(aux := aux))
  {
    assert QueueOk(s.db.links, s.queue + multiset{m});
  }

  lemma WorkerKeeps(cfg: Config, s: State, w: string, x: WorkerStep, s': State)
    requires AllAgree(cfg, s) && WorkerNext(cfg, s, w, x) == Some(s')
    ensures AllAgree(cfg, s') && s'.db.links == s.db.links
  {
    hide AllAgree;
    var at := WorkerAt(s, w);
    AtOk(cfg, s, w);
    match x {
      case WClaim(ids, applied, ok) =>
        if applied {
          AfterClaim(cfg, s, w, ids);
          AfterBecome(cfg, ClaimAll(cfg, s, w, ids), w, if ok && ids != [] then Publishing(JobsOf(s, ids), 0, [])
              else Idle);
        }
      case WPublish(enqueued, ok) =>
        var m := at.batch[at.pos].msg;
        AfterPublish(cfg, s, m, s'.aux);
        AfterBecome(cfg, s.(queue := if enqueued then s.queue + multiset{m} else s.queue, aux := s'.aux), w,
            s'.workers[w]);
      case WMarkFailed(applied) =>
        AfterSettling(cfg, s, w, at.batch[at.pos].id, {});
        AfterBecome(cfg, if applied then SettleFailed(cfg, s, w, at.batch[at.pos].id) else s, w,
            Publishing(at.batch, at.pos + 1, at.sent));
      case WMarkSent(applied) =>
        AfterSettling(cfg, s, w, 0, Outbox.Elements(at.sent));
        AfterBecome(cfg, if applied then SettleSent(s, w, Outbox.Elements(at.sent)) else s, w, Settled);
      case WPluck(ids) => AfterBecome(cfg, s, w, Cleaning(ids, s.now - cfg.retain));
      case WDelete(applied) =>
        AfterSettling(cfg, s, w, 0, at.ids);
        AfterBecome(cfg, if applied then s.(db := s.db.(outbox := s.db.outbox - at.ids)) else s, w, Idle);
      case WSkipCleanup => AfterBecome(cfg, s, w, Idle);
      case WCrash => AfterBecome(cfg, s, w, Idle);
    }
  }

  lemma EnvKeeps(cfg: Config, s: State, e: EnvStep, s': State)
    requires AllAgree(cfg, s) && EnvNext(cfg, s, e) == Some(s')
    ensures AllAgree(cfg, s') && Extends(s.db.links, s'.db.links)
  {
    match e {
      case PodReset(p) => AfterPod(cfg, s, p, EMPTY_POD);
      case L1Drop(p, _) =>
        PodOk(cfg, s, p);
        AfterPod(cfg, s, p, s'.pods[p]);
      case HashL1Drop(p, _) =>
        PodOk(cfg, s, p);
        AfterPod(cfg, s, p, s'.pods[p]);
      case AbortDelivery(o) => AfterRequeue(cfg, s, o);
      case _ =>
    }
  }

  lemma StepKeepsAgreement(cfg: Config, s: State, l: Label, s': State)
    requires AllAgree(cfg, s) && Next(cfg, s, l) == Some(s')
    ensures AllAgree(cfg, s') && Extends(s.db.links, s'.db.links)
  {
    match l
    case Create(o, c) => CreateKeeps(cfg, s, o, c, s');
    case Redirect(o, r) => RedirectKeeps(cfg, s, o, r, s');
    case Rebuild(o, b) => RebuildKeeps(cfg, s, o, b, s');
    case Consume(o, k) => ConsumeKeeps(cfg, s, o, k, s');
    case Work(w, x) => WorkerKeeps(cfg, s, w, x, s');
    case Env(e) => EnvKeeps(cfg, s, e, s');
  }
}
