/** The whole service as one state machine: the database, Redis, the broker, the pods with their local caches,
    the outbox workers, and every Create, Redirect, Bloom rebuild and consumed message in flight.

    One step is one access to one shared component, so runs interleave the code at that grain.  Calls may fail,
    with or without effect; operations may be aborted; workers may crash.  Fields marked "aux" are history that
    no step reads to decide anything. */
module SystemModel {
  import opened Common
  import Outbox
  import Bloom

  const L1_TTL: Time := 300_000
  const NULL_TTL: Time := 300_000
  const URLHASH_TTL: Time := 600_000
  const OUTBOX_BATCH_SIZE := 100

  /** `md5` is any function.  `delta`, when given, bounds how long one Redirect may sit on a negative
      finding before it has stored it; `Some(0)` makes that part of Redirect atomic. */
  datatype Config = Config(md5: string -> string, filter: Bloom.Filter, maxRetry: int, order: Outbox.AssignOrder,
                           lease: Time, retain: Time, delta: Option<Time>)

  /** A cache entry; "" is the negative value.
      aux `evidence`: when the code of a negative entry was found to be absent. */
  datatype Cached = Cached(value: string, expireAt: Time, evidence: Time)

  /** aux `rebuiltFrom`: the codes that were committed when the pod's finished rebuild began. */
  datatype Pod = Pod(l1: map<string, Cached>, hashL1: map<string, Cached>, bloomReady: bool, rebuiltFrom: set<string>)

  const EMPTY_POD := Pod(map[], map[], false, {})

  /** aux: the fate of one claim of one outbox row. */
  datatype Outcome = Open | WasSent(at: Time) | WasFailed(at: Time)
  datatype ClaimRecord = ClaimRecord(worker: string, from: Time, until: Time, outcome: Outcome)

  /** aux: an instant at which a code was found to be absent, in the master or in a pod's ready Bloom filter. */
  datatype Absence = AtMaster(code: string, at: Time) | AtBloom(code: string, at: Time, pod: nat)

  /** A message in a worker's hands; aux `claim` is the index of the claim that delivered it. */
  datatype Job = Job(id: nat, msg: Message, claim: nat)

  datatype Worker =
    | Idle
    | Publishing(batch: seq<Job>, pos: nat, sent: seq<nat>)
    | PublishFailed(batch: seq<Job>, pos: nat, sent: seq<nat>)
    | Settled
    | Cleaning(ids: set<nat>, deadline: int)

  /** Where an operation stands, with its local variables; `p` is its pod. */
  datatype CreateOp =
    | CreateLookup(p: nat, url: string)
    | CreateRedis(p: nat, url: string)
    | CreateFind(p: nat, url: string)
    | CreateFillRedis(p: nat, url: string, code: string)
    | CreateFillL1(p: nat, url: string, code: string)
    | CreateInsert(p: nat, url: string)
    | CreateSetL1(p: nat, url: string, code: string)
    | CreateSetHashL1(p: nat, url: string, code: string)
    | CreateWriteThrough(p: nat, url: string, code: string)
    | CreateDone(url: string, code: string)
    | CreateFailed(url: string)

  datatype RedirectOp =
    | RedirectL1(p: nat, code: string)
    | RedirectRecheck(p: nat, code: string)
    | RedirectRedis(p: nat, code: string)
    | RedirectBloom(p: nat, code: string)
    | RedirectReplica(p: nat, code: string)
    | RedirectMaster(p: nat, code: string)
    | RedirectNegRedis(p: nat, code: string, evidence: Time)
    | RedirectNegL1(p: nat, code: string, evidence: Time, held: Time)
    | RedirectPosRedis(p: nat, code: string, url: string)
    | RedirectPosL1(p: nat, code: string, url: string)
    | RedirectFound(code: string, url: string)
    | RedirectNotFound(code: string, evidence: Time, at: Time)
    | RedirectFailed(code: string)

  /** RebuildBloom; aux `start`: the codes committed when it began. */
  datatype RebuildOp =
    | RebuildScan(p: nat, lastID: nat, start: set<string>)
    | RebuildWrite(p: nat, lastID: nat, upto: nat, start: set<string>, page: set<string>)

  /** An unacknowledged delivery and what its consumer has done with it. */
  datatype Delivery = Delivery(p: nat, msg: Message, stage: Stage)
  datatype Stage = Applying(link: bool, hash: bool, bits: set<nat>) | AtL1 | AtHashL1 | AtAck

  datatype Db = Db(links: map<string, Link>, outbox: Outbox.Table, nextId: nat)

  datatype Redis = Redis(link: map<string, Cached>, hash: map<string, Cached>, bloom: set<nat>)

  datatype Ops = Ops(creates: map<nat, CreateOp>, redirects: map<nat, RedirectOp>,
                     rebuilds: map<nat, RebuildOp>, deliveries: map<nat, Delivery>)

  /** aux.
      `legacy`: the codes that were there before the outbox; `origin`: the outbox row written with a link;
      `claims`: all claims of a row, oldest first; `published`: the rows whose publish returned nil;
      `applied`: the messages whose Redis and Bloom writes have all happened. */
  datatype History = History(legacy: set<string>, origin: map<string, nat>, claims: map<nat, seq<ClaimRecord>>,
                             published: map<nat, Message>, applied: set<Message>, absences: set<Absence>)

  datatype State = State(now: Time, db: Db, redis: Redis, pods: map<nat, Pod>, queue: multiset<Message>,
                         workers: map<string, Worker>, ops: Ops, aux: History)

  // ---- labels ----

  datatype RedisCmd = SetLink(ttl: Time) | SetHash(ttl: Time) | SetBit(bit: nat)

  datatype CreateStep =
    | CBegin(p: nat, url: string)
    | CLookup
    | CRedis(ok: bool)
    | CFindHit(code: string) | CFindMiss | CFindErr
    | CFillRedis(applied: bool, ttl: Time)
    | CFillL1
    | CInsert(id: nat, code: string, applied: bool, ok: bool)
    | CSetL1
    | CSetHashL1
    | CWrite(cmd: RedisCmd)
    | CReturn

  datatype RedirectStep =
    | RBegin(p: nat, code: string)
    | RL1
    | RRedis(ok: bool)
    | RBloom(ok: bool)
    | RReplica(visible: bool, ok: bool)
    | RMaster(ok: bool)
    | RNegRedis(applied: bool)
    | RNegL1
    | RPosRedis(applied: bool, ttl: Time)
    | RPosL1

  datatype RebuildStep = BBegin(p: nat) | BPage(top: string) | BBit(bit: nat) | BNext | BFinish

  datatype ConsumeStep = KDeliver(p: nat, msg: Message) | KWrite(cmd: RedisCmd) | KWritten | KSetL1 | KSetHashL1
                       | KAck(lost: bool) | KNack

  datatype WorkerStep =
    | WClaim(ids: seq<nat>, applied: bool, ok: bool)
    | WPublish(enqueued: bool, ok: bool)
    | WMarkFailed(applied: bool)
    | WMarkSent(applied: bool)
    | WPluck(picked: set<nat>)
    | WDelete(applied: bool)
    | WSkipCleanup
    | WCrash

  datatype EnvStep =
    | Tick(t: Time)
    | RedisDrop(code: string) | RedisHashDrop(hash: string)
    | L1Drop(p: nat, code: string) | HashL1Drop(p: nat, hash: string)
    | PodReset(p: nat)
    | AbortCreate(o: nat) | AbortRedirect(o: nat) | AbortRebuild(o: nat) | AbortDelivery(o: nat)

  datatype Label = Create(o: nat, c: CreateStep) | Redirect(o: nat, r: RedirectStep) | Rebuild(o: nat, b: RebuildStep)
                 | Consume(o: nat, k: ConsumeStep) | Work(w: string, x: WorkerStep) | Env(e: EnvStep)

  // ---- helpers ----

  function PodAt(s: State, p: nat): Pod {
    if p in s.pods then s.pods[p] else EMPTY_POD
  }

  function WorkerAt(s: State, w: string): Worker {
    if w in s.workers then s.workers[w] else Idle
  }

  function GoCreate(s: State, o: nat, op: CreateOp): State {
    s.(ops := s.ops.(creates := s.ops.creates[o := op]))
  }

  function GoRedirect(s: State, o: nat, op: RedirectOp): State {
    s.(ops := s.ops.(redirects := s.ops.redirects[o := op]))
  }

  function GoRebuild(s: State, o: nat, op: RebuildOp): State {
    s.(ops := s.ops.(rebuilds := s.ops.rebuilds[o := op]))
  }

  function GoDelivery(s: State, o: nat, d: Delivery): State {
    s.(ops := s.ops.(deliveries := s.ops.deliveries[o := d]))
  }

  /** L1 keeps an entry through its deadline. */
  predicate L1Live(m: map<string, Cached>, key: string, now: Time) {
    key in m && now <= m[key].expireAt
  }

  predicate RedisLive(m: map<string, Cached>, key: string, now: Time) {
    key in m && now < m[key].expireAt
  }

  function PutLink(s: State, code: string, entry: Cached): State {
    s.(redis := s.redis.(link := s.redis.link[code := entry]))
  }

  function SetBits(s: State, bits: set<nat>): State {
    s.(redis := s.redis.(bloom := s.redis.bloom + bits))
  }

  function SetL1(s: State, p: nat, code: string, value: string, evidence: Time): State {
    var pod := PodAt(s, p);
    s.(pods := s.pods[p := pod.(l1 := pod.l1[code := Cached(value, s.now + L1_TTL, evidence)])])
  }

  function SetHashL1(s: State, p: nat, hash: string, code: string): State {
    var pod := PodAt(s, p);
    s.(pods := s.pods[p := pod.(hashL1 := pod.hashL1[hash := Cached(code, s.now + URLHASH_TTL, 0)])])
  }

  predicate CmdFits(cfg: Config, code: string, cmd: RedisCmd) {
    cmd.SetBit? ==> cmd.bit in Bloom.Bits(cfg.filter, code)
  }

  /** One command of the write pipeline that Create and the consumer share. */
  function Write(s: State, m: Message, cmd: RedisCmd): State {
    match cmd
    case SetLink(ttl) => PutLink(s, m.code, Cached(m.url, s.now + ttl, 0))
    case SetHash(ttl) => s.(redis := s.redis.(hash := s.redis.hash[m.hash := Cached(m.code, s.now + ttl, 0)]))
    case SetBit(b) => SetBits(s, {b})
  }

  predicate Contains(cfg: Config, bloom: set<nat>, code: string) {
    Bloom.Bits(cfg.filter, code) <= bloom
  }

  /** aux: closes the last claim of a row. */
  function Settle(h: seq<ClaimRecord>, outcome: Outcome): seq<ClaimRecord> {
    if h == [] then h else h[|h| - 1 := h[|h| - 1].(outcome := outcome)]
  }

  /** Since when the operation sits on a negative finding that it has not yet stored. */
  function HeldSince(op: RedirectOp): Option<Time> {
    if op.RedirectNegRedis? then Some(op.evidence) else if op.RedirectNegL1? then Some(op.held) else None
  }

  predicate HeldTooLong(op: RedirectOp, delta: Time, t: Time) {
    HeldSince(op).Some? && HeldSince(op).value + delta < t
  }

  /** aux. */
  function ClaimsOf(s: State, id: nat): seq<ClaimRecord> {
    if id in s.aux.claims then s.aux.claims[id] else []
  }

  /** aux. */
  function Noted(s: State, a: Absence): State {
    s.(aux := s.aux.(absences := s.aux.absences + {a}))
  }

  /** The primary key and the two unique indexes. */
  predicate Unused(links: map<string, Link>, id: nat, code: string, hash: string) {
    code !in links && forall d :: d in links ==> links[d].hash != hash && links[d].id != id
  }

  /** The transaction of Create: link row and outbox row together. */
  function Insert(s: State, id: nat, m: Message): State {
    s.(db := Db(s.db.links[m.code := Link(id, m.url, m.hash)],
                s.db.outbox[s.db.nextId := Outbox.NewRow(m, s.now)],
                s.db.nextId + 1),
       aux := s.aux.(claims := s.aux.claims[s.db.nextId := []], origin := s.aux.origin[m.code := s.db.nextId]))
  }

  // ---- the steps: None when a step is not possible ----

  function CreateNext(cfg: Config, s: State, o: nat, c: CreateStep): Option<State> {
    if c.CBegin? then
      if o in s.ops.creates then None else Some(GoCreate(s, o, CreateLookup(c.p, c.url)))
    else if o !in s.ops.creates then None
    else
      var op := s.ops.creates[o];
      var h := cfg.md5(op.url);
      match c
      case CLookup =>
        if !op.CreateLookup? then None
        else if op.url == "" then Some(GoCreate(s, o, CreateFailed(op.url)))
        else
          var l1 := PodAt(s, op.p).hashL1;
          Some(GoCreate(s, o, if L1Live(l1, h, s.now) && l1[h].value != "" then CreateDone(op.url, l1[h].value)
                              else CreateRedis(op.p, op.url)))
      case CRedis(ok) =>
        if !op.CreateRedis? then None
        else Some(GoCreate(s, o, if ok && RedisLive(s.redis.hash, h, s.now) && s.redis.hash[h].value != ""
                                 then CreateFillL1(op.p, op.url, s.redis.hash[h].value)
                                 else CreateFind(op.p, op.url)))
      case CFindHit(code) =>
        if op.CreateFind? && code in s.db.links && s.db.links[code].hash == h
        then Some(GoCreate(s, o, CreateFillRedis(op.p, op.url, code))) else None
      case CFindMiss =>
        if op.CreateFind? && forall d :: d in s.db.links ==> s.db.links[d].hash != h
        then Some(GoCreate(s, o, CreateInsert(op.p, op.url))) else None
      case CFindErr =>
        if op.CreateFind? then Some(GoCreate(s, o, CreateFailed(op.url))) else None
      case CFillRedis(applied, ttl) =>
        if !op.CreateFillRedis? then None
        else
          var s1 := if applied then Write(s, Message(op.code, op.url, h), SetHash(ttl)) else s;
          Some(GoCreate(s1, o, CreateFillL1(op.p, op.url, op.code)))
      case CFillL1 =>
        if !op.CreateFillL1? then None
        else Some(GoCreate(SetHashL1(s, op.p, h, op.code), o, CreateDone(op.url, op.code)))
      case CInsert(id, code, applied, ok) =>
        if !op.CreateInsert? || id == 0 || code == "" || (ok && !applied) then None
        else if applied && Unused(s.db.links, id, code, h)
        then Some(GoCreate(Insert(s, id, Message(code, op.url, h)), o,
                           if ok then CreateSetL1(op.p, op.url, code) else CreateFailed(op.url)))
        else if ok then None
        else Some(GoCreate(s, o, CreateFailed(op.url)))
      case CSetL1 =>
        if !op.CreateSetL1? then None
        else Some(GoCreate(SetL1(s, op.p, op.code, op.url, 0), o, CreateSetHashL1(op.p, op.url, op.code)))
      case CSetHashL1 =>
        if !op.CreateSetHashL1? then None
        else Some(GoCreate(SetHashL1(s, op.p, h, op.code), o, CreateWriteThrough(op.p, op.url, op.code)))
      case CWrite(cmd) =>
        if op.CreateWriteThrough? && CmdFits(cfg, op.code, cmd) then Some(Write(s, Message(op.code, op.url, h), cmd))
            else None
      case CReturn =>
        if op.CreateWriteThrough? then Some(GoCreate(s, o, CreateDone(op.url, op.code))) else None
  }

  /** What L1 answers, or on to `next`. */
  function L1Answer(s: State, p: nat, code: string, next: RedirectOp): RedirectOp {
    var l1 := PodAt(s, p).l1;
    if !L1Live(l1, code, s.now) then next
    else if l1[code].value == "" then RedirectNotFound(code, l1[code].evidence, s.now)
    else RedirectFound(code, l1[code].value)
  }

  function RedirectNext(cfg: Config, s: State, o: nat, r: RedirectStep): Option<State> {
    if r.RBegin? then
      if o in s.ops.redirects then None else Some(GoRedirect(s, o, RedirectL1(r.p, r.code)))
    else if o !in s.ops.redirects then None
    else
      var op := s.ops.redirects[o];
      match r
      case RL1 =>
        if op.RedirectL1? then Some(GoRedirect(s, o, L1Answer(s, op.p, op.code, RedirectRecheck(op.p, op.code))))
        else if op.RedirectRecheck? then Some(GoRedirect(s, o,
            L1Answer(s, op.p, op.code, RedirectRedis(op.p, op.code))))
        else None
      case RRedis(ok) =>
        if !op.RedirectRedis? then None
        else
          var e := if ok && RedisLive(s.redis.link, op.code, s.now) then Some(s.redis.link[op.code]) else None;
          Some(GoRedirect(s, o, if e.None? then RedirectBloom(op.p, op.code)
                                else if e.value.value == "" then RedirectNegL1(op.p, op.code, e.value.evidence, s.now)
                                else RedirectPosL1(op.p, op.code, e.value.value)))
      case RBloom(ok) =>
        if !op.RedirectBloom? then None
        else if ok && PodAt(s, op.p).bloomReady && !Contains(cfg, s.redis.bloom, op.code)
        then Some(GoRedirect(Noted(s, AtBloom(op.code, s.now, op.p)), o, RedirectNegL1(op.p, op.code, s.now, s.now)))
        else Some(GoRedirect(s, o, RedirectReplica(op.p, op.code)))
      case RReplica(visible, ok) =>
        if !op.RedirectReplica? || (visible && op.code !in s.db.links) then None
        else Some(GoRedirect(s, o, if !ok then RedirectFailed(op.code)
                                   else if visible then RedirectPosRedis(op.p, op.code, s.db.links[op.code].url)
                                   else RedirectMaster(op.p, op.code)))
      case RMaster(ok) =>
        if !op.RedirectMaster? then None
        else if !ok then Some(GoRedirect(s, o, RedirectFailed(op.code)))
        else if op.code in s.db.links then Some(GoRedirect(s, o,
            RedirectPosRedis(op.p, op.code, s.db.links[op.code].url)))
        else Some(GoRedirect(Noted(s, AtMaster(op.code, s.now)), o, RedirectNegRedis(op.p, op.code, s.now)))
      case RNegRedis(applied) =>
        if !op.RedirectNegRedis? then None
        else
          var s1 := if applied then PutLink(s, op.code, Cached("", s.now + NULL_TTL, op.evidence)) else s;
          Some(GoRedirect(s1, o, RedirectNegL1(op.p, op.code, op.evidence, op.evidence)))
      case RNegL1 =>
        if !op.RedirectNegL1? then None
        else Some(GoRedirect(SetL1(s, op.p, op.code, "", op.evidence), o,
            RedirectNotFound(op.code, op.evidence, s.now)))
      case RPosRedis(applied, ttl) =>
        if !op.RedirectPosRedis? then None
        else
          var s1 := if applied then PutLink(s, op.code, Cached(op.url, s.now + ttl, 0)) else s;
          Some(GoRedirect(s1, o, RedirectPosL1(op.p, op.code, op.url)))
      case RPosL1 =>
        if !op.RedirectPosL1? then None
        else Some(GoRedirect(SetL1(s, op.p, op.code, op.url, 0), o, RedirectFound(op.code, op.url)))
  }

  function RebuildNext(cfg: Config, s: State, o: nat, b: RebuildStep): Option<State> {
    if b.BBegin? then
      if o in s.ops.rebuilds then None else Some(GoRebuild(s, o, RebuildScan(b.p, 0, s.db.links.Keys)))
    else if o !in s.ops.rebuilds then None
    else
      var op := s.ops.rebuilds[o];
      match b
      case BPage(top) =>
        if !op.RebuildScan? || top !in s.db.links || s.db.links[top].id <= op.lastID then None
        else
          var upto := s.db.links[top].id;
          Some(GoRebuild(s, o, RebuildWrite(op.p, op.lastID, upto, op.start, set c | c in s.db.links
              && op.lastID < s.db.links[c].id <= upto)))
      case BBit(bit) =>
        if op.RebuildWrite? && exists c :: c in op.page && bit in Bloom.Bits(cfg.filter, c)
        then Some(SetBits(s, {bit})) else None
      case BNext =>
        if op.RebuildWrite? && forall c :: c in op.page ==> Contains(cfg, s.redis.bloom, c)
        then Some(GoRebuild(s, o, RebuildScan(op.p, op.upto, op.start))) else None
      case BFinish =>
        if op.RebuildScan? && forall c :: c in s.db.links ==> s.db.links[c].id <= op.lastID then
          var pod := PodAt(s, op.p);
          Some(s.(pods := s.pods[op.p := pod.(bloomReady := true, rebuiltFrom := op.start)],
              ops := s.ops.(rebuilds := s.ops.rebuilds - {o})))
        else None
  }

  function Requeue(s: State, o: nat): State
    requires o in s.ops.deliveries
  {
    s.(queue := s.queue + multiset{s.ops.deliveries[o].msg}, ops := s.ops.(deliveries := s.ops.deliveries - {o}))
  }

  function ConsumeNext(cfg: Config, s: State, o: nat, k: ConsumeStep): Option<State> {
    if k.KDeliver? then
      if o in s.ops.deliveries || k.msg !in s.queue then None
      else Some(GoDelivery(s.(queue := s.queue - multiset{k.msg}), o, Delivery(k.p, k.msg, Applying(false, false, {}))))
    else if o !in s.ops.deliveries then None
    else
      var d := s.ops.deliveries[o];
      match k
      case KWrite(cmd) =>
        if !d.stage.Applying? || !CmdFits(cfg, d.msg.code, cmd) then None
        else Some(GoDelivery(Write(s, d.msg, cmd), o,
                             d.(stage := Applying(d.stage.link || cmd.SetLink?, d.stage.hash || cmd.SetHash?,
                                                  if cmd.SetBit? then d.stage.bits + {cmd.bit} else d.stage.bits))))
      case KWritten =>
        if d.stage.Applying? && d.stage.link && d.stage.hash && Bloom.Bits(cfg.filter, d.msg.code) <= d.stage.bits
        then Some(GoDelivery(s.(aux := s.aux.(applied := s.aux.applied + {d.msg})), o, d.(stage := AtL1))) else None
      case KNack =>
        if d.stage.Applying? then Some(Requeue(s, o)) else None
      case KSetL1 =>
        if d.stage.AtL1? then Some(GoDelivery(SetL1(s, d.p, d.msg.code, d.msg.url, 0), o, d.(stage := AtHashL1)))
            else None
      case KSetHashL1 =>
        if d.stage.AtHashL1? then Some(GoDelivery(SetHashL1(s, d.p, d.msg.hash, d.msg.code), o, d.(stage := AtAck)))
            else None
      case KAck(lost) =>
        if !d.stage.AtAck? then None
        else Some(if lost then Requeue(s, o) else s.(ops := s.ops.(deliveries := s.ops.deliveries - {o})))
  }

  function JobsOf(s: State, ids: seq<nat>): seq<Job>
    requires forall i :: 0 <= i < |ids| ==> ids[i] in s.db.outbox
  {
    seq(|ids|, i requires 0 <= i < |ids| => Job(ids[i], s.db.outbox[ids[i]].msg, |ClaimsOf(s, ids[i])|))
  }

  predicate CanClaim(s: State, ids: seq<nat>) {
    && |ids| <= OUTBOX_BATCH_SIZE
    && (forall i :: 0 <= i < |ids| ==> ids[i] in s.db.outbox && Outbox.Claimable(s.db.outbox[ids[i]], s.now))
    && (forall i, j :: 0 <= i < j < |ids| ==> ids[i] != ids[j])
  }

  function ClaimAll(cfg: Config, s: State, w: string, ids: seq<nat>): State {
    var chosen := Outbox.Elements(ids);
    s.(db := s.db.(outbox := Outbox.Claim(s.db.outbox, chosen, w, s.now, cfg.lease)),
       aux := s.aux.(claims := map id | id in s.db.outbox.Keys + s.aux.claims.Keys ::
         if id in chosen then ClaimsOf(s, id) + [ClaimRecord(w, s.now, s.now + cfg.lease, Open)] else ClaimsOf(s, id)))
  }

  function SettleFailed(cfg: Config, s: State, w: string, id: nat): State {
    s.(db := s.db.(outbox := Outbox.MarkFailed(s.db.outbox, id, cfg.maxRetry, w, s.now, cfg.order)),
       aux := s.aux.(claims := if id in s.db.outbox && Outbox.OwnedBy(s.db.outbox[id], w)
                               then s.aux.claims[id := Settle(ClaimsOf(s, id), WasFailed(s.now))] else s.aux.claims))
  }

  function SettleSent(s: State, w: string, ids: set<nat>): State {
    s.(db := s.db.(outbox := Outbox.MarkSent(s.db.outbox, ids, w, s.now)),
       aux := s.aux.(claims := map id | id in s.aux.claims ::
         if id in ids && id in s.db.outbox && Outbox.OwnedBy(s.db.outbox[id], w)
         then Settle(s.aux.claims[id], WasSent(s.now)) else s.aux.claims[id]))
  }

  function Become(s: State, w: string, worker: Worker): State {
    s.(workers := s.workers[w := worker])
  }

  function WorkerNext(cfg: Config, s: State, w: string, x: WorkerStep): Option<State> {
    var at := WorkerAt(s, w);
    match x
    case WClaim(ids, applied, ok) =>
      if !at.Idle? || !CanClaim(s, ids) || (ok && !applied) then None
      else if !applied then Some(s)
      else Some(Become(ClaimAll(cfg, s, w, ids), w, if ok && ids != [] then Publishing(JobsOf(s, ids), 0, [])
          else Idle))
    case WPublish(enqueued, ok) =>
      if !at.Publishing? || at.pos >= |at.batch| || (ok && !enqueued) then None
      else
        var job := at.batch[at.pos];
        var s1 := if enqueued then s.(queue := s.queue + multiset{job.msg}) else s;
        if ok then Some(Become(s1.(aux := s1.aux.(published := s1.aux.published[job.id := job.msg])), w,
                               Publishing(at.batch, at.pos + 1, at.sent + [job.id])))
        else Some(Become(s1, w, PublishFailed(at.batch, at.pos, at.sent)))
    case WMarkFailed(applied) =>
      if !at.PublishFailed? || at.pos >= |at.batch| then None
      else Some(Become(if applied then SettleFailed(cfg, s, w, at.batch[at.pos].id) else s, w,
                       Publishing(at.batch, at.pos + 1, at.sent)))
    case WMarkSent(applied) =>
      if !at.Publishing? || at.pos < |at.batch| then None
      else Some(Become(if applied then SettleSent(s, w, Outbox.Elements(at.sent)) else s, w, Settled))
    case WPluck(ids) =>
      var deadline := s.now - cfg.retain;
      if at.Settled? && forall id :: id in ids ==> id in s.db.outbox && Outbox.Expendable(s.db.outbox[id], deadline)
      then Some(Become(s, w, Cleaning(ids, deadline))) else None
    case WDelete(applied) =>
      if !at.Cleaning? then None
      else Some(Become(if applied then s.(db := s.db.(outbox := s.db.outbox - at.ids)) else s, w, Idle))
    case WSkipCleanup => if at.Settled? then Some(Become(s, w, Idle)) else None
    case WCrash => Some(Become(s, w, Idle))
  }

  function EnvNext(cfg: Config, s: State, e: EnvStep): Option<State> {
    match e
    case Tick(t) =>
      if t < s.now then None
      else if cfg.delta.Some? && exists o :: o in s.ops.redirects && HeldTooLong(s.ops.redirects[o], cfg.delta.value, t)
      then None
      else Some(s.(now := t))
    case RedisDrop(code) => Some(s.(redis := s.redis.(link := s.redis.link - {code})))
    case RedisHashDrop(hash) => Some(s.(redis := s.redis.(hash := s.redis.hash - {hash})))
    case L1Drop(p, code) => var pod := PodAt(s, p); Some(s.(pods := s.pods[p := pod.(l1 := pod.l1 - {code})]))
    case HashL1Drop(p, hash) => var pod := PodAt(s,
        p); Some(s.(pods := s.pods[p := pod.(hashL1 := pod.hashL1 - {hash})]))
    case PodReset(p) => Some(s.(pods := s.pods[p := EMPTY_POD]))
    case AbortCreate(o) =>
      if o !in s.ops.creates || s.ops.creates[o].CreateDone? || s.ops.creates[o].CreateFailed? then None
      else Some(s.(ops := s.ops.(creates := s.ops.creates - {o})))
    case AbortRedirect(o) =>
      if o !in s.ops.redirects || s.ops.redirects[o].RedirectFound? || s.ops.redirects[o].RedirectNotFound?
          || s.ops.redirects[o].RedirectFailed? then None
      else Some(s.(ops := s.ops.(redirects := s.ops.redirects - {o})))
    case AbortRebuild(o) => Some(s.(ops := s.ops.(rebuilds := s.ops.rebuilds - {o})))
    case AbortDelivery(o) => if o in s.ops.deliveries then Some(Requeue(s, o)) else None
  }

  function Next(cfg: Config, s: State, l: Label): Option<State> {
    match l
    case Create(o, c) => CreateNext(cfg, s, o, c)
    case Redirect(o, r) => RedirectNext(cfg, s, o, r)
    case Rebuild(o, b) => RebuildNext(cfg, s, o, b)
    case Consume(o, k) => ConsumeNext(cfg, s, o, k)
    case Work(w, x) => WorkerNext(cfg, s, w, x)
    case Env(e) => EnvNext(cfg, s, e)
  }

  /** The state after a run, or None when one of its steps is not possible. */
  function Run(cfg: Config, s: State, run: seq<Label>): Option<State> {
    if run == [] then Some(s)
    else
      var before := Run(cfg, s, run[..|run| - 1]);
      if before.None? then None else Next(cfg, before.value, run[|run| - 1])
  }

  /** The start: possibly with links from before the outbox existed, and nothing cached or in flight. */
  ghost predicate Init(cfg: Config, s: State) {
    && (forall c :: c in s.db.links ==>
          c != "" && s.db.links[c].id > 0 && s.db.links[c].url != ""
          && s.db.links[c].hash == cfg.md5(s.db.links[c].url))
    && (forall c, d :: c in s.db.links && d in s.db.links && c != d ==>
          s.db.links[c].hash != s.db.links[d].hash && s.db.links[c].id != s.db.links[d].id)
    && s == State(s.now, Db(s.db.links, map[], 0), Redis(map[], map[], {}), map[], multiset{}, map[],
                  Ops(map[], map[], map[], map[]), History(s.db.links.Keys, map[], map[], map[], {}, {}))
  }

  ghost predicate Reachable(cfg: Config, s: State) {
    exists s0, run :: Init(cfg, s0) && Run(cfg, s0, run) == Some(s)
  }
}
