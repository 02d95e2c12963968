/** Conservation: what Create commits is never lost on its way to Redis and the Bloom filter. */
module Delivery {
  import opened Common
  import opened SystemModel
  import opened Frames
  import Agreement
  import Outbox
  import Bloom

  /** `m` is the message of outbox row `id`, which was committed together with its link. */
  ghost predicate IsRow(s: State, id: nat, m: Message) {
    && m.code in s.aux.origin && s.aux.origin[m.code] == id
    && m.code in s.db.links && m == Message(m.code, s.db.links[m.code].url, s.db.links[m.code].hash)
  }

  ghost predicate OriginsOk(s: State) {
    && (forall c :: c in s.aux.origin ==> c in s.db.links && s.aux.origin[c] < s.db.nextId)
    && (forall c, d :: c in s.aux.origin && d in s.aux.origin && s.aux.origin[c] == s.aux.origin[d] ==> c == d)
    && (forall c :: c in s.db.links ==> c in s.aux.legacy || c in s.aux.origin)
    && s.aux.legacy <= s.db.links.Keys
  }

  ghost predicate RowsOk(s: State) {
    && (forall id :: id in s.db.outbox ==> id < s.db.nextId && IsRow(s, id, s.db.outbox[id].msg))
    && (forall id :: id in s.aux.published ==> IsRow(s, id, s.aux.published[id]))
    && (forall id :: id in s.db.outbox && s.db.outbox[id].status.Sent? ==> id in s.aux.published)
    && (forall id: nat :: id < s.db.nextId && id !in s.db.outbox ==> id in s.aux.published)
  }

  ghost predicate JobsOk(s: State, batch: seq<Job>, sent: seq<nat>) {
    && (forall i :: 0 <= i < |batch| ==> IsRow(s, batch[i].id, batch[i].msg))
    && (forall i :: 0 <= i < |sent| ==> sent[i] in s.aux.published)
  }

  ghost predicate WorkerOk(s: State, at: Worker) {
    match at
    case Publishing(batch, _, sent) => JobsOk(s, batch, sent)
    case PublishFailed(batch, _, sent) => JobsOk(s, batch, sent)
    case Cleaning(ids, _) => forall id :: id in ids ==>
                               id < s.db.nextId && (id in s.db.outbox ==> s.db.outbox[id].status.Sent?)
    case _ => true
  }

  ghost predicate WorkersOk(s: State) {
    forall w :: w in s.workers ==> WorkerOk(s, s.workers[w])
  }

  predicate InHand(deliveries: map<nat, Delivery>, m: Message) {
    exists o :: o in deliveries && deliveries[o].msg == m
  }

  /** The message is with the broker or a consumer, or all its writes have happened. */
  predicate Underway(s: State, m: Message) {
    m in s.queue || InHand(s.ops.deliveries, m) || m in s.aux.applied
  }

  ghost predicate PublishedOk(s: State) {
    forall id :: id in s.aux.published ==> Underway(s, s.aux.published[id])
  }

  ghost predicate DeliveryOk(s: State, d: Delivery) {
    if d.stage.Applying? then d.stage.bits <= s.redis.bloom else d.msg in s.aux.applied
  }

  ghost predicate AppliedOk(cfg: Config, s: State) {
    && (forall o :: o in s.ops.deliveries ==> DeliveryOk(s, s.ops.deliveries[o]))
    && (forall m :: m in s.aux.applied ==> Contains(cfg, s.redis.bloom, m.code))
  }

  /** The codes of `start` with an id up to `upto` are in the filter. */
  ghost predicate Covered(cfg: Config, s: State, start: set<string>, upto: nat) {
    && s.aux.legacy <= start <= s.db.links.Keys
    && forall c :: c in start && s.db.links[c].id <= upto ==> Contains(cfg, s.redis.bloom, c)
  }

  ghost predicate RebuildOk(cfg: Config, s: State, op: RebuildOp) {
    && Covered(cfg, s, op.start, op.lastID)
    && (op.RebuildWrite? ==> forall c :: c in op.start && op.lastID < s.db.links[c].id <= op.upto ==> c in op.page)
  }

  ghost predicate PodOk(cfg: Config, s: State, p: nat) {
    PodAt(s, p).bloomReady ==>
      && s.aux.legacy <= PodAt(s, p).rebuiltFrom <= s.db.links.Keys
      && forall c :: c in PodAt(s, p).rebuiltFrom ==> Contains(cfg, s.redis.bloom, c)
  }

  ghost predicate BloomOk(cfg: Config, s: State) {
    && (forall o :: o in s.ops.rebuilds ==> RebuildOk(cfg, s, s.ops.rebuilds[o]))
    && (forall p :: PodOk(cfg, s, p))
  }

  ghost predicate Conserved(cfg: Config, s: State) {
    && OriginsOk(s)
    && RowsOk(s)
    && WorkersOk(s)
    && PublishedOk(s)
    && AppliedOk(cfg, s)
    && BloomOk(cfg, s)
  }

  // ---- effects ----

  lemma AfterInsert(cfg: Config, s: State, id: nat, m: Message)
    requires Conserved(cfg, s) && m.code !in s.db.links
    ensures Conserved(cfg, Insert(s, id, m))
  {
    var s' := Insert(s, id, m);
    assert OriginsOk(s');
    assert s.db.nextId !in s.db.outbox;
    forall i, n | IsRow(s, i, n) ensures IsRow(s', i, n) {}
    assert RowsOk(s');
    InsertKeepsWorkers(cfg, s, id, m);
    InsertKeepsBloom(cfg, s, id, m);
  }

  lemma InsertKeepsWorkers(cfg: Config, s: State, id: nat, m: Message)
    requires Conserved(cfg, s) && m.code !in s.db.links
    ensures WorkersOk(Insert(s, id, m))
  {
    var s' := Insert(s, id, m);
    forall i, n | IsRow(s, i, n) ensures IsRow(s', i, n) {}
    forall w | w in s'.workers ensures WorkerOk(s', s'.workers[w]) {
      assert WorkerOk(s, s.workers[w]);
    }
  }

  lemma InsertKeepsBloom(cfg: Config, s: State, id: nat, m: Message)
    requires Conserved(cfg, s) && m.code !in s.db.links
    ensures BloomOk(cfg, Insert(s, id, m)) && AppliedOk(cfg, Insert(s, id, m)) && PublishedOk(Insert(s, id, m))
  {
    var s' := Insert(s, id, m);
    forall o | o in s'.ops.rebuilds ensures RebuildOk(cfg, s', s'.ops.rebuilds[o]) {
      assert RebuildOk(cfg, s, s.ops.rebuilds[o]);
    }
    forall p ensures PodOk(cfg, s', p) {
      assert PodOk(cfg, s, p);
    }
    forall o | o in s'.ops.deliveries ensures DeliveryOk(s', s'.ops.deliveries[o]) {
      assert DeliveryOk(s, s.ops.deliveries[o]);
    }
    forall i | i in s'.aux.published ensures Underway(s', s'.aux.published[i]) {
      assert Underway(s, s.aux.published[i]);
    }
  }

  /** Nothing on the delivery path changes, except that bits are set and rebuilds are dropped. */
  ghost predicate Quiet(s: State, s': State) {
    && s'.db == s.db && s'.queue == s.queue && s'.workers == s.workers
    && s'.aux == s.aux.(absences := s'.aux.absences, claims := s'.aux.claims)
    && s'.ops.deliveries == s.ops.deliveries
    && s.redis.bloom <= s'.redis.bloom
    && (forall o :: o in s'.ops.rebuilds ==> o in s.ops.rebuilds && s'.ops.rebuilds[o] == s.ops.rebuilds[o])
    && (forall p :: PodAt(s', p).bloomReady ==>
          PodAt(s, p).bloomReady && PodAt(s', p).rebuiltFrom == PodAt(s, p).rebuiltFrom)
  }

  lemma BloomFrame(cfg: Config, s: State, s': State)
    requires BloomOk(cfg, s) && s'.db.links == s.db.links && s'.aux.legacy == s.aux.legacy
              && s.redis.bloom <= s'.redis.bloom
    requires forall o :: o in s'.ops.rebuilds ==> o in s.ops.rebuilds && s'.ops.rebuilds[o] == s.ops.rebuilds[o]
    requires forall p :: PodAt(s', p).bloomReady ==>
              PodAt(s, p).bloomReady && PodAt(s', p).rebuiltFrom == PodAt(s, p).rebuiltFrom
    ensures BloomOk(cfg, s')
  {
    forall o | o in s'.ops.rebuilds ensures RebuildOk(cfg, s', s'.ops.rebuilds[o]) {
      assert RebuildOk(cfg, s, s.ops.rebuilds[o]);
    }
    forall p ensures PodOk(cfg, s', p) {
      assert PodOk(cfg, s, p);
    }
  }

  /** Origins, rows and workers read only the database, the workers and the history. */
  lemma RowsFrame(s: State, s': State)
    requires OriginsOk(s) && RowsOk(s) && WorkersOk(s)
    requires s'.db == s.db && s'.workers == s.workers
    requires s'.aux == s.aux.(absences := s'.aux.absences, claims := s'.aux.claims, applied := s'.aux.applied)
    ensures OriginsOk(s') && RowsOk(s') && WorkersOk(s')
  {
    forall i, n | IsRow(s, i, n) ensures IsRow(s', i, n) {}
    forall w | w in s'.workers ensures WorkerOk(s', s'.workers[w]) {
      assert WorkerOk(s, s.workers[w]);
    }
  }

  lemma UnderwayFrame(cfg: Config, s: State, s': State)
    requires PublishedOk(s) && AppliedOk(cfg, s)
    requires s'.queue == s.queue && s'.ops.deliveries == s.ops.deliveries && s.redis.bloom <= s'.redis.bloom
    requires s'.aux.published == s.aux.published && s'.aux.applied == s.aux.applied
    ensures PublishedOk(s') && AppliedOk(cfg, s')
  {
    forall i | i in s'.aux.published ensures Underway(s', s'.aux.published[i]) {
      assert Underway(s, s.aux.published[i]);
    }
    forall o | o in s'.ops.deliveries ensures DeliveryOk(s', s'.ops.deliveries[o]) {
      assert DeliveryOk(s, s.ops.deliveries[o]);
    }
  }

  lemma AfterQuiet(cfg: Config, s: State, s': State)
    requires Conserved(cfg, s) && Quiet(s, s')
    ensures Conserved(cfg, s')
  {
    RowsFrame(s, s');
    UnderwayFrame(cfg, s, s');
    BloomFrame(cfg, s, s');
  }

  // ---- the rebuild ----

  lemma AfterRebuild(cfg: Config, s: State, s': State)
    requires Conserved(cfg, s) && BloomOk(cfg, s')
    requires s'.db == s.db && s'.queue == s.queue && s'.workers == s.workers && s'.aux == s.aux
    requires s'.ops.deliveries == s.ops.deliveries && s.redis.bloom <= s'.redis.bloom
    ensures Conserved(cfg, s')
  {
    RowsFrame(s, s');
    UnderwayFrame(cfg, s, s');
  }

  lemma AfterGoRebuild(cfg: Config, s: State, o: nat, op: RebuildOp)
    requires BloomOk(cfg, s) && RebuildOk(cfg, s, op)
    ensures BloomOk(cfg, GoRebuild(s, o, op))
  {
    var s' := GoRebuild(s, o, op);
    forall q | q in s'.ops.rebuilds ensures RebuildOk(cfg, s', s'.ops.rebuilds[q]) {
      assert RebuildOk(cfg, s, if q == o then op else s.ops.rebuilds[q]);
    }
    forall p ensures PodOk(cfg, s', p) {
      assert PodOk(cfg, s, p);
    }
  }

  lemma AfterFinish(cfg: Config, s: State, o: nat, s': State)
    requires BloomOk(cfg, s) && o in s.ops.rebuilds && RebuildNext(cfg, s, o, BFinish) == Some(s')
    ensures BloomOk(cfg, s')
  {
    var op := s.ops.rebuilds[o];
    assert RebuildOk(cfg, s, op);
    forall q | q in s'.ops.rebuilds ensures RebuildOk(cfg, s', s'.ops.rebuilds[q]) {
      assert RebuildOk(cfg, s, s.ops.rebuilds[q]);
    }
    forall p ensures PodOk(cfg, s', p) {
      assert PodOk(cfg, s, p);
    }
  }

  lemma RebuildKeepsBloom(cfg: Config, s: State, o: nat, b: RebuildStep, s': State)
    requires Conserved(cfg, s) && Agreement.LinksOk(cfg, s.db.links) && RebuildNext(cfg, s, o, b) == Some(s')
    ensures BloomOk(cfg, s')
  {
    hide BloomOk;
    BloomIs(cfg, s);
    match b {
      case BBegin(p) => AfterGoRebuild(cfg, s, o, RebuildScan(p, 0, s.db.links.Keys));
      case BPage(top) =>
        RebuildIs(cfg, s, o);
        AfterGoRebuild(cfg, s, o, s'.ops.rebuilds[o]);
      case BBit(bit) => BloomFrame(cfg, s, s');
      case BNext =>
        RebuildIs(cfg, s, o);
        AfterGoRebuild(cfg, s, o, RebuildScan(s.ops.rebuilds[o].p, s.ops.rebuilds[o].upto, s.ops.rebuilds[o].start));
      case BFinish => AfterFinish(cfg, s, o, s');
    }
  }

  lemma BloomIs(cfg: Config, s: State)
    requires Conserved(cfg, s)
    ensures BloomOk(cfg, s) && s.aux.legacy <= s.db.links.Keys
  {}

  lemma RebuildIs(cfg: Config, s: State, o: nat)
    requires BloomOk(cfg, s) && o in s.ops.rebuilds
    ensures RebuildOk(cfg, s, s.ops.rebuilds[o])
  {}

  // ---- the consumer ----

  /** The delivery of `o` moves on while its message stays underway. */
  lemma AfterConsume(cfg: Config, s: State, o: nat, s': State, m: Message)
    requires Conserved(cfg, s)
    requires s'.db == s.db && s'.workers == s.workers && s'.aux == s.aux.(applied := s'.aux.applied)
    requires s.aux.applied <= s'.aux.applied <= s.aux.applied + {m} && s.redis.bloom <= s'.redis.bloom
    requires m in s'.aux.applied && m !in s.aux.applied ==> Contains(cfg, s'.redis.bloom, m.code)
    requires forall q :: q in s'.ops.deliveries && q != o ==>
              q in s.ops.deliveries && s'.ops.deliveries[q] == s.ops.deliveries[q]
    requires forall q :: q in s.ops.deliveries && q != o ==> q in s'.ops.deliveries
    requires o in s.ops.deliveries ==> s.ops.deliveries[o].msg == m
    requires o in s'.ops.deliveries ==> DeliveryOk(s', s'.ops.deliveries[o])
    requires forall n :: n != m && n in s.queue ==> n in s'.queue
    requires Underway(s', m)
    requires s'.ops.rebuilds == s.ops.rebuilds
    requires forall p :: PodAt(s', p).bloomReady == PodAt(s, p).bloomReady
              && PodAt(s', p).rebuiltFrom == PodAt(s, p).rebuiltFrom
    ensures Conserved(cfg, s')
  {
    RowsFrame(s, s');
    BloomFrame(cfg, s, s');
    forall i | i in s'.aux.published ensures Underway(s', s'.aux.published[i]) {
      var n := s.aux.published[i];
      assert Underway(s, n);
      if n != m && InHand(s.ops.deliveries, n) {
        var q :| q in s.ops.deliveries && s.ops.deliveries[q].msg == n;
        assert q in s'.ops.deliveries;
      }
    }
    forall q | q in s'.ops.deliveries ensures DeliveryOk(s', s'.ops.deliveries[q]) {
      assert q != o ==> DeliveryOk(s, s.ops.deliveries[q]);
    }
  }

  lemma DeliveryIs(cfg: Config, s: State, o: nat)
    requires Conserved(cfg, s) && o in s.ops.deliveries
    ensures DeliveryOk(s, s.ops.deliveries[o])
  {}

  lemma ConsumeStays(cfg: Config, s: State, o: nat, k: ConsumeStep, s': State)
    requires ConsumeNext(cfg, s, o, k) == Some(s')
    requires o in s.ops.deliveries ==> DeliveryOk(s, s.ops.deliveries[o])
    ensures var m := if k.KDeliver? then k.msg else s.ops.deliveries[o].msg;
            && s.aux.applied <= s'.aux.applied <= s.aux.applied + {m}
            && (m in s'.aux.applied && m !in s.aux.applied ==> Contains(cfg, s'.redis.bloom, m.code))
            && (o in s'.ops.deliveries ==> s'.ops.deliveries[o].msg == m && DeliveryOk(s', s'.ops.deliveries[o]))
            && (o !in s'.ops.deliveries ==> m in s'.queue || m in s'.aux.applied)
            && forall n :: n != m && n in s.queue ==> n in s'.queue
  {
    if k.KWrite? {
      hide Write;
      WriteFrame(s, s.ops.deliveries[o].msg, k.cmd);
    }
  }

  lemma ConsumeKeeps(cfg: Config, s: State, o: nat, k: ConsumeStep, s': State)
    requires Conserved(cfg, s) && ConsumeNext(cfg, s, o, k) == Some(s')
    ensures Conserved(cfg, s')
  {
    var m := if k.KDeliver? then k.msg else s.ops.deliveries[o].msg;
    if o in s.ops.deliveries { DeliveryIs(cfg, s, o); }
    ConsumeOthers(cfg, s, o, k, s');
    hide ConsumeNext, Conserved;
    ConsumeFrame(cfg, s, o, k, s');
    ConsumeStays(cfg, s, o, k, s');
    AfterConsume(cfg, s, o, s', m);
  }

  lemma ConsumeOthers(cfg: Config, s: State, o: nat, k: ConsumeStep, s': State)
    requires ConsumeNext(cfg, s, o, k) == Some(s')
    ensures forall q :: q != o ==> (q in s'.ops.deliveries <==> q in s.ops.deliveries)
    ensures forall q :: q in s'.ops.deliveries && q != o ==> s'.ops.deliveries[q] == s.ops.deliveries[q]
    ensures k.KDeliver? ==> o !in s.ops.deliveries
  {}

  lemma AfterRequeue(cfg: Config, s: State, o: nat, s': State)
    requires Conserved(cfg, s) && o in s.ops.deliveries && s' == Requeue(s, o)
    ensures Conserved(cfg, s')
  {
    hide Conserved;
    AfterConsume(cfg, s, o, s', s.ops.deliveries[o].msg);
  }

  // ---- the workers ----

  /** Rows keep their message and stay unsent, unless they are published. */
  lemma AfterRows(cfg: Config, s: State, s': State)
    requires Conserved(cfg, s)
    requires s' == s.(db := s.db.(outbox := s'.db.outbox), aux := s.aux.(claims := s'.aux.claims))
    requires forall id :: id in s'.db.outbox ==> id in s.db.outbox && s'.db.outbox[id].msg == s.db.outbox[id].msg
    requires forall id :: id in s'.db.outbox && s'.db.outbox[id].status.Sent? ==>
              s.db.outbox[id].status.Sent? || id in s.aux.published
    requires forall id :: id in s'.db.outbox && s.db.outbox[id].status.Sent? ==> s'.db.outbox[id].status.Sent?
    requires forall id :: id in s.db.outbox && id !in s'.db.outbox ==> s.db.outbox[id].status.Sent?
    ensures Conserved(cfg, s')
  {
    forall i, n | IsRow(s, i, n) ensures IsRow(s', i, n) {}
    assert OriginsOk(s') && RowsOk(s');
    forall w | w in s'.workers ensures WorkerOk(s', s'.workers[w]) {
      assert WorkerOk(s, s.workers[w]);
    }
    UnderwayFrame(cfg, s, s');
    BloomFrame(cfg, s, s');
  }

  lemma AfterBecome(cfg: Config, s: State, w: string, at: Worker)
    requires Conserved(cfg, s) && WorkerOk(s, at)
    ensures Conserved(cfg, Become(s, w, at))
  {
    var s' := Become(s, w, at);
    forall i, n | IsRow(s, i, n) ensures IsRow(s', i, n) {}
    assert OriginsOk(s') && RowsOk(s');
    forall v | v in s'.workers ensures WorkerOk(s', s'.workers[v]) {
      assert WorkerOk(s, if v == w then at else s.workers[v]);
    }
    UnderwayFrame(cfg, s, s');
    BloomFrame(cfg, s, s');
  }

  lemma AfterPublish(cfg: Config, s: State, job: Job, ok: bool)
    requires Conserved(cfg, s) && IsRow(s, job.id, job.msg)
    ensures Conserved(cfg, s.(queue := s.queue + multiset{job.msg},
                              aux := if ok then s.aux.(published := s.aux.published[job.id := job.msg]) else s.aux))
  {
    var s' := s.(queue := s.queue + multiset{job.msg},
                 aux := if ok then s.aux.(published := s.aux.published[job.id := job.msg]) else s.aux);
    forall i, n | IsRow(s, i, n) ensures IsRow(s', i, n) {}
    assert OriginsOk(s') && RowsOk(s');
    forall w | w in s'.workers ensures WorkerOk(s', s'.workers[w]) {
      assert WorkerOk(s, s.workers[w]);
    }
    forall i | i in s'.aux.published ensures Underway(s', s'.aux.published[i]) {
      assert s'.aux.published[i] == job.msg || Underway(s, s.aux.published[i]);
    }
    forall o | o in s'.ops.deliveries ensures DeliveryOk(s', s'.ops.deliveries[o]) {
      assert DeliveryOk(s, s.ops.deliveries[o]);
    }
    BloomFrame(cfg, s, s');
  }

  lemma AtOk(cfg: Config, s: State, w: string)
    requires Conserved(cfg, s)
    ensures WorkerOk(s, WorkerAt(s, w)) && forall id :: id in s.db.outbox ==> id < s.db.nextId
  {}

  lemma JobsAreRows(cfg: Config, s: State, ids: seq<nat>)
    requires Conserved(cfg, s) && CanClaim(s, ids)
    ensures JobsOk(s, JobsOf(s, ids), [])
  {}

  lemma JobsFrame(s: State, s': State, batch: seq<Job>, sent: seq<nat>)
    requires JobsOk(s, batch, sent) && s'.db.links == s.db.links && s'.aux.origin == s.aux.origin
    requires s.aux.published.Keys <= s'.aux.published.Keys
    ensures JobsOk(s', batch, sent)
  {
    forall i, n | IsRow(s, i, n) ensures IsRow(s', i, n) {}
  }

  lemma PublishKeeps(cfg: Config, s: State, w: string, x: WorkerStep, s': State)
    requires Conserved(cfg, s) && x.WPublish? && WorkerNext(cfg, s, w, x) == Some(s')
    ensures Conserved(cfg, s')
  {
    hide Conserved, JobsOk;
    var at := WorkerAt(s, w);
    AtOk(cfg, s, w);
    var job := at.batch[at.pos];
    JobIsRow(s, at.batch, at.sent, at.pos);
    AfterPublish(cfg, s, job, x.ok);
    var s1 := if x.enqueued then s.(queue := s.queue + multiset{job.msg},
                 aux := if x.ok then s.aux.(published := s.aux.published[job.id := job.msg]) else s.aux) else s;
    JobsFrame(s, s1, at.batch, at.sent);
    JobSent(s1, at.batch, at.sent, job.id);
    AfterBecome(cfg, s1, w, if x.ok then Publishing(at.batch, at.pos + 1, at.sent + [job.id])
        else PublishFailed(at.batch, at.pos, at.sent));
  }

  lemma JobIsRow(s: State, batch: seq<Job>, sent: seq<nat>, i: nat)
    requires JobsOk(s, batch, sent) && i < |batch|
    ensures IsRow(s, batch[i].id, batch[i].msg)
  {}

  lemma JobSent(s: State, batch: seq<Job>, sent: seq<nat>, id: nat)
    requires JobsOk(s, batch, sent)
    ensures id in s.aux.published ==> JobsOk(s, batch, sent + [id])
  {}

  lemma WorkerKeeps(cfg: Config, s: State, w: string, x: WorkerStep, s': State)
    requires Conserved(cfg, s) && WorkerNext(cfg, s, w, x) == Some(s')
    ensures Conserved(cfg, s')
  {
    hide Conserved, JobsOk;
    var at := WorkerAt(s, w);
    AtOk(cfg, s, w);
    match x {
      case WPublish(_, _) => PublishKeeps(cfg, s, w, x, s');
      case WClaim(ids, applied, ok) =>
        if applied {
          var s1 := ClaimAll(cfg, s, w, ids);
          AfterClaim(cfg, s, w, ids);
          AfterBecome(cfg, s1, w, if ok && ids != [] then Publishing(JobsOf(s, ids), 0, []) else Idle);
        }
      case WMarkFailed(applied) =>
        var s1 := if applied then SettleFailed(cfg, s, w, at.batch[at.pos].id) else s;
        AfterFailed(cfg, s, w, at.batch[at.pos].id);
        JobsFrame(s, s1, at.batch, at.sent);
        AfterBecome(cfg, s1, w, Publishing(at.batch, at.pos + 1, at.sent));
      case WMarkSent(applied) =>
        AfterSent(cfg, s, w, at.batch, at.sent);
        AfterBecome(cfg, if applied then SettleSent(s, w, Outbox.Elements(at.sent)) else s, w, Settled);
      case WPluck(ids) => AfterBecome(cfg, s, w, Cleaning(ids, s.now - cfg.retain));
      case WDelete(applied) =>
        var s1 := if applied then s.(db := s.db.(outbox := s.db.outbox - at.ids)) else s;
        AfterRows(cfg, s, s1);
        AfterBecome(cfg, s1, w, Idle);
      case WSkipCleanup => AfterBecome(cfg, s, w, Idle);
      case WCrash => AfterBecome(cfg, s, w, Idle);
    }
  }

  lemma AfterClaim(cfg: Config, s: State, w: string, ids: seq<nat>)
    requires Conserved(cfg, s) && CanClaim(s, ids)
    ensures Conserved(cfg, ClaimAll(cfg, s, w, ids)) && JobsOk(ClaimAll(cfg, s, w, ids), JobsOf(s, ids), [])
  {
    forall id | id in Outbox.Elements(ids) ensures id in s.db.outbox && Outbox.Claimable(s.db.outbox[id], s.now) {}
    hide Conserved;
    AfterRows(cfg, s, ClaimAll(cfg, s, w, ids));
    JobsAreRows(cfg, s, ids);
    JobsFrame(s, ClaimAll(cfg, s, w, ids), JobsOf(s, ids), []);
  }

  lemma AfterFailed(cfg: Config, s: State, w: string, id: nat)
    requires Conserved(cfg, s)
    ensures Conserved(cfg, SettleFailed(cfg, s, w, id))
  {
    hide Conserved;
    AfterRows(cfg, s, SettleFailed(cfg, s, w, id));
  }

  /** A row is marked sent only after its publish returned nil. */
  lemma AfterSent(cfg: Config, s: State, w: string, batch: seq<Job>, sent: seq<nat>)
    requires Conserved(cfg, s) && JobsOk(s, batch, sent)
    ensures Conserved(cfg, SettleSent(s, w, Outbox.Elements(sent)))
  {
    hide Conserved;
    AfterRows(cfg, s, SettleSent(s, w, Outbox.Elements(sent)));
  }

  lemma StepKeepsDelivery(cfg: Config, s: State, l: Label, s': State)
    requires Conserved(cfg, s) && Agreement.LinksOk(cfg, s.db.links) && Next(cfg, s, l) == Some(s')
    ensures Conserved(cfg, s')
  {
    hide Conserved, CreateNext, RedirectNext, RebuildNext, ConsumeNext, WorkerNext, EnvNext, BloomOk;
    match l {
      case Work(w, x) => WorkerKeeps(cfg, s, w, x, s');
      case Create(o, c) =>
        if c.CInsert? {
          InsertFrame(cfg, s, o, c, s');
          var m := Message(c.code, s.ops.creates[o].url, cfg.md5(s.ops.creates[o].url));
          if s' == GoCreate(s, o, s'.ops.creates[o]) {
            AfterQuiet(cfg, s, s');
          } else {
            AfterInsert(cfg, s, c.id, m);
            AfterQuiet(cfg, Insert(s, c.id, m), s');
          }
        } else {
          CreateFrame(cfg, s, o, c, s');
          AfterQuiet(cfg, s, s');
        }
      case Env(e) =>
        EnvFrame(cfg, s, e, s');
        if e.AbortDelivery? {
          AfterRequeue(cfg, s, e.o, s');
        } else {
          AfterQuiet(cfg, s, s');
        }
      case Redirect(o, r) =>
        RedirectFrame(cfg, s, o, r, s');
        AfterQuiet(cfg, s, s');
      case Rebuild(o, b) =>
        RebuildFrame(cfg, s, o, b, s');
        RebuildKeepsBloom(cfg, s, o, b, s');
        AfterRebuild(cfg, s, s');
      case Consume(o, k) => ConsumeKeeps(cfg, s, o, k, s');
    }
  }
}
