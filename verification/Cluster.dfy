/** The running system as one object, on which the code of the services acts step by step while everything else
    goes on in between. */
module Cluster {
  import opened Common
  import opened SystemModel
  import opened Agreement
  import Frames
  import opened SystemTheorems
  import opened Answers

  /** Who is acting. */
  datatype Actor = CreateActor(o: nat) | RedirectActor(o: nat) | DeliveryActor(o: nat) | WorkerActor(w: string)

  predicate Belongs(l: Label, t: Actor) {
    match t
    case CreateActor(o) => (l.Create? && l.o == o) || l == Env(AbortCreate(o))
    case RedirectActor(o) => (l.Redirect? && l.o == o) || l == Env(AbortRedirect(o))
    case DeliveryActor(o) => (l.Consume? && l.o == o) || l == Env(AbortDelivery(o))
    case WorkerActor(w) => l.Work? && l.w == w
  }

  ghost predicate SameAt<T>(m: map<nat, T>, m': map<nat, T>, o: nat) {
    (o in m <==> o in m') && (o in m ==> m'[o] == m[o])
  }

  lemma SameElsewhere<T>(m: map<nat, T>, m': map<nat, T>, o: nat, q: nat)
    requires m - {o} == m' - {o} && q != o
    ensures SameAt(m, m', q)
  {
    assert q in m <==> q in m - {o};
    assert q in m' <==> q in m' - {o};
    if q in m {
      assert (m - {o})[q] == (m' - {o})[q];
    }
  }

  /** The local state of the actor. */
  ghost predicate Untouched(s: State, s': State, t: Actor) {
    match t
    case CreateActor(o) => SameAt(s.ops.creates, s'.ops.creates, o)
    case RedirectActor(o) => SameAt(s.ops.redirects, s'.ops.redirects, o)
    case DeliveryActor(o) => SameAt(s.ops.deliveries, s'.ops.deliveries, o)
    case WorkerActor(w) => WorkerAt(s', w) == WorkerAt(s, w)
  }

  lemma WriteIsOwn(cfg: Config, s: State, o: nat, k: ConsumeStep, s': State)
    requires ConsumeNext(cfg, s, o, k) == Some(s') && k.KWrite?
    ensures s'.ops.deliveries - {o} == s.ops.deliveries - {o}
  {
    hide Write, CmdFits;
    Frames.WriteFrame(s, s.ops.deliveries[o].msg, k.cmd);
  }

  lemma ConsumeIsOwn(cfg: Config, s: State, o: nat, k: ConsumeStep, s': State)
    requires ConsumeNext(cfg, s, o, k) == Some(s') && !k.KWrite?
    ensures s'.ops.deliveries == (if o in s'.ops.deliveries then s.ops.deliveries[o := s'.ops.deliveries[o]]
              else s.ops.deliveries - {o})
  {}

  lemma WorkIsOwn(cfg: Config, s: State, w: string, x: WorkerStep, s': State, v: string)
    requires WorkerNext(cfg, s, w, x) == Some(s') && v != w
    ensures WorkerAt(s', v) == WorkerAt(s, v)
  {}

  lemma EnvIsOwn(cfg: Config, s: State, e: EnvStep, s': State, t: Actor)
    requires EnvNext(cfg, s, e) == Some(s') && !Belongs(Env(e), t)
    ensures Untouched(s, s', t)
  {}

  /** What one actor does leaves the local state of every other actor alone. */
  lemma OthersKeepOut(cfg: Config, s: State, l: Label, s': State, t: Actor)
    requires Next(cfg, s, l) == Some(s') && !Belongs(l, t)
    ensures Untouched(s, s', t)
  {
    hide CreateNext, RedirectNext, RebuildNext, ConsumeNext, WorkerNext, EnvNext;
    match l
    case Create(o, c) =>
      if c.CInsert? {
        Frames.InsertFrame(cfg, s, o, c, s');
      } else {
        Frames.CreateFrame(cfg, s, o, c, s');
      }
    case Redirect(o, r) =>
      Frames.RedirectFrame(cfg, s, o, r, s');
    case Rebuild(o, b) => Frames.RebuildFrame(cfg, s, o, b, s');
    case Consume(o, k) =>
      Frames.ConsumeFrame(cfg, s, o, k, s');
      if k.KWrite? {
        WriteIsOwn(cfg, s, o, k, s');
        if t.DeliveryActor? {
          SameElsewhere(s.ops.deliveries, s'.ops.deliveries, o, t.o);
        }
      } else {
        ConsumeIsOwn(cfg, s, o, k, s');
      }
    case Work(w, x) =>
      Frames.WorkerFrame(cfg, s, w, x, s');
      if t.WorkerActor? {
        WorkIsOwn(cfg, s, w, x, s', t.w);
      }
    case Env(e) => EnvIsOwn(cfg, s, e, s', t);
  }

  // ---- what a store leaves behind ----

  predicate InL1(s: State, p: nat, code: string, value: string) {
    var l1 := PodAt(s, p).l1;
    code in l1 && l1[code].value == value && l1[code].expireAt == s.now + L1_TTL
  }

  predicate InHashL1(s: State, p: nat, hash: string, code: string) {
    var l1 := PodAt(s, p).hashL1;
    hash in l1 && l1[hash].value == code && l1[hash].expireAt == s.now + URLHASH_TTL
  }

  predicate InRedis(m: map<string, Cached>, key: string, value: string, deadline: Time) {
    key in m && m[key].value == value && m[key].expireAt == deadline
  }

  predicate Stored(s: State, m: Message, cmd: RedisCmd) {
    match cmd
    case SetLink(ttl) => InRedis(s.redis.link, m.code, m.url, s.now + ttl)
    case SetHash(ttl) => InRedis(s.redis.hash, m.hash, m.code, s.now + ttl)
    case SetBit(b) => b in s.redis.bloom
  }

  /** What the pod's L1 answers. */
  predicate L1Says(s: State, p: nat, code: string, value: string) {
    L1Live(PodAt(s, p).l1, code, s.now) && PodAt(s, p).l1[code].value == value
  }

  class Cluster {
    const cfg: Config
    var s: State

    constructor (cfg: Config, s: State)
      requires Init(cfg, s)
      ensures this.cfg == cfg && this.s == s && Valid()
    {
      this.cfg, this.s := cfg, s;
      new;
      InitHolds(cfg, s);
    }

    ghost predicate Valid()
      reads this
    {
      Invariant(cfg, s)
    }

    /** One step of the system. */
    method Fire(l: Label)
      requires Valid() && Next(cfg, s, l).Some?
      modifies this
      ensures Valid() && Next(cfg, old(s), l) == Some(s) && Onwards(old(s), s) && ClearsStay(cfg, old(s), s)
    {
      hide Next, Onwards, ClearsStay;
      StepOnwards(cfg, s, l, Next(cfg, s, l).value);
      StepKeepsClear(cfg, s, l, Next(cfg, s, l).value);
      s := Next(cfg, s, l).value;
    }

    /** Any steps of anybody else. */
    method Yield(t: Actor)
      requires Valid()
      modifies this
      ensures Valid() && Untouched(old(s), s, t) && Onwards(old(s), s) && ClearsStay(cfg, old(s), s)
    {
      hide Next, Valid, Belongs, Untouched, Onwards, ClearsStay;
      var others: seq<Label> := *;
      UntouchedIsTransitive(s, s, s, t);
      OnwardsIsAnOrder(s, s, s);
      StayingIsAnOrder(cfg, s, s, s);
      for i := 0 to |others|
        invariant Valid() && Untouched(old(s), s, t) && Onwards(old(s), s) && ClearsStay(cfg, old(s), s)
      {
        if !Belongs(others[i], t) && Next(cfg, s, others[i]).Some? {
          ghost var before := s;
          Fire(others[i]);
          OthersKeepOut(cfg, before, others[i], s, t);
          OnwardsIsAnOrder(old(s), before, s);
          StayingIsAnOrder(cfg, old(s), before, s);
          UntouchedIsTransitive(old(s), before, s, t);
        }
      }
    }
  }

  lemma UntouchedIsTransitive(a: State, b: State, c: State, t: Actor)
    ensures Untouched(a, a, t)
    ensures Untouched(a, b, t) && Untouched(b, c, t) ==> Untouched(a, c, t)
  {}
}
