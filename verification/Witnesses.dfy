/** Runs in which a promise fails, or a bound is reached: always Create of the URL "u" on pod 0, which gets id 1 and
    code "a", together with Redirects of "a". */
module Witnesses {
  import opened Common
  import opened SystemModel
  import opened SystemTheorems
  import opened OwnReads
  import Agreement
  import Bloom
  import Outbox
  import Staleness

  const ORIGIN := State(0, Db(map[], map[], 0), Redis(map[], map[], {}), map[], multiset{}, map[],
                        Ops(map[], map[], map[], map[]), History({}, map[], map[], map[], {}, {}))

  lemma OriginIsInitial(cfg: Config)
    ensures Init(cfg, ORIGIN)
  {}

  /** `run` leads from `s0` to `s`, and pod 0 does not forget the code. */
  ghost predicate Reaches(cfg: Config, s0: State, run: seq<Label>, s: State) {
    Run(cfg, s0, run) == Some(s) && Remembers(run, 0, "a")
  }

  lemma Go(cfg: Config, s0: State, run: seq<Label>, s: State, l: Label, s': State)
    requires Reaches(cfg, s0, run, s) && Next(cfg, s, l) == Some(s') && !Forgets(l, 0, "a")
    ensures Reaches(cfg, s0, run + [l], s')
  {
    hide Next, Forgets;
    Extend(cfg, s0, run, l);
  }

  // ---- the Create ----

  /** Nothing has been committed or cached that Create would find. */
  ghost predicate NewSystem(s: State) {
    s.db == Db(map[], map[], 0) && s.redis.hash == map[] && PodAt(s, 0).hashL1 == map[] && 0 !in s.ops.creates
  }

  lemma CreateOverwrites(s: State, op: CreateOp, op': CreateOp)
    ensures GoCreate(GoCreate(s, 0, op), 0, op') == GoCreate(s, 0, op')
  {
    assert s.ops.creates[0 := op][0 := op'] == s.ops.creates[0 := op'];
  }

  lemma LookupMisses(cfg: Config, s: State)
    requires NewSystem(s)
    ensures CreateNext(cfg, s, 0, CBegin(0, "u")) == Some(GoCreate(s, 0, CreateLookup(0, "u")))
    ensures CreateNext(cfg, GoCreate(s, 0, CreateLookup(0, "u")), 0,
              CLookup) == Some(GoCreate(s, 0, CreateRedis(0, "u")))
  {
    CreateOverwrites(s, CreateLookup(0, "u"), CreateRedis(0, "u"));
  }

  lemma RedisMisses(cfg: Config, s: State)
    requires NewSystem(s)
    ensures CreateNext(cfg, GoCreate(s, 0, CreateRedis(0, "u")), 0,
              CRedis(true)) == Some(GoCreate(s, 0, CreateFind(0, "u")))
    ensures CreateNext(cfg, GoCreate(s, 0, CreateFind(0, "u")), 0,
              CFindMiss) == Some(GoCreate(s, 0, CreateInsert(0, "u")))
  {
    CreateOverwrites(s, CreateRedis(0, "u"), CreateFind(0, "u"));
    CreateOverwrites(s, CreateFind(0, "u"), CreateInsert(0, "u"));
  }

  lemma CreateMisses(cfg: Config, s0: State, run: seq<Label>, s: State) returns (run': seq<Label>)
    requires Reaches(cfg, s0, run, s) && NewSystem(s)
    ensures Reaches(cfg, s0, run', GoCreate(s, 0, CreateInsert(0, "u")))
  {
    hide Reaches, NewSystem, CreateNext, GoCreate;
    LookupMisses(cfg, s);
    RedisMisses(cfg, s);
    Go(cfg, s0, run, s, Create(0, CBegin(0, "u")), GoCreate(s, 0, CreateLookup(0, "u")));
    run' := run + [Create(0, CBegin(0, "u"))];
    Go(cfg, s0, run', GoCreate(s, 0, CreateLookup(0, "u")), Create(0, CLookup), GoCreate(s, 0, CreateRedis(0, "u")));
    run' := run' + [Create(0, CLookup)];
    Go(cfg, s0, run', GoCreate(s, 0, CreateRedis(0, "u")), Create(0, CRedis(true)), GoCreate(s, 0, CreateFind(0, "u")));
    run' := run' + [Create(0, CRedis(true))];
    Go(cfg, s0, run', GoCreate(s, 0, CreateFind(0, "u")), Create(0, CFindMiss), GoCreate(s, 0, CreateInsert(0, "u")));
    run' := run' + [Create(0, CFindMiss)];
  }

  function TheMessage(cfg: Config): Message {
    Message("a", "u", cfg.md5("u"))
  }

  function Inserted(cfg: Config, s: State): State {
    GoCreate(Insert(s, 1, TheMessage(cfg)), 0, CreateSetL1(0, "u", "a"))
  }

  function L1Filled(cfg: Config, s: State): State {
    GoCreate(SetL1(Inserted(cfg, s), 0, "a", "u", 0), 0, CreateSetHashL1(0, "u", "a"))
  }

  function HashFilled(cfg: Config, s: State): State {
    GoCreate(SetHashL1(L1Filled(cfg, s), 0, cfg.md5("u"), "a"), 0, CreateWriteThrough(0, "u", "a"))
  }

  /** After a Create whose write-through fails at once. */
  function Returned(cfg: Config, s: State): State {
    GoCreate(HashFilled(cfg, s), 0, CreateDone("u", "a"))
  }

  lemma InsertWorks(cfg: Config, s: State)
    requires NewSystem(s)
    ensures CreateNext(cfg, GoCreate(s, 0, CreateInsert(0, "u")), 0,
              CInsert(1, "a", true, true)) == Some(Inserted(cfg, s))
  {
    CreateOverwrites(Insert(s, 1, TheMessage(cfg)), CreateInsert(0, "u"), CreateSetL1(0, "u", "a"));
  }

  lemma FillsWork(cfg: Config, s: State)
    ensures CreateNext(cfg, Inserted(cfg, s), 0, CSetL1) == Some(L1Filled(cfg, s))
    ensures CreateNext(cfg, L1Filled(cfg, s), 0, CSetHashL1) == Some(HashFilled(cfg, s))
    ensures CreateNext(cfg, HashFilled(cfg, s), 0, CReturn) == Some(Returned(cfg, s))
  {
    hide Insert, SetL1, SetHashL1;
  }

  /** What the Create leaves. */
  lemma ReturnedIs(cfg: Config, s: State)
    requires NewSystem(s)
    ensures var t := Returned(cfg, s);
            && t.db == Db(map["a" := Link(1, "u", cfg.md5("u"))], map[0 := Outbox.NewRow(TheMessage(cfg), s.now)], 1)
            && t.now == s.now && t.redis == s.redis && t.workers == s.workers && t.aux.absences == s.aux.absences
            && t.ops == s.ops.(creates := t.ops.creates) && t.aux.claims == s.aux.claims[0 := []]
            && 0 in t.ops.creates && t.ops.creates[0] == CreateDone("u", "a")
            && Shows(t, 0, "a", "u", s.now + L1_TTL) && PodAt(t, 1) == PodAt(s, 1)
  {}

  lemma CreateSucceeds(cfg: Config, s0: State, run: seq<Label>, s: State) returns (run': seq<Label>)
    requires Reaches(cfg, s0, run, s) && NewSystem(s)
    ensures Reaches(cfg, s0, run', Returned(cfg, s))
  {
    hide Reaches, NewSystem, CreateNext, Returned, HashFilled, L1Filled, Inserted, GoCreate;
    run' := CreateMisses(cfg, s0, run, s);
    InsertWorks(cfg, s);
    FillsWork(cfg, s);
    Go(cfg, s0, run', GoCreate(s, 0, CreateInsert(0, "u")), Create(0, CInsert(1, "a", true, true)), Inserted(cfg, s));
    run' := run' + [Create(0, CInsert(1, "a", true, true))];
    Go(cfg, s0, run', Inserted(cfg, s), Create(0, CSetL1), L1Filled(cfg, s));
    run' := run' + [Create(0, CSetL1)];
    Go(cfg, s0, run', L1Filled(cfg, s), Create(0, CSetHashL1), HashFilled(cfg, s));
    run' := run' + [Create(0, CSetHashL1)];
    Go(cfg, s0, run', HashFilled(cfg, s), Create(0, CReturn), Returned(cfg, s));
    run' := run' + [Create(0, CReturn)];
  }

  // ---- a Redirect that finds nothing ----

  lemma RedirectOverwrites(s: State, o: nat, op: RedirectOp, op': RedirectOp)
    ensures GoRedirect(GoRedirect(s, o, op), o, op') == GoRedirect(s, o, op')
  {
    assert s.ops.redirects[o := op][o := op'] == s.ops.redirects[o := op'];
  }

  lemma L1Misses(cfg: Config, s: State, o: nat, p: nat)
    requires o !in s.ops.redirects && !L1Live(PodAt(s, p).l1, "a", s.now)
    ensures RedirectNext(cfg, s, o, RBegin(p, "a")) == Some(GoRedirect(s, o, RedirectL1(p, "a")))
    ensures RedirectNext(cfg, GoRedirect(s, o, RedirectL1(p, "a")), o,
              RL1) == Some(GoRedirect(s, o, RedirectRecheck(p, "a")))
    ensures RedirectNext(cfg, GoRedirect(s, o, RedirectRecheck(p, "a")), o,
              RL1) == Some(GoRedirect(s, o, RedirectRedis(p, "a")))
  {
    RedirectOverwrites(s, o, RedirectL1(p, "a"), RedirectRecheck(p, "a"));
    RedirectOverwrites(s, o, RedirectRecheck(p, "a"), RedirectRedis(p, "a"));
  }

  lemma ToRedis(cfg: Config, s0: State, run: seq<Label>, s: State, o: nat, p: nat) returns (run': seq<Label>)
    requires Reaches(cfg, s0, run, s) && o !in s.ops.redirects && !L1Live(PodAt(s, p).l1, "a", s.now)
    ensures Reaches(cfg, s0, run', GoRedirect(s, o, RedirectRedis(p, "a")))
  {
    hide Reaches, RedirectNext, GoRedirect;
    L1Misses(cfg, s, o, p);
    Go(cfg, s0, run, s, Redirect(o, RBegin(p, "a")), GoRedirect(s, o, RedirectL1(p, "a")));
    run' := run + [Redirect(o, RBegin(p, "a"))];
    Go(cfg, s0, run', GoRedirect(s, o, RedirectL1(p, "a")), Redirect(o, RL1),
        GoRedirect(s, o, RedirectRecheck(p, "a")));
    run' := run' + [Redirect(o, RL1)];
    Go(cfg, s0, run', GoRedirect(s, o, RedirectRecheck(p, "a")), Redirect(o, RL1),
        GoRedirect(s, o, RedirectRedis(p, "a")));
    run' := run' + [Redirect(o, RL1)];
  }

  /** The state in which the Redirect has just found the code to be absent in the master. */
  function Absent(s: State, o: nat, p: nat): State {
    GoRedirect(Noted(s, AtMaster("a", s.now)), o, RedirectNegRedis(p, "a", s.now))
  }

  lemma FilterIsSkipped(cfg: Config, s: State, o: nat, p: nat)
    requires !RedisLive(s.redis.link, "a", s.now) && !PodAt(s, p).bloomReady
    ensures RedirectNext(cfg, GoRedirect(s, o, RedirectRedis(p, "a")), o,
              RRedis(true)) == Some(GoRedirect(s, o, RedirectBloom(p, "a")))
    ensures RedirectNext(cfg, GoRedirect(s, o, RedirectBloom(p, "a")), o,
              RBloom(true)) == Some(GoRedirect(s, o, RedirectReplica(p, "a")))
  {
    hide Contains;
    RedirectOverwrites(s, o, RedirectRedis(p, "a"), RedirectBloom(p, "a"));
    RedirectOverwrites(s, o, RedirectBloom(p, "a"), RedirectReplica(p, "a"));
  }

  lemma DatabaseLacks(cfg: Config, s: State, o: nat, p: nat)
    requires "a" !in s.db.links
    ensures RedirectNext(cfg, GoRedirect(s, o, RedirectReplica(p, "a")), o,
              RReplica(false, true)) == Some(GoRedirect(s, o, RedirectMaster(p, "a")))
    ensures RedirectNext(cfg, GoRedirect(s, o, RedirectMaster(p, "a")), o, RMaster(true)) == Some(Absent(s, o, p))
  {
    RedirectOverwrites(s, o, RedirectReplica(p, "a"), RedirectMaster(p, "a"));
    var a := AtMaster("a", s.now);
    assert Noted(GoRedirect(s, o, RedirectMaster(p, "a")), a) == GoRedirect(Noted(s, a), o, RedirectMaster(p, "a"));
    RedirectOverwrites(Noted(s, a), o, RedirectMaster(p, "a"), RedirectNegRedis(p, "a", s.now));
  }

  lemma ToFinding(cfg: Config, s0: State, run: seq<Label>, s: State, o: nat, p: nat) returns (run': seq<Label>)
    requires Reaches(cfg, s0, run, s) && o !in s.ops.redirects && !L1Live(PodAt(s, p).l1, "a", s.now)
    requires !RedisLive(s.redis.link, "a", s.now) && !PodAt(s, p).bloomReady && "a" !in s.db.links
    ensures Reaches(cfg, s0, run', Absent(s, o, p))
  {
    hide Reaches, RedirectNext, GoRedirect, Absent;
    run' := ToRedis(cfg, s0, run, s, o, p);
    FilterIsSkipped(cfg, s, o, p);
    DatabaseLacks(cfg, s, o, p);
    Go(cfg, s0, run', GoRedirect(s, o, RedirectRedis(p, "a")), Redirect(o, RRedis(true)),
        GoRedirect(s, o, RedirectBloom(p, "a")));
    run' := run' + [Redirect(o, RRedis(true))];
    Go(cfg, s0, run', GoRedirect(s, o, RedirectBloom(p, "a")), Redirect(o, RBloom(true)),
        GoRedirect(s, o, RedirectReplica(p, "a")));
    run' := run' + [Redirect(o, RBloom(true))];
    Go(cfg, s0, run', GoRedirect(s, o, RedirectReplica(p, "a")), Redirect(o, RReplica(false, true)),
        GoRedirect(s, o, RedirectMaster(p, "a")));
    run' := run' + [Redirect(o, RReplica(false, true))];
    Go(cfg, s0, run', GoRedirect(s, o, RedirectMaster(p, "a")), Redirect(o, RMaster(true)), Absent(s, o, p));
    run' := run' + [Redirect(o, RMaster(true))];
  }

  // ---- a Redirect from before the commit ----

  /** Redirect 0 on pod 0 has found nothing, and then the Create has returned. */
  lemma FoundThenCreated(cfg: Config) returns (run: seq<Label>, s: State)
    ensures Reaches(cfg, ORIGIN, run, s) && s == Returned(cfg, Absent(ORIGIN, 0, 0)) && NewSystem(Absent(ORIGIN, 0, 0))
    ensures s.now == 0 && 0 in s.ops.creates && s.ops.creates[0] == CreateDone("u", "a")
              && Shows(s, 0, "a", "u", L1_TTL)
    ensures s.ops.redirects == map[0 := RedirectNegRedis(0, "a", 0)] && PodAt(s, 1) == EMPTY_POD
              && s.redis.link == map[]
  {
    hide Reaches, Returned, Shows;
    run := ToFinding(cfg, ORIGIN, [], ORIGIN, 0, 0) by {
      StartsAtOrigin(cfg, ORIGIN);
    }
    run := CreateSucceeds(cfg, ORIGIN, run, Absent(ORIGIN, 0, 0));
    s := Returned(cfg, Absent(ORIGIN, 0, 0));
    ReturnedIs(cfg, Absent(ORIGIN, 0, 0));
  }

  lemma StartsAtOrigin(cfg: Config, s: State)
    ensures Reaches(cfg, s, [], s)
  {}

  /** The Redirect stores its finding, and a new one on the same pod meets it. */
  lemma LateNegative(cfg: Config, s0: State, run: seq<Label>, s: State) returns (run': seq<Label>, t: State)
    requires Reaches(cfg, s0, run, s)
    requires 0 in s.ops.redirects && s.ops.redirects[0] == RedirectNegRedis(0, "a", 0) && 1 !in s.ops.redirects
    ensures Reaches(cfg, s0, run', t) && 1 in t.ops.redirects && t.ops.redirects[1] == RedirectNotFound("a", 0, s.now)
  {
    hide Reaches;
    var s1 := RedirectNext(cfg, s, 0, RNegRedis(false)).value;
    var s2 := RedirectNext(cfg, s1, 0, RNegL1).value;
    Go(cfg, s0, run, s, Redirect(0, RNegRedis(false)), s1);
    Go(cfg, s0, run + [Redirect(0, RNegRedis(false))], s1, Redirect(0, RNegL1), s2);
    run', t := MeetsNegative(cfg, s0, run + [Redirect(0, RNegRedis(false))] + [Redirect(0, RNegL1)], s2, 1, 0);
  }

  /** L1 answers "not found". */
  lemma MeetsNegative(cfg: Config, s0: State, run: seq<Label>, s: State, o: nat, p: nat)
      returns (run': seq<Label>, t: State)
    requires Reaches(cfg, s0, run, s) && o !in s.ops.redirects
    requires L1Live(PodAt(s, p).l1, "a", s.now) && PodAt(s, p).l1["a"].value == ""
    ensures Reaches(cfg, s0, run', t) && o in t.ops.redirects && t.now == s.now && t.db == s.db
              && t.ops.creates == s.ops.creates
    ensures t.ops.redirects[o] == RedirectNotFound("a", PodAt(s, p).l1["a"].evidence, s.now)
  {
    hide Reaches;
    var s1 := GoRedirect(s, o, RedirectL1(p, "a"));
    Go(cfg, s0, run, s, Redirect(o, RBegin(p, "a")), s1);
    t := RedirectNext(cfg, s1, o, RL1).value;
    Go(cfg, s0, run + [Redirect(o, RBegin(p, "a"))], s1, Redirect(o, RL1), t);
    run' := run + [Redirect(o, RBegin(p, "a"))] + [Redirect(o, RL1)];
  }

  /** Whatever the configuration: Create has returned and filled its pod's L1, nothing is forgotten before or after,
      and still a Redirect that begins on that pod only then answers "not found". */
  lemma OwnReadCanFail(cfg: Config) returns (run: seq<Label>, s: State, rest: seq<Label>, t: State)
    ensures Init(cfg, ORIGIN) && Reaches(cfg, ORIGIN, run, s) && Reaches(cfg, s, rest, t)
    ensures 0 in s.ops.creates && s.ops.creates[0] == CreateDone("u", "a") && Shows(s, 0, "a", "u", s.now + L1_TTL)
    ensures 1 !in s.ops.redirects && 1 in t.ops.redirects && t.ops.redirects[1] == RedirectNotFound("a", 0, s.now)
  {
    hide Reaches, Returned, Absent, NewSystem, Shows;
    OriginIsInitial(cfg);
    run, s := FoundThenCreated(cfg);
    StartsAtOrigin(cfg, s);
    rest, t := LateNegative(cfg, s, [], s);
  }

  /** Without a bound on how long a Redirect may sit on its finding there is no bound on the age of an answer: here
      it is `age` old, although Create has returned the code, and so it has been committed, all that time. */
  lemma StaleWithoutABound(cfg: Config, age: Time) returns (run: seq<Label>, s: State, rest: seq<Label>, t: State)
    requires cfg.delta.None?
    ensures Init(cfg, ORIGIN) && Reaches(cfg, ORIGIN, run, s) && Reaches(cfg, s, rest, t)
    ensures s.now == 0 && 0 in s.ops.creates && s.ops.creates[0] == CreateDone("u", "a")
    ensures 1 in t.ops.redirects && t.ops.redirects[1] == RedirectNotFound("a", 0, age)
  {
    hide Reaches, Returned, Absent, NewSystem, Shows;
    OriginIsInitial(cfg);
    run, s := FoundThenCreated(cfg);
    StartsAtOrigin(cfg, s);
    Go(cfg, s, [], s, Env(Tick(age)), s.(now := age));
    rest, t := LateNegative(cfg, s, [] + [Env(Tick(age))], s.(now := age));
  }

  // ---- the bound is reached ----

  lemma Waits(cfg: Config, s0: State, run: seq<Label>, s: State, t: Time)
    requires Reaches(cfg, s0, run, s) && s.now <= t
    requires cfg.delta.Some? ==> forall o :: o in s.ops.redirects && HeldSince(s.ops.redirects[o]).Some? ==>
               t <= HeldSince(s.ops.redirects[o]).value + cfg.delta.value
    ensures Reaches(cfg, s0, run + [Env(Tick(t))], s.(now := t))
  {
    hide Reaches;
    Go(cfg, s0, run, s, Env(Tick(t)), s.(now := t));
  }

  /** Redirect 0 has told Redis as late as it may, and its own L1. */
  lemma TellsRedisLate(cfg: Config, delta: Time) returns (run: seq<Label>, s: State)
    requires cfg.delta == Some(delta)
    ensures Reaches(cfg, ORIGIN, run, s) && s.now == delta && 0 in s.ops.creates
              && s.ops.creates[0] == CreateDone("u", "a")
    ensures s.ops.redirects == map[0 := RedirectNotFound("a", 0, delta)] && PodAt(s, 1) == EMPTY_POD
    ensures s.redis.link == map["a" := Cached("", delta + NULL_TTL, 0)]
  {
    hide Reaches, Returned, Absent, NewSystem, Shows;
    var s1;
    run, s1 := FoundThenCreated(cfg);
    Waits(cfg, ORIGIN, run, s1, delta);
    run := run + [Env(Tick(delta))];
    var s2 := s1.(now := delta);
    var s3 := RedirectNext(cfg, s2, 0, RNegRedis(true)).value;
    Go(cfg, ORIGIN, run, s2, Redirect(0, RNegRedis(true)), s3);
    run := run + [Redirect(0, RNegRedis(true))];
    s := RedirectNext(cfg, s3, 0, RNegL1).value;
    Go(cfg, ORIGIN, run, s3, Redirect(0, RNegL1), s);
    run := run + [Redirect(0, RNegL1)];
  }

  /** Redirect 1, on pod 1, reads the Redis entry in its last millisecond. */
  lemma ReadsRedisLate(cfg: Config, delta: Time) returns (run: seq<Label>, s: State)
    requires cfg.delta == Some(delta)
    ensures Reaches(cfg, ORIGIN, run, s) && s.now == delta + NULL_TTL - 1
    ensures 0 in s.ops.creates && s.ops.creates[0] == CreateDone("u", "a")
    ensures s.ops.redirects == map[0 := RedirectNotFound("a", 0, delta), 1 := RedirectNegL1(1, "a", 0, s.now)]
  {
    hide Reaches;
    var s1;
    run, s1 := TellsRedisLate(cfg, delta);
    Waits(cfg, ORIGIN, run, s1, delta + NULL_TTL - 1);
    var s2 := s1.(now := delta + NULL_TTL - 1);
    run := ToRedis(cfg, ORIGIN, run + [Env(Tick(s2.now))], s2, 1, 1);
    var s3 := GoRedirect(s2, 1, RedirectRedis(1, "a"));
    s := RedirectNext(cfg, s3, 1, RRedis(true)).value;
    Go(cfg, ORIGIN, run, s3, Redirect(1, RRedis(true)), s);
    run := run + [Redirect(1, RRedis(true))];
  }

  /** And fills its L1 as late as it may. */
  lemma FillsL1Late(cfg: Config, delta: Time) returns (run: seq<Label>, s: State)
    requires cfg.delta == Some(delta)
    ensures Reaches(cfg, ORIGIN, run, s) && s.now == 2 * delta + NULL_TTL - 1
    ensures 0 in s.ops.creates && s.ops.creates[0] == CreateDone("u", "a")
    ensures s.ops.redirects.Keys == {0, 1} && forall o :: o in s.ops.redirects ==> HeldSince(s.ops.redirects[o]).None?
    ensures "a" in PodAt(s, 1).l1 && PodAt(s, 1).l1["a"] == Cached("", s.now + L1_TTL, 0)
  {
    hide Reaches;
    var s1;
    run, s1 := ReadsRedisLate(cfg, delta);
    Waits(cfg, ORIGIN, run, s1, s1.now + delta);
    var s2 := s1.(now := s1.now + delta);
    s := RedirectNext(cfg, s2, 1, RNegL1).value;
    Go(cfg, ORIGIN, run + [Env(Tick(s2.now))], s2, Redirect(1, RNegL1), s);
    run := run + [Env(Tick(s2.now))] + [Redirect(1, RNegL1)];
  }

  /** The bound of the age of a "not found" is exact: here it is reached, for a code that Create returned at time 0. */
  lemma BoundIsReached(cfg: Config, delta: Time) returns (run: seq<Label>, t: State)
    requires cfg.delta == Some(delta)
    ensures Init(cfg, ORIGIN) && Reaches(cfg, ORIGIN, run, t) && 0 in t.ops.creates
              && t.ops.creates[0] == CreateDone("u", "a")
    ensures 2 in t.ops.redirects && t.ops.redirects[2] == RedirectNotFound("a", 0, Staleness.Bound(delta))
  {
    hide Reaches;
    OriginIsInitial(cfg);
    var s;
    run, s := FillsL1Late(cfg, delta);
    Waits(cfg, ORIGIN, run, s, s.now + L1_TTL);
    var s1 := s.(now := s.now + L1_TTL);
    run, t := MeetsNegative(cfg, ORIGIN, run + [Env(Tick(s1.now))], s1, 2, 1);
  }

  // ---- a ready filter that lacks a committed code ----

  /** The pod has rebuilt the filter from the empty table. */
  lemma PodIsReady(cfg: Config, p: nat) returns (run: seq<Label>, s: State)
    ensures Reaches(cfg, ORIGIN, run, s) && NewSystem(s) && PodAt(s, p).bloomReady && PodAt(s, p).l1 == map[]
    ensures s.now == 0 && s.redis == ORIGIN.redis && s.ops == ORIGIN.ops && s.workers == map[] && s.aux == ORIGIN.aux
  {
    hide Reaches;
    StartsAtOrigin(cfg, ORIGIN);
    var s1 := RebuildNext(cfg, ORIGIN, 0, BBegin(p)).value;
    Go(cfg, ORIGIN, [], ORIGIN, Rebuild(0, BBegin(p)), s1);
    s := RebuildNext(cfg, s1, 0, BFinish).value;
    Go(cfg, ORIGIN, [] + [Rebuild(0, BBegin(p))], s1, Rebuild(0, BFinish), s);
    run := [] + [Rebuild(0, BBegin(p))] + [Rebuild(0, BFinish)];
    assert s.ops.rebuilds == map[];
  }

  /** The system has a committed code that its filter lacks, and a pod that trusts the filter. */
  ghost predicate Missing(cfg: Config, s: State) {
    && PodAt(s, 1).bloomReady && PodAt(s, 1).l1 == map[] && s.redis == ORIGIN.redis && s.ops.redirects == map[]
    && s.db.links == map["a" := Link(1, "u", cfg.md5("u"))]
    && 0 in s.ops.creates && s.ops.creates[0] == CreateDone("u", "a")
  }

  lemma CreatedUnwritten(cfg: Config) returns (run: seq<Label>, s: State)
    ensures Reaches(cfg, ORIGIN, run, s) && Missing(cfg, s) && s.now == 0 && WorkerAt(s, "w").Idle?
    ensures s.db.outbox == map[0 := Outbox.NewRow(TheMessage(cfg), 0)] && 0 in s.aux.claims
  {
    hide Reaches, Returned;
    var s1;
    run, s1 := PodIsReady(cfg, 1);
    run := CreateSucceeds(cfg, ORIGIN, run, s1);
    s := Returned(cfg, s1);
    ReturnedIs(cfg, s1);
  }

  lemma LacksBits(cfg: Config)
    requires cfg.filter.seeds != []
    ensures !Contains(cfg, {}, "a")
  {
    assert Bloom.Offset(cfg.filter, "a", cfg.filter.seeds[0]) in Bloom.Bits(cfg.filter, "a");
  }

  /** A Redirect that begins now answers "not found", on the evidence of this very moment. */
  lemma RejectedNow(cfg: Config, s0: State, run: seq<Label>, s: State) returns (run': seq<Label>, t: State)
    requires Reaches(cfg, s0, run, s) && Missing(cfg, s) && cfg.filter.seeds != []
    ensures Reaches(cfg, s0, run', t) && t.now == s.now && t.db == s.db
    ensures 0 in t.ops.redirects && t.ops.redirects[0] == RedirectNotFound("a", s.now, s.now)
  {
    hide Reaches, Contains;
    LacksBits(cfg);
    run' := ToRedis(cfg, s0, run, s, 0, 1);
    var s1 := GoRedirect(s, 0, RedirectRedis(1, "a"));
    var s2 := RedirectNext(cfg, s1, 0, RRedis(true)).value;
    Go(cfg, s0, run', s1, Redirect(0, RRedis(true)), s2);
    run' := run' + [Redirect(0, RRedis(true))];
    run', t := FilterRejects(cfg, s0, run', s2);
  }

  lemma FilterRejects(cfg: Config, s0: State, run: seq<Label>, s: State) returns (run': seq<Label>, t: State)
    requires Reaches(cfg, s0, run, s) && 0 in s.ops.redirects && s.ops.redirects[0] == RedirectBloom(1, "a")
    requires PodAt(s, 1).bloomReady && !Contains(cfg, s.redis.bloom, "a")
    ensures Reaches(cfg, s0, run', t) && t.now == s.now && t.db == s.db
    ensures 0 in t.ops.redirects && t.ops.redirects[0] == RedirectNotFound("a", s.now, s.now)
  {
    hide Reaches, Contains;
    var s1 := RedirectNext(cfg, s, 0, RBloom(true)).value;
    Go(cfg, s0, run, s, Redirect(0, RBloom(true)), s1);
    t := RedirectNext(cfg, s1, 0, RNegL1).value;
    Go(cfg, s0, run + [Redirect(0, RBloom(true))], s1, Redirect(0, RNegL1), t);
    run' := run + [Redirect(0, RBloom(true))] + [Redirect(0, RNegL1)];
  }

  /** For every `age`, and even if nobody holds a finding: Create has returned the code, and `age` later a Redirect
      that begins then, on a pod whose filter is ready, answers "not found" on fresh evidence. */
  lemma FilterCanMiss(cfg: Config, age: Time) returns (run: seq<Label>, s: State, rest: seq<Label>, t: State)
    requires cfg.filter.seeds != []
    ensures Init(cfg, ORIGIN) && Reaches(cfg, ORIGIN, run, s) && Reaches(cfg, s, rest, t)
    ensures s.now == 0 && Missing(cfg, s) && !Contains(cfg, s.redis.bloom, "a")
    ensures t.db == s.db && 0 in t.ops.redirects && t.ops.redirects[0] == RedirectNotFound("a", age, age)
  {
    hide Reaches, Contains;
    OriginIsInitial(cfg);
    LacksBits(cfg);
    run, s := CreatedUnwritten(cfg);
    StartsAtOrigin(cfg, s);
    Waits(cfg, s, [], s, age);
    rest, t := RejectedNow(cfg, s, [] + [Env(Tick(age))], s.(now := age));
  }

  // ---- and whose row was given up ----

  /** Outbox row 0 of `s` is `row`, and the worker is idle. */
  ghost predicate RowIs(cfg: Config, s: State, row: Outbox.Row) {
    && Missing(cfg, s) && s.now == 0 && WorkerAt(s, "w").Idle? && s.db.outbox == map[0 := row] && 0 in s.aux.claims
  }

  function Claimed(cfg: Config, s: State): State
    requires 0 in s.db.outbox
  {
    Become(ClaimAll(cfg, s, "w", [0]), "w", Publishing(JobsOf(s, [0]), 0, []))
  }

  lemma ClaimWorks(cfg: Config, s: State, row: Outbox.Row)
    requires RowIs(cfg, s, row) && row.status.Pending?
    ensures WorkerNext(cfg, s, "w", WClaim([0], true, true)) == Some(Claimed(cfg, s))
    ensures Missing(cfg, Claimed(cfg, s)) && Claimed(cfg, s).now == 0 && 0 in Claimed(cfg, s).aux.claims
    ensures Claimed(cfg, s).db.outbox == map[0 := Outbox.ClaimRow(row, "w", 0, cfg.lease)]
  {
    assert CanClaim(s, [0]);
    var ids: seq<nat> := [0];
    assert ids[0] in Outbox.Elements(ids) && Outbox.Elements(ids) == {0};
  }

  /** The publish fails, which is recorded, and there is nothing to mark as sent. */
  lemma FailureWorks(cfg: Config, s0: State, run: seq<Label>, s: State, row: Outbox.Row)
      returns (run': seq<Label>, t: State)
    requires Reaches(cfg, s0, run, s) && Missing(cfg, s) && s.now == 0 && 0 in s.aux.claims
    requires s.db.outbox == map[0 := row] && Outbox.OwnedBy(row, "w")
    requires WorkerAt(s, "w").Publishing? && |WorkerAt(s, "w").batch| == 1 && WorkerAt(s, "w").batch[0].id == 0
              && WorkerAt(s, "w").pos == 0
    ensures Reaches(cfg, s0, run', t) && RowIs(cfg, t, Outbox.FailedRow(row, cfg.maxRetry, 0, cfg.order))
  {
    hide Reaches;
    var s1 := WorkerNext(cfg, s, "w", WPublish(false, false)).value;
    Go(cfg, s0, run, s, Work("w", WPublish(false, false)), s1);
    var s2 := WorkerNext(cfg, s1, "w", WMarkFailed(true)).value;
    Go(cfg, s0, run + [Work("w", WPublish(false, false))], s1, Work("w", WMarkFailed(true)), s2);
    run', t := SettlesNothing(cfg, s0, run + [Work("w", WPublish(false, false))] + [Work("w", WMarkFailed(true))], s2,
        Outbox.FailedRow(row, cfg.maxRetry, 0, cfg.order));
  }

  lemma SettlesNothing(cfg: Config, s0: State, run: seq<Label>, s: State, row: Outbox.Row)
      returns (run': seq<Label>, t: State)
    requires Reaches(cfg, s0, run, s) && Missing(cfg, s) && s.now == 0 && 0 in s.aux.claims
              && s.db.outbox == map[0 := row]
    requires WorkerAt(s, "w").Publishing? && |WorkerAt(s, "w").batch| == 1 && WorkerAt(s, "w").pos == 1
    ensures Reaches(cfg, s0, run', t) && RowIs(cfg, t, row)
  {
    hide Reaches;
    var s1 := WorkerNext(cfg, s, "w", WMarkSent(false)).value;
    Go(cfg, s0, run, s, Work("w", WMarkSent(false)), s1);
    t := WorkerNext(cfg, s1, "w", WSkipCleanup).value;
    Go(cfg, s0, run + [Work("w", WMarkSent(false))], s1, Work("w", WSkipCleanup), t);
    run' := run + [Work("w", WMarkSent(false))] + [Work("w", WSkipCleanup)];
  }

  lemma {:induction false} FailsTimes(cfg: Config, n: nat) returns (run: seq<Label>, s: State)
    requires n <= Outbox.Attempts(cfg.maxRetry, cfg.order)
    ensures Reaches(cfg, ORIGIN, run, s)
    ensures RowIs(cfg, s, Outbox.FailTimes(Outbox.NewRow(TheMessage(cfg), 0), n, cfg.maxRetry, "w", 0, cfg.lease,
              cfg.order))
  {
    hide Reaches, Missing, Claimed;
    var row := Outbox.NewRow(TheMessage(cfg), 0);
    if n == 0 {
      run, s := CreatedUnwritten(cfg);
    } else {
      run, s := FailsTimes(cfg, n - 1);
      Outbox.GivenUpAfterExactly(TheMessage(cfg), n - 1, cfg.maxRetry, "w", 0, cfg.lease, cfg.order);
      run, s := FailsOnce(cfg, run, s, Outbox.FailTimes(row, n - 1, cfg.maxRetry, "w", 0, cfg.lease, cfg.order));
    }
  }

  lemma FailsOnce(cfg: Config, run: seq<Label>, s: State, row: Outbox.Row) returns (run': seq<Label>, t: State)
    requires Reaches(cfg, ORIGIN, run, s) && RowIs(cfg, s, row) && row.status.Pending?
    ensures Reaches(cfg, ORIGIN, run', t)
    ensures RowIs(cfg, t, Outbox.FailedRow(Outbox.ClaimRow(row, "w", 0, cfg.lease), cfg.maxRetry, 0, cfg.order))
  {
    hide Reaches, Missing;
    ClaimWorks(cfg, s, row);
    Go(cfg, ORIGIN, run, s, Work("w", WClaim([0], true, true)), Claimed(cfg, s));
    run', t := FailureWorks(cfg, ORIGIN, run + [Work("w", WClaim([0], true, true))], Claimed(cfg, s),
        Outbox.ClaimRow(row, "w", 0, cfg.lease));
  }

  /** The same after the row was given up, so that no worker will claim it again: for every `age`. */
  lemma GivenUpCodeStaysMissing(cfg: Config, age: Time) returns (run: seq<Label>, s: State, rest: seq<Label>, t: State)
    requires cfg.filter.seeds != []
    ensures Init(cfg, ORIGIN) && Reaches(cfg, ORIGIN, run, s) && Reaches(cfg, s, rest, t)
    ensures Missing(cfg, s) && s.now == 0 && 0 in s.db.outbox && s.db.outbox[0].status.Failed?
              && s.db.outbox[0].msg == TheMessage(cfg)
    ensures t.db == s.db && 0 in t.ops.redirects && t.ops.redirects[0] == RedirectNotFound("a", age, age)
  {
    hide Reaches;
    var n := Outbox.Attempts(cfg.maxRetry, cfg.order);
    OriginIsInitial(cfg);
    run, s := FailsTimes(cfg, n);
    Outbox.GivenUpAfterExactly(TheMessage(cfg), n, cfg.maxRetry, "w", 0, cfg.lease, cfg.order);
    StartsAtOrigin(cfg, s);
    Waits(cfg, s, [], s, age);
    rest, t := RejectedNow(cfg, s, [] + [Env(Tick(age))], s.(now := age));
  }

  // ---- a Redirect that begins after the commit ----

  function RejectedState(s: State): State {
    GoRedirect(Noted(s, AtBloom("a", s.now, 0)), 0, RedirectNegL1(0, "a", s.now, s.now))
  }

  lemma RejectionCommutes(cfg: Config, s: State)
    ensures RejectedState(Inserted(cfg, s)) == Inserted(cfg, RejectedState(s))
  {}

  lemma RejectionIs(cfg: Config, s: State)
    requires PodAt(s, 0).bloomReady && !Contains(cfg, s.redis.bloom, "a")
    ensures RedirectNext(cfg, GoRedirect(s, 0, RedirectBloom(0, "a")), 0, RBloom(true)) == Some(RejectedState(s))
  {
    hide Contains;
    var a := AtBloom("a", s.now, 0);
    assert Noted(GoRedirect(s, 0, RedirectBloom(0, "a")), a) == GoRedirect(Noted(s, a), 0, RedirectBloom(0, "a"));
    RedirectOverwrites(Noted(s, a), 0, RedirectBloom(0, "a"), RedirectNegL1(0, "a", s.now, s.now));
  }

  lemma MissesRedis(cfg: Config, s: State)
    requires s.redis.link == map[]
    ensures RedirectNext(cfg, GoRedirect(s, 0, RedirectRedis(0, "a")), 0, RRedis(true)) ==
              Some(GoRedirect(s, 0, RedirectBloom(0, "a")))
  {
    RedirectOverwrites(s, 0, RedirectRedis(0, "a"), RedirectBloom(0, "a"));
  }

  lemma IsRejected(cfg: Config, s: State) returns (run: seq<Label>)
    requires PodAt(s, 0).bloomReady && PodAt(s, 0).l1 == map[] && 0 !in s.ops.redirects
    requires s.redis == ORIGIN.redis && cfg.filter.seeds != []
    ensures Reaches(cfg, s, run, RejectedState(s))
  {
    hide Reaches, Contains, RedirectNext, GoRedirect, RejectedState;
    LacksBits(cfg);
    StartsAtOrigin(cfg, s);
    run := ToRedis(cfg, s, [], s, 0, 0);
    MissesRedis(cfg, s);
    RejectionIs(cfg, s);
    Go(cfg, s, run, GoRedirect(s, 0, RedirectRedis(0, "a")), Redirect(0, RRedis(true)),
      GoRedirect(s, 0, RedirectBloom(0, "a")));
    run := run + [Redirect(0, RRedis(true))];
    Go(cfg, s, run, GoRedirect(s, 0, RedirectBloom(0, "a")), Redirect(0, RBloom(true)), RejectedState(s));
    run := run + [Redirect(0, RBloom(true))];
  }

  lemma InsertedIs(cfg: Config, s: State)
    ensures var t := Inserted(cfg, s);
            "a" in t.db.links && t.ops.redirects == s.ops.redirects && t.redis == s.redis && t.pods == s.pods
  {}

  /** The code is committed and no Redirect is under way; one that begins only then comes to endanger the entry that
      Create puts into L1 afterwards. */
  lemma BeginnerCanEndanger(cfg: Config) returns (run: seq<Label>, s: State, rest: seq<Label>, t: State)
    requires cfg.filter.seeds != []
    ensures Init(cfg, ORIGIN) && Reaches(cfg, ORIGIN, run, s) && Reaches(cfg, s, rest, t)
    ensures "a" in s.db.links && s.ops.redirects == map[]
    ensures 0 in t.ops.creates && t.ops.creates[0] == CreateDone("u", "a") && Shows(t, 0, "a", "u", t.now + L1_TTL)
    ensures Endangered(cfg, t, 0, "a")
  {
    hide Reaches, CreateNext, Returned, HashFilled, L1Filled, Inserted, RejectedState, Shows;
    OriginIsInitial(cfg);
    var s1;
    run, s1 := PodIsReady(cfg, 0);
    run := CreateMisses(cfg, ORIGIN, run, s1);
    InsertWorks(cfg, s1);
    s := Inserted(cfg, s1);
    Go(cfg, ORIGIN, run, GoCreate(s1, 0, CreateInsert(0, "u")), Create(0, CInsert(1, "a", true, true)), s);
    run := run + [Create(0, CInsert(1, "a", true, true))];
    InsertedIs(cfg, s1);
    rest := IsRejected(cfg, s);
    RejectionCommutes(cfg, s1);
    rest, t := FillsAndReturns(cfg, s, rest, RejectedState(s1));
    MenaceIs(cfg, s1);
  }

  lemma FillsAndReturns(cfg: Config, s0: State, run: seq<Label>, s: State) returns (run': seq<Label>, t: State)
    requires Reaches(cfg, s0, run, Inserted(cfg, s))
    ensures Reaches(cfg, s0, run', t) && t == Returned(cfg, s)
  {
    hide Reaches, CreateNext, Returned, HashFilled, L1Filled, Inserted;
    FillsWork(cfg, s);
    Go(cfg, s0, run, Inserted(cfg, s), Create(0, CSetL1), L1Filled(cfg, s));
    run' := run + [Create(0, CSetL1)];
    Go(cfg, s0, run', L1Filled(cfg, s), Create(0, CSetHashL1), HashFilled(cfg, s));
    run' := run' + [Create(0, CSetHashL1)];
    t := Returned(cfg, s);
    Go(cfg, s0, run', HashFilled(cfg, s), Create(0, CReturn), t);
    run' := run' + [Create(0, CReturn)];
  }

  lemma MenaceIs(cfg: Config, s: State)
    requires NewSystem(s)
    ensures var t := Returned(cfg, RejectedState(s));
            && Endangered(cfg, t, 0, "a") && Shows(t, 0, "a", "u", t.now + L1_TTL)
            && 0 in t.ops.creates && t.ops.creates[0] == CreateDone("u", "a")
  {
    hide Returned;
    var t := Returned(cfg, RejectedState(s));
    ReturnedIs(cfg, RejectedState(s));
    assert Menaces(cfg, t, 0, "a", t.ops.redirects[0]);
  }
}
