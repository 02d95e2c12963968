/** Create and Redirect of internal/service/shortlink.go, as the code that drives the steps of the system model.
    Between any two steps everybody else may run; which calls fail is not determined. */
module ShortLinkService {
  import opened Common
  import opened SystemModel
  import opened Agreement
  import opened Cluster
  import Bloom
  import Outbox
  import Staleness
  import opened SystemTheorems
  import opened Answers

  /** What the pipelines of Create and of the consumer contain, in order. */
  function Commands(f: Bloom.Filter, code: string, ttl: Time): (cmds: seq<RedisCmd>)
    ensures |cmds| == 2 + |f.seeds| && cmds[0] == SetLink(ttl) && cmds[1] == SetHash(ttl)
    ensures forall i :: 2 <= i < |cmds| ==> cmds[i] == SetBit(Bloom.Offset(f, code, f.seeds[i - 2]))
  {
    [SetLink(ttl), SetHash(ttl)] + seq(|f.seeds|,
        i requires 0 <= i < |f.seeds| => SetBit(Bloom.Offset(f, code, f.seeds[i])))
  }

  lemma CommandsFit(cfg: Config, code: string, ttl: Time, i: nat)
    requires i < |Commands(cfg.filter, code, ttl)|
    ensures CmdFits(cfg, code, Commands(cfg.filter, code, ttl)[i])
  {}

  // ---- Redirect ----

  datatype Answer = Found(url: string) | NotFound | Failed

  datatype Lookup = Row(value: string) | NoRow | DbError

  ghost predicate Redirecting(c: Cluster, o: nat, op: RedirectOp)
    reads c
  {
    c.Valid() && o in c.s.ops.redirects && c.s.ops.redirects[o] == op
  }

  /** The operation has just answered "not found". */
  ghost predicate RejectedNow(c: Cluster, o: nat, code: string)
    reads c
  {
    && c.Valid() && o in c.s.ops.redirects && c.s.ops.redirects[o].RedirectNotFound?
    && c.s.ops.redirects[o].code == code && c.s.ops.redirects[o].at == c.s.now
  }

  /** Some moment, at most `bound` ago, at which the code was found to be absent. */
  ghost predicate RecentlyAbsent(s: State, code: string, bound: Time) {
    exists a :: a in s.aux.absences && a.code == code && a.at <= s.now <= a.at + bound
  }

  ghost predicate AnswersWith(c: Cluster, o: nat, code: string, r: Answer)
    reads c
  {
    match r
    case Found(url) => Redirecting(c, o, RedirectFound(code, url))
    case NotFound => RejectedNow(c, o, code)
    case Failed => Redirecting(c, o, RedirectFailed(code))
  }

  /** The pod's L1 now says the same. */
  ghost predicate RemembersAnswer(c: Cluster, p: nat, code: string, r: Answer)
    reads c
  {
    match r
    case Found(url) => L1Says(c.s, p, code, url)
    case NotFound => L1Says(c.s, p, code, "")
    case Failed => true
  }

  ghost predicate HoldsNegative(c: Cluster, o: nat, p: nat, code: string)
    reads c
  {
    && c.Valid() && o in c.s.ops.redirects && c.s.ops.redirects[o].RedirectNegL1?
    && c.s.ops.redirects[o].p == p && c.s.ops.redirects[o].code == code
  }

  ghost predicate FoundAbsent(c: Cluster, o: nat, p: nat, code: string)
    reads c
  {
    && c.Valid() && o in c.s.ops.redirects && c.s.ops.redirects[o].RedirectNegRedis?
    && c.s.ops.redirects[o].p == p && c.s.ops.redirects[o].code == code
  }

  /** Which calls of one Redirect succeed, and whether the replica has already received the row. */
  datatype RedirectCalls = RedirectCalls(redisGet: bool, bloom: bool, visible: bool, replica: bool, master: bool,
                                         redisSetEmpty: bool, redisSet: bool)

  lemma ClearIsPositive(c: Cluster, p: nat, code: string)
    requires Clear(c.cfg, c.s, p, code)
    ensures code in c.s.db.links && !L1Negative(c.s, p, code)
    ensures forall o :: !HoldsNegative(c, o, p, code) && !FoundAbsent(c, o, p, code)
  {}

  method L1Get(c: Cluster, o: nat, p: nat, code: string, next: RedirectOp) returns (v: Option<string>)
    requires (Redirecting(c, o, RedirectL1(p, code)) && next == RedirectRecheck(p, code)) ||
             (Redirecting(c, o, RedirectRecheck(p, code)) && next == RedirectRedis(p, code))
    modifies c
    ensures v.None? ==> Redirecting(c, o, next)
    ensures v.Some? ==> AnswersWith(c, o, code, if v.value == "" then NotFound else Found(v.value))
    ensures v.Some? <==> L1Live(PodAt(old(c.s), p).l1, code, c.s.now)
    ensures v.Some? ==> L1Says(c.s, p, code, v.value)
    ensures Clear(c.cfg, old(c.s), p, code) ==>
              Clear(c.cfg, c.s, p, code) && LinkOf(c.s, code) == LinkOf(old(c.s), code)
              && (v.Some? ==> v.value != "" && IsUrl(c.s.db.links, code, v.value))
  {
    hide Invariant, Onwards, ClearsStay, Clear;
    var l1 := PodAt(c.s, p).l1;
    v := if L1Live(l1, code, c.s.now) then Some(l1[code].value) else None;
    ghost var before := c.s;
    if Clear(c.cfg, c.s, p, code) {
      ClearIsPositive(c, p, code);
    }
    c.Fire(Label.Redirect(o, RL1));
    StillClear(c, before, p, code);
    if v.Some? {
      AnswerIsTrue(c, o, code, if v.value == "" then NotFound else Found(v.value));
    }
  }

  lemma StillClear(c: Cluster, before: State, p: nat, code: string)
    requires ClearsStay(c.cfg, before, c.s)
    ensures Clear(c.cfg, before, p, code) ==> Clear(c.cfg, c.s, p, code) && LinkOf(c.s, code) == LinkOf(before, code)
  {
    hide Clear;
  }

  /** Redis GET: a miss and an error look the same to the caller. */
  method RedisGet(c: Cluster, o: nat, p: nat, code: string, works: bool) returns (v: Option<string>)
    requires Redirecting(c, o, RedirectRedis(p, code))
    modifies c
    ensures v.None? ==> Redirecting(c, o, RedirectBloom(p, code))
    ensures v.Some? ==>
              if v.value == "" then HoldsNegative(c, o, p, code) else Redirecting(c, o, RedirectPosL1(p, code, v.value))
    ensures v.Some? <==> works && RedisLive(old(c.s.redis.link), code, c.s.now)
    ensures Clear(c.cfg, old(c.s), p, code) ==>
              Clear(c.cfg, c.s, p, code) && LinkOf(c.s, code) == LinkOf(old(c.s), code)
              && (v.Some? ==> v.value != "" && IsUrl(c.s.db.links, code, v.value))
  {
    hide Invariant, Onwards, ClearsStay, Clear;
    v := if works && RedisLive(c.s.redis.link, code, c.s.now) then Some(c.s.redis.link[code].value) else None;
    ghost var before := c.s;
    c.Fire(Label.Redirect(o, RRedis(works)));
    StillClear(c, before, p, code);
    OpAgrees(c, o);
    if Clear(c.cfg, c.s, p, code) {
      ClearIsPositive(c, p, code);
    }
  }

  /** Whether a ready Bloom filter rules the code out; its error lets the request pass. */
  method BloomRejects(c: Cluster, o: nat, p: nat, code: string, works: bool) returns (rejected: bool)
    requires Redirecting(c, o, RedirectBloom(p, code))
    modifies c
    ensures if rejected then HoldsNegative(c, o, p, code) else Redirecting(c, o, RedirectReplica(p, code))
    ensures rejected <==> works && PodAt(old(c.s), p).bloomReady && !Contains(c.cfg, old(c.s.redis.bloom), code)
    ensures Clear(c.cfg, old(c.s), p, code) ==>
              Clear(c.cfg, c.s, p, code) && LinkOf(c.s, code) == LinkOf(old(c.s), code) && !rejected
  {
    hide Invariant, Onwards, ClearsStay, Clear;
    rejected := PodAt(c.s, p).bloomReady && works && !Contains(c.cfg, c.s.redis.bloom, code);
    ghost var before := c.s;
    c.Fire(Label.Redirect(o, RBloom(works)));
    StillClear(c, before, p, code);
    if Clear(c.cfg, c.s, p, code) {
      ClearIsPositive(c, p, code);
    }
  }

  /** A replica shows any subset of the committed rows: this one only if it is `visible`. */
  method ReadReplica(c: Cluster, o: nat, p: nat, code: string, visible: bool, works: bool) returns (found: Lookup)
    requires Redirecting(c, o, RedirectReplica(p, code))
    modifies c
    ensures match found
            case Row(url) => Redirecting(c, o, RedirectPosRedis(p, code, url))
            case NoRow => Redirecting(c, o, RedirectMaster(p, code))
            case DbError => Redirecting(c, o, RedirectFailed(code))
    ensures c.s.db == old(c.s.db) && (found.DbError? <==> !works)
    ensures works ==> (found.Row? <==> visible && code in c.s.db.links)
    ensures found.Row? ==> found.value == c.s.db.links[code].url
    ensures Clear(c.cfg, old(c.s), p, code) ==>
              Clear(c.cfg, c.s, p, code) && LinkOf(c.s, code) == LinkOf(old(c.s), code)
  {
    hide Invariant, Onwards, ClearsStay, Clear;
    var shown := visible && code in c.s.db.links;
    found := if !works then DbError else if shown then Row(c.s.db.links[code].url) else NoRow;
    ghost var before := c.s;
    c.Fire(Label.Redirect(o, RReplica(shown, works)));
    StillClear(c, before, p, code);
  }

  method ReadMaster(c: Cluster, o: nat, p: nat, code: string, works: bool) returns (found: Lookup)
    requires Redirecting(c, o, RedirectMaster(p, code))
    modifies c
    ensures match found
            case Row(url) => Redirecting(c, o, RedirectPosRedis(p, code, url))
            case NoRow => FoundAbsent(c, o, p, code)
            case DbError => Redirecting(c, o, RedirectFailed(code))
    ensures c.s.db == old(c.s.db) && (found.DbError? <==> !works)
    ensures works ==> (found.Row? <==> code in c.s.db.links)
    ensures found.Row? ==> found.value == c.s.db.links[code].url
    ensures Clear(c.cfg, old(c.s), p, code) ==>
              Clear(c.cfg, c.s, p, code) && LinkOf(c.s, code) == LinkOf(old(c.s), code)
  {
    hide Invariant, Onwards, ClearsStay, Clear;
    found := if !works then DbError else if code in c.s.db.links then Row(c.s.db.links[code].url) else NoRow;
    ghost var before := c.s;
    c.Fire(Label.Redirect(o, RMaster(works)));
    StillClear(c, before, p, code);
  }

  method RedisSetEmpty(c: Cluster, o: nat, p: nat, code: string, works: bool)
    requires FoundAbsent(c, o, p, code)
    modifies c
    ensures HoldsNegative(c, o, p, code)
    ensures works ==> InRedis(c.s.redis.link, code, "", c.s.now + NULL_TTL)
  {
    hide Invariant, Onwards, ClearsStay;
    c.Fire(Label.Redirect(o, RNegRedis(works)));
  }

  method L1SetEmpty(c: Cluster, o: nat, p: nat, code: string)
    requires HoldsNegative(c, o, p, code)
    modifies c
    ensures RejectedNow(c, o, code) && InL1(c.s, p, code, "")
  {
    hide Invariant, Onwards, ClearsStay;
    c.Fire(Label.Redirect(o, RNegL1));
  }

  method RedisSet(c: Cluster, o: nat, p: nat, code: string, url: string, ttl: Time, works: bool)
    requires Redirecting(c, o, RedirectPosRedis(p, code, url))
    modifies c
    ensures Redirecting(c, o, RedirectPosL1(p, code, url))
    ensures works ==> InRedis(c.s.redis.link, code, url, c.s.now + ttl)
  {
    hide Invariant, Onwards, ClearsStay;
    c.Fire(Label.Redirect(o, RPosRedis(works, ttl)));
  }

  method L1Set(c: Cluster, o: nat, p: nat, code: string, url: string)
    requires Redirecting(c, o, RedirectPosL1(p, code, url))
    modifies c
    ensures Redirecting(c, o, RedirectFound(code, url)) && InL1(c.s, p, code, url)
  {
    hide Invariant, Onwards, ClearsStay;
    c.Fire(Label.Redirect(o, RPosL1));
  }

  /** Time passes before the next access. */
  method Wait(c: Cluster, o: nat, p: nat, code: string)
    requires c.Valid()
    modifies c
    ensures c.Valid() && Untouched(old(c.s), c.s, RedirectActor(o)) && Onwards(old(c.s), c.s)
    ensures Clear(c.cfg, old(c.s), p, code) ==>
              Clear(c.cfg, c.s, p, code) && LinkOf(c.s, code) == LinkOf(old(c.s), code)
  {
    hide Invariant, Onwards, ClearsStay, Clear;
    ghost var before := c.s;
    c.Yield(RedirectActor(o));
    StillClear(c, before, p, code);
  }

  method ResolveRedirect(c: Cluster, o: nat, p: nat, code: string, ttl: Time, calls: RedirectCalls)
      returns (r: Answer)
    requires Redirecting(c, o, RedirectRecheck(p, code))
    modifies c
    ensures c.Valid() && AnswersWith(c, o, code, r) && RemembersAnswer(c, p, code, r)
    ensures r.Failed? ==> !calls.replica || !calls.master
    ensures Clear(c.cfg, old(c.s), p, code) ==>
              LinkOf(old(c.s), code).Some? && (r.Failed? || r == Found(LinkOf(old(c.s), code).value.url))
  {
    hide Invariant, Onwards, ClearsStay, Clear;
    if Clear(c.cfg, c.s, p, code) {
      ClearIsPositive(c, p, code);
    }
    var v := L1Get(c, o, p, code, RedirectRedis(p, code));
    if v.Some? {
      return if v.value == "" then NotFound else Found(v.value);
    }
    Wait(c, o, p, code);
    v := RedisGet(c, o, p, code, calls.redisGet);
    Wait(c, o, p, code);
    if v.Some? {
      if v.value == "" {
        L1SetEmpty(c, o, p, code);
        return NotFound;
      }
      L1Set(c, o, p, code, v.value);
      return Found(v.value);
    }
    var rejected := BloomRejects(c, o, p, code, calls.bloom);
    Wait(c, o, p, code);
    if rejected {
      L1SetEmpty(c, o, p, code);
      return NotFound;
    }
    if Clear(c.cfg, c.s, p, code) {
      ClearIsPositive(c, p, code);
    }
    r := FromDatabase(c, o, p, code, ttl, calls);
  }

  /** It fails exactly when a query that it makes fails. */
  method FromDatabase(c: Cluster, o: nat, p: nat, code: string, ttl: Time, calls: RedirectCalls) returns (r: Answer)
    requires Redirecting(c, o, RedirectReplica(p, code))
    modifies c
    ensures c.Valid() && AnswersWith(c, o, code, r) && RemembersAnswer(c, p, code, r)
    ensures r.Failed? <==> !calls.replica || (!calls.master && !(calls.visible && code in old(c.s.db.links)))
    ensures code in old(c.s.db.links) && !r.Failed? ==> r == Found(old(c.s.db.links)[code].url)
  {
    hide Invariant, Onwards, ClearsStay;
    var t := RedirectActor(o);
    var found := ReadReplica(c, o, p, code, calls.visible, calls.replica);
    if found.NoRow? {
      ghost var asked := c.s;
      c.Yield(t);
      LinkStays(asked, c.s, code);
      found := ReadMaster(c, o, p, code, calls.master);
    }
    if found.DbError? {
      return Failed;
    }
    c.Yield(t);
    if found.NoRow? {
      RedisSetEmpty(c, o, p, code, calls.redisSetEmpty);
      c.Yield(t);
      L1SetEmpty(c, o, p, code);
      return NotFound;
    }
    RedisSet(c, o, p, code, found.value, ttl, calls.redisSet);
    c.Yield(t);
    L1Set(c, o, p, code, found.value);
    r := Found(found.value);
  }

  lemma LinkStays(s: State, s': State, code: string)
    requires Onwards(s, s')
    ensures code in s.db.links ==> code in s'.db.links && s'.db.links[code] == s.db.links[code]
  {}

  /** A URL that Redirect returns is the committed one.  A "not found" goes back to a moment, no longer ago than the
      bound, at which the code was found to be absent.  An error means that a database query failed; and while nothing
      on the pod speaks against a committed code, queries that succeed give its URL. */
  method Redirect(c: Cluster, o: nat, p: nat, code: string, ttl: Time, calls: RedirectCalls) returns (r: Answer)
    requires c.Valid() && o !in c.s.ops.redirects
    modifies c
    ensures c.Valid() && AnswersWith(c, o, code, r) && RemembersAnswer(c, p, code, r)
    ensures r.Found? ==> IsUrl(c.s.db.links, code, r.url)
    ensures r.NotFound? && c.cfg.delta.Some? ==> RecentlyAbsent(c.s, code, Staleness.Bound(c.cfg.delta.value))
    ensures r.Failed? ==> !calls.replica || !calls.master
    ensures Clear(c.cfg, old(c.s), p, code) ==>
              LinkOf(old(c.s), code).Some?
              && (r == Found(LinkOf(old(c.s), code).value.url) || (r.Failed? && !(calls.replica && calls.master)))
  {
    hide Invariant, Onwards, ClearsStay, Clear;
    ghost var before := c.s;
    c.Fire(Label.Redirect(o, RBegin(p, code)));
    StillClear(c, before, p, code);
    Wait(c, o, p, code);
    if Clear(c.cfg, c.s, p, code) {
      ClearIsPositive(c, p, code);
    }
    var v := L1Get(c, o, p, code, RedirectRecheck(p, code));
    if v.Some? {
      r := if v.value == "" then NotFound else Found(v.value);
    } else {
      Wait(c, o, p, code);
      r := ResolveRedirect(c, o, p, code, ttl, calls);
    }
    AnswerIsTrue(c, o, code, r);
  }

  lemma OpAgrees(c: Cluster, o: nat)
    requires c.Valid() && o in c.s.ops.redirects
    ensures RedirectOk(c.s.db.links, c.s.ops.redirects[o])
  {}

  lemma AnswerIsTrue(c: Cluster, o: nat, code: string, r: Answer)
    requires c.Valid() && AnswersWith(c, o, code, r)
    ensures r.Found? ==> IsUrl(c.s.db.links, code, r.url)
    ensures r.NotFound? && c.cfg.delta.Some? ==> RecentlyAbsent(c.s, code, Staleness.Bound(c.cfg.delta.value))
  {
    assert RedirectOk(c.s.db.links, c.s.ops.redirects[o]);
    assert c.cfg.delta.Some? ==> Staleness.OpOk(c.cfg.delta.value, c.s, c.s.ops.redirects[o]);
  }

  // ---- Create ----

  /** One try at a pipeline: how many commands get through, and whether the client hears of success. */
  datatype Attempt = Attempt(commands: nat, reported: bool)

  predicate Clean(f: Bloom.Filter, a: Attempt) {
    a.commands >= 2 + |f.seeds| && a.reported
  }

  /** Which calls of one Create succeed. */
  datatype CreateCalls = CreateCalls(redisGet: bool, find: bool, fill: bool, insert: Outbox.Fault,
                                     writes: nat -> Attempt)

  ghost predicate Creating(c: Cluster, o: nat, op: CreateOp)
    reads c
  {
    c.Valid() && o in c.s.ops.creates && c.s.ops.creates[o] == op
  }

  method HashL1Get(c: Cluster, o: nat, p: nat, url: string) returns (v: Option<string>)
    requires Creating(c, o, CreateLookup(p, url)) && url != ""
    modifies c
    ensures v.Some? && v.value != "" ==> Creating(c, o, CreateDone(url, v.value))
    ensures v.None? || v.value == "" ==> Creating(c, o, CreateRedis(p, url))
    ensures v.Some? <==> L1Live(PodAt(old(c.s), p).hashL1, c.cfg.md5(url), c.s.now)
  {
    hide Invariant, Onwards, ClearsStay;
    var l1, h := PodAt(c.s, p).hashL1, c.cfg.md5(url);
    v := if L1Live(l1, h, c.s.now) then Some(l1[h].value) else None;
    c.Fire(Label.Create(o, CLookup));
  }

  method RedisGetURLHash(c: Cluster, o: nat, p: nat, url: string, works: bool) returns (v: Option<string>)
    requires Creating(c, o, CreateRedis(p, url))
    modifies c
    ensures v.Some? && v.value != "" ==> Creating(c, o, CreateFillL1(p, url, v.value))
    ensures v.None? || v.value == "" ==> Creating(c, o, CreateFind(p, url))
    ensures v.Some? <==> works && RedisLive(old(c.s.redis.hash), c.cfg.md5(url), c.s.now)
  {
    hide Invariant, Onwards, ClearsStay;
    var h := c.cfg.md5(url);
    v := if works && RedisLive(c.s.redis.hash, h, c.s.now) then Some(c.s.redis.hash[h].value) else None;
    c.Fire(Label.Create(o, CRedis(works)));
  }

  method FindByLongURLHashFromMaster(c: Cluster, o: nat, p: nat, url: string, works: bool) returns (found: Lookup)
    requires Creating(c, o, CreateFind(p, url))
    modifies c
    ensures match found
            case Row(code) => Creating(c, o, CreateFillRedis(p, url, code))
                && IsHash(c.s.db.links, code, c.cfg.md5(url))
            case NoRow => Creating(c, o, CreateInsert(p, url))
                && forall d :: d in c.s.db.links ==> c.s.db.links[d].hash != c.cfg.md5(url)
            case DbError => Creating(c, o, CreateFailed(url))
    ensures c.s.db == old(c.s.db) && (found.DbError? <==> !works)
  {
    hide Invariant, Onwards, ClearsStay;
    var h := c.cfg.md5(url);
    if !works {
      c.Fire(Label.Create(o, CFindErr));
      found := DbError;
    } else if code :| code in c.s.db.links && c.s.db.links[code].hash == h {
      c.Fire(Label.Create(o, CFindHit(code)));
      found := Row(code);
    } else {
      c.Fire(Label.Create(o, CFindMiss));
      found := NoRow;
    }
  }

  method RedisSetURLHash(c: Cluster, o: nat, p: nat, url: string, code: string, ttl: Time, works: bool)
    requires Creating(c, o, CreateFillRedis(p, url, code))
    modifies c
    ensures Creating(c, o, CreateFillL1(p, url, code))
    ensures works ==> InRedis(c.s.redis.hash, c.cfg.md5(url), code, c.s.now + ttl)
  {
    hide Invariant, Onwards, ClearsStay;
    c.Fire(Label.Create(o, CFillRedis(works, ttl)));
  }

  method HashL1Fill(c: Cluster, o: nat, p: nat, url: string, code: string)
    requires Creating(c, o, CreateFillL1(p, url, code))
    modifies c
    ensures Creating(c, o, CreateDone(url, code)) && InHashL1(c.s, p, c.cfg.md5(url), code)
  {
    hide Invariant, Onwards, ClearsStay;
    c.Fire(Label.Create(o, CFillL1));
  }

  /** The transaction: link row and outbox row.  It succeeds exactly when no key is taken and the database has no fault;
      with a fault at the commit it may take effect all the same. */
  method InsertLinkAndOutbox(c: Cluster, o: nat, p: nat, url: string, id: nat, code: string, fault: Outbox.Fault)
      returns (ok: bool)
    requires Creating(c, o, CreateInsert(p, url)) && id > 0 && code != ""
    modifies c
    ensures if ok then Creating(c, o, CreateSetL1(p, url, code)) else Creating(c, o, CreateFailed(url))
    ensures ok <==> fault.NoFault? && Unused(old(c.s.db.links), id, code, c.cfg.md5(url))
    ensures c.s.db == if Outbox.Takes(fault) && Unused(old(c.s.db.links), id, code, c.cfg.md5(url))
                      then Db(old(c.s.db.links)[code := Link(id, url, c.cfg.md5(url))],
                              old(c.s.db.outbox)[old(c.s.db.nextId) :=
                                  Outbox.NewRow(Message(code, url, c.cfg.md5(url)), c.s.now)],
                              old(c.s.db.nextId) + 1)
                      else old(c.s.db)
  {
    hide Invariant, Onwards, ClearsStay;
    var committed := Outbox.Takes(fault) && Unused(c.s.db.links, id, code, c.cfg.md5(url));
    ok := committed && fault.NoFault?;
    c.Fire(Label.Create(o, CInsert(id, code, committed, ok)));
  }

  method FillOwnL1(c: Cluster, o: nat, p: nat, url: string, code: string)
    requires Creating(c, o, CreateSetL1(p, url, code))
    modifies c
    ensures Creating(c, o, CreateSetHashL1(p, url, code)) && InL1(c.s, p, code, url)
  {
    hide Invariant, Onwards, ClearsStay;
    c.Fire(Label.Create(o, CSetL1));
  }

  method FillOwnHashL1(c: Cluster, o: nat, p: nat, url: string, code: string)
    requires Creating(c, o, CreateSetHashL1(p, url, code))
    modifies c
    ensures Creating(c, o, CreateWriteThrough(p, url, code)) && InHashL1(c.s, p, c.cfg.md5(url), code)
  {
    hide Invariant, Onwards, ClearsStay;
    c.Fire(Label.Create(o, CSetHashL1));
  }

  /** One execution of the pipeline. */
  method Exec(c: Cluster, o: nat, p: nat, url: string, code: string, ttl: Time, attempt: Attempt) returns (ok: bool)
    requires Creating(c, o, CreateWriteThrough(p, url, code))
    modifies c
    ensures Creating(c, o, CreateWriteThrough(p, url, code))
    ensures ok <==> Clean(c.cfg.filter, attempt)
  {
    hide Invariant, Onwards, ClearsStay, CmdFits, Write;
    var cmds := Commands(c.cfg.filter, code, ttl);
    for i := 0 to |cmds|
      invariant Creating(c, o, CreateWriteThrough(p, url, code))
      invariant i <= attempt.commands
    {
      if i == attempt.commands {
        return false;
      }
      CommandsFit(c.cfg, code, ttl, i);
      FireWrite(c, o, p, url, code, cmds[i]);
      c.Yield(CreateActor(o));
    }
    ok := attempt.reported;
  }

  method FireWrite(c: Cluster, o: nat, p: nat, url: string, code: string, cmd: RedisCmd)
    requires Creating(c, o, CreateWriteThrough(p, url, code)) && CmdFits(c.cfg, code, cmd)
    modifies c
    ensures Creating(c, o, CreateWriteThrough(p, url, code))
    ensures Stored(c.s, Message(code, url, c.cfg.md5(url)), cmd)
  {
    hide Invariant, Onwards, ClearsStay, CmdFits;
    c.Fire(Label.Create(o, CWrite(cmd)));
  }

  /** Best effort, up to three attempts. */
  method WriteThrough(c: Cluster, o: nat, p: nat, url: string, code: string, ttl: Time, writes: nat -> Attempt)
    requires Creating(c, o, CreateWriteThrough(p, url, code))
    modifies c
    ensures Creating(c, o, CreateDone(url, code))
  {
    hide Invariant, Onwards, ClearsStay;
    var ok := false;
    for i := 0 to 3
      invariant Creating(c, o, CreateWriteThrough(p, url, code))
    {
      if !ok {
        ok := Exec(c, o, p, url, code, ttl, writes(i));
      }
    }
    c.Fire(Label.Create(o, CReturn));
  }

  /** The code that Create returns is committed under the hash of the URL.  It fails only on an empty URL, without an
      id, when the master fails, or when a key of the new row is taken.  `fresh_` is what the id generator yields: an
      id and its code, or an error. */
  method Create(c: Cluster, o: nat, p: nat, url: string, fresh_: Option<(nat, string)>, ttl: Time, calls: CreateCalls)
      returns (r: Result<string>)
    requires c.Valid() && o !in c.s.ops.creates
    requires fresh_.Some? ==> fresh_.value.0 > 0 && fresh_.value.1 != ""
    modifies c
    ensures c.Valid()
    ensures r.Ok? ==> Creating(c, o, CreateDone(url, r.value)) && IsHash(c.s.db.links, r.value, c.cfg.md5(url))
    ensures url == "" ==> r.Err?
    ensures r.Err? && url != "" ==> InsertFails(c, url, fresh_, calls)
  {
    hide Invariant, Onwards, ClearsStay;
    var t := CreateActor(o);
    if url == "" {
      return Err;
    }
    c.Fire(Label.Create(o, CBegin(p, url)));
    c.Yield(t);
    var v := HashL1Get(c, o, p, url);
    if v.None? || v.value == "" {
      c.Yield(t);
      v := RedisGetURLHash(c, o, p, url, calls.redisGet);
      c.Yield(t);
      if v.Some? && v.value != "" {
        HashL1Fill(c, o, p, url, v.value);
      } else {
        v := FindOrInsert(c, o, p, url, fresh_, ttl, calls);
        if v.None? {
          return Err;
        }
      }
    }
    CodeIsCommitted(c, o, url, v.value);
    r := Ok(v.value);
  }

  /** Why no code could be had: the query failed, there was no id, the insert failed, or one of its keys is taken. */
  ghost predicate InsertFails(c: Cluster, url: string, fresh_: Option<(nat, string)>, calls: CreateCalls)
    reads c
  {
    || !calls.find || fresh_.None? || !calls.insert.NoFault?
    || !Unused(c.s.db.links, fresh_.value.0, fresh_.value.1, c.cfg.md5(url))
  }

  method FindOrInsert(c: Cluster, o: nat, p: nat, url: string, fresh_: Option<(nat, string)>, ttl: Time,
                      calls: CreateCalls) returns (r: Option<string>)
    requires Creating(c, o, CreateFind(p, url))
    requires fresh_.Some? ==> fresh_.value.0 > 0 && fresh_.value.1 != ""
    modifies c
    ensures c.Valid()
    ensures r.Some? ==> Creating(c, o, CreateDone(url, r.value))
    ensures !calls.find ==> r.None?
    ensures calls.find && (exists d :: IsHash(old(c.s.db.links), d, c.cfg.md5(url))) ==>
              r.Some? && IsHash(old(c.s.db.links), r.value, c.cfg.md5(url))
    ensures r.None? ==> InsertFails(c, url, fresh_, calls)
  {
    hide Invariant, Onwards, ClearsStay, Unused;
    var t := CreateActor(o);
    var existing := FindByLongURLHashFromMaster(c, o, p, url, calls.find);
    if existing.DbError? {
      return None;
    }
    c.Yield(t);
    if existing.Row? {
      RedisSetURLHash(c, o, p, url, existing.value, ttl, calls.fill);
      c.Yield(t);
      HashL1Fill(c, o, p, url, existing.value);
      return Some(existing.value);
    }
    if fresh_.None? {
      return None;
    }
    r := InsertAndWrite(c, o, p, url, fresh_.value, ttl, calls);
  }

  method InsertAndWrite(c: Cluster, o: nat, p: nat, url: string, row: (nat, string), ttl: Time, calls: CreateCalls)
      returns (r: Option<string>)
    requires Creating(c, o, CreateInsert(p, url)) && row.0 > 0 && row.1 != ""
    modifies c
    ensures r.Some? ==> r.value == row.1 && Creating(c, o, CreateDone(url, r.value))
    ensures r.None? ==> Creating(c, o, CreateFailed(url)) && InsertFails(c, url, Some(row), calls)
    ensures r.Some? <==> calls.insert.NoFault? && Unused(old(c.s.db.links), row.0, row.1, c.cfg.md5(url))
  {
    hide Invariant, Onwards, ClearsStay, Unused;
    var t := CreateActor(o);
    var (id, code) := row;
    var ok := InsertLinkAndOutbox(c, o, p, url, id, code, calls.insert);
    if !ok {
      return None;
    }
    c.Yield(t);
    FillOwnL1(c, o, p, url, code);
    c.Yield(t);
    FillOwnHashL1(c, o, p, url, code);
    c.Yield(t);
    WriteThrough(c, o, p, url, code, ttl, calls.writes);
    r := Some(code);
  }

  lemma CodeIsCommitted(c: Cluster, o: nat, url: string, code: string)
    requires Creating(c, o, CreateDone(url, code))
    ensures IsHash(c.s.db.links, code, c.cfg.md5(url))
  {
    assert CreateOk(c.cfg, c.s.db.links, c.s.ops.creates[o]);
  }
}
