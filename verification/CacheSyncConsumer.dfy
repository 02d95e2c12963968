/** internal/worker/consumer.go and the acknowledgement rules of Consume in pkg/mq/rabbitmq.go. */
module CacheSyncConsumer {
  import opened Common
  import opened SystemModel
  import opened Cluster
  import Bloom
  import Delivery
  import ShortLinkService
  import opened SystemTheorems
  import opened Answers

  ghost predicate Handling(c: Cluster, o: nat, p: nat, msg: Message)
    reads c
  {
    c.Valid() && o in c.s.ops.deliveries && c.s.ops.deliveries[o].p == p && c.s.ops.deliveries[o].msg == msg
  }

  ghost predicate AtStage(c: Cluster, o: nat, p: nat, msg: Message, stage: Stage)
    reads c
  {
    Handling(c, o, p, msg) && c.s.ops.deliveries[o].stage == stage
  }

  ghost predicate InPipeline(c: Cluster, o: nat, p: nat, msg: Message)
    reads c
  {
    Handling(c, o, p, msg) && c.s.ops.deliveries[o].stage.Applying?
  }

  /** The first `n` commands of the pipeline have been executed for this delivery. */
  ghost predicate Executed(f: Bloom.Filter, code: string, stage: Stage, n: nat) {
    && stage.Applying?
    && (n > 0 ==> stage.link) && (n > 1 ==> stage.hash)
    && forall i :: 0 <= i < |f.seeds| && i + 2 < n ==> Bloom.Offset(f, code, f.seeds[i]) in stage.bits
  }

  lemma AllExecuted(f: Bloom.Filter, code: string, stage: Stage)
    requires Executed(f, code, stage, 2 + |f.seeds|)
    ensures stage.link && stage.hash && Bloom.Bits(f, code) <= stage.bits
  {
    forall b | b in Bloom.Bits(f, code) ensures b in stage.bits {
      var seed :| seed in f.seeds && Bloom.Offset(f, code, seed) == b;
      var k :| 0 <= k < |f.seeds| && f.seeds[k] == seed;
    }
  }

  lemma NothingExecuted(f: Bloom.Filter, code: string, stage: Stage)
    requires stage.Applying?
    ensures Executed(f, code, stage, 0)
  {}

  lemma OneMoreExecuted(f: Bloom.Filter, code: string, before: Stage, after: Stage, ttl: Time, i: nat)
    requires i < 2 + |f.seeds| && Executed(f, code, before, i)
              && Follows(before, after, ShortLinkService.Commands(f, code, ttl)[i])
    ensures Executed(f, code, after, i + 1)
  {}

  /** What one command adds. */
  ghost predicate Follows(before: Stage, after: Stage, cmd: RedisCmd) {
    && before.Applying? && after.Applying?
    && after.link == (before.link || cmd.SetLink?) && after.hash == (before.hash || cmd.SetHash?)
    && after.bits == if cmd.SetBit? then before.bits + {cmd.bit} else before.bits
  }

  method FireWrite(c: Cluster, o: nat, p: nat, msg: Message, cmd: RedisCmd)
    requires InPipeline(c, o, p, msg) && CmdFits(c.cfg, msg.code, cmd)
    modifies c
    ensures InPipeline(c, o, p, msg)
    ensures Follows(old(c.s.ops.deliveries[o].stage), c.s.ops.deliveries[o].stage, cmd) && Stored(c.s, msg, cmd)
  {
    hide Invariant, Onwards, ClearsStay, CmdFits;
    c.Fire(Label.Consume(o, KWrite(cmd)));
  }

  /** One execution of the pipeline; it may break anywhere, and report an error even at the end. */
  method Exec(c: Cluster, o: nat, p: nat, msg: Message, ttl: Time, attempt: ShortLinkService.Attempt)
      returns (ok: bool)
    requires InPipeline(c, o, p, msg)
    modifies c
    ensures InPipeline(c, o, p, msg)
    ensures ok ==> Executed(c.cfg.filter, msg.code, c.s.ops.deliveries[o].stage, 2 + |c.cfg.filter.seeds|)
    ensures ok <==> ShortLinkService.Clean(c.cfg.filter, attempt)
  {
    hide Invariant, Onwards, ClearsStay, CmdFits, Executed, Follows;
    NothingExecuted(c.cfg.filter, msg.code, c.s.ops.deliveries[o].stage);
    var cmds := ShortLinkService.Commands(c.cfg.filter, msg.code, ttl);
    for i := 0 to |cmds|
      invariant InPipeline(c, o, p, msg) && Executed(c.cfg.filter, msg.code, c.s.ops.deliveries[o].stage, i)
      invariant i <= attempt.commands
    {
      if i == attempt.commands {
        return false;
      }
      ShortLinkService.CommandsFit(c.cfg, msg.code, ttl, i);
      ghost var before := c.s.ops.deliveries[o].stage;
      FireWrite(c, o, p, msg, cmds[i]);
      OneMoreExecuted(c.cfg.filter, msg.code, before, c.s.ops.deliveries[o].stage, ttl, i);
      c.Yield(DeliveryActor(o));
    }
    ok := attempt.reported;
  }

  /** Up to three attempts at the pipeline, then both local caches.  It succeeds exactly if one of them does, and then
      every write of the message has happened. */
  method HandleMessage(c: Cluster, o: nat, p: nat, msg: Message, ttl: Time, attempts: nat -> ShortLinkService.Attempt)
      returns (ok: bool)
    requires InPipeline(c, o, p, msg)
    modifies c
    ensures if ok then AtStage(c, o, p, msg, AtAck) else InPipeline(c, o, p, msg)
    ensures ok ==> msg in c.s.aux.applied && Contains(c.cfg, c.s.redis.bloom, msg.code)
    ensures ok <==> exists i :: 0 <= i < 3 && ShortLinkService.Clean(c.cfg.filter, attempts(i))
  {
    hide Invariant, Onwards, ClearsStay, Executed, Contains;
    ok := false;
    for i := 0 to 3
      invariant InPipeline(c, o, p, msg)
      invariant ok ==> Executed(c.cfg.filter, msg.code, c.s.ops.deliveries[o].stage, 2 + |c.cfg.filter.seeds|)
      invariant ok <==> exists k :: 0 <= k < i && ShortLinkService.Clean(c.cfg.filter, attempts(k))
    {
      if !ok {
        ok := Exec(c, o, p, msg, ttl, attempts(i));
      }
    }
    if !ok {
      return;
    }
    Written(c, o, p, msg);
    c.Yield(DeliveryActor(o));
    SetL1(c, o, p, msg);
    c.Yield(DeliveryActor(o));
    SetHashL1(c, o, p, msg);
    Applied(c, o, p, msg);
  }

  method Written(c: Cluster, o: nat, p: nat, msg: Message)
    requires InPipeline(c, o, p, msg)
    requires Executed(c.cfg.filter, msg.code, c.s.ops.deliveries[o].stage, 2 + |c.cfg.filter.seeds|)
    modifies c
    ensures AtStage(c, o, p, msg, AtL1)
  {
    hide Invariant, Onwards, ClearsStay, Executed, Bloom.Bits;
    AllExecuted(c.cfg.filter, msg.code, c.s.ops.deliveries[o].stage);
    c.Fire(Label.Consume(o, KWritten));
  }

  method SetL1(c: Cluster, o: nat, p: nat, msg: Message)
    requires AtStage(c, o, p, msg, AtL1)
    modifies c
    ensures AtStage(c, o, p, msg, AtHashL1) && InL1(c.s, p, msg.code, msg.url)
  {
    hide Invariant, Onwards, ClearsStay;
    c.Fire(Label.Consume(o, KSetL1));
  }

  method SetHashL1(c: Cluster, o: nat, p: nat, msg: Message)
    requires AtStage(c, o, p, msg, AtHashL1)
    modifies c
    ensures AtStage(c, o, p, msg, AtAck) && InHashL1(c.s, p, msg.hash, msg.code)
  {
    hide Invariant, Onwards, ClearsStay;
    c.Fire(Label.Consume(o, KSetHashL1));
  }

  lemma Applied(c: Cluster, o: nat, p: nat, msg: Message)
    requires AtStage(c, o, p, msg, AtAck)
    ensures msg in c.s.aux.applied && Contains(c.cfg, c.s.redis.bloom, msg.code)
  {
    assert Delivery.DeliveryOk(c.s, c.s.ops.deliveries[o]);
  }

  method Deliver(c: Cluster, o: nat, p: nat, msg: Message)
    requires c.Valid() && o !in c.s.ops.deliveries && msg in c.s.queue
    modifies c
    ensures InPipeline(c, o, p, msg)
  {
    hide Invariant, Onwards, ClearsStay;
    c.Fire(Label.Consume(o, KDeliver(p, msg)));
  }

  /** Nack with requeue. */
  method Nack(c: Cluster, o: nat, p: nat, msg: Message)
    requires InPipeline(c, o, p, msg)
    modifies c
    ensures c.Valid() && o !in c.s.ops.deliveries && msg in c.s.queue
  {
    hide Invariant, Onwards, ClearsStay;
    c.Fire(Label.Consume(o, KNack));
  }

  /** An acknowledgement can get lost; the broker then delivers again. */
  method Ack(c: Cluster, o: nat, p: nat, msg: Message, lost: bool)
    requires AtStage(c, o, p, msg, AtAck)
    modifies c
    ensures c.Valid() && o !in c.s.ops.deliveries && c.s.aux.applied == old(c.s.aux.applied)
    ensures c.s.queue == if lost then old(c.s.queue) + multiset{msg} else old(c.s.queue)
  {
    hide Invariant, Onwards, ClearsStay;
    c.Fire(Label.Consume(o, KAck(lost)));
  }

  /** One turn of the consume loop.  The message leaves the broker only after it has been applied. */
  method ConsumeOne(c: Cluster, o: nat, p: nat, msg: Message, ttl: Time, attempts: nat -> ShortLinkService.Attempt,
                    lost: bool) returns (ok: bool)
    requires c.Valid() && o !in c.s.ops.deliveries && msg in c.s.queue
    modifies c
    ensures c.Valid() && o !in c.s.ops.deliveries
    ensures if ok then msg in c.s.aux.applied else msg in c.s.queue
    ensures ok <==> exists i :: 0 <= i < 3 && ShortLinkService.Clean(c.cfg.filter, attempts(i))
  {
    hide Invariant, Onwards, ClearsStay, Contains;
    Deliver(c, o, p, msg);
    c.Yield(DeliveryActor(o));
    ok := HandleMessage(c, o, p, msg, ttl, attempts);
    if ok {
      Ack(c, o, p, msg, lost);
    } else {
      Nack(c, o, p, msg);
    }
  }
}
