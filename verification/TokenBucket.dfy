/** The token-bucket script of internal/middleware/ratelimit.go, over whole request histories. */
module TokenBucket {
  import opened Common

  /** `capacity` and `fill_rate` of the script; the script divides by the rate. */
  datatype Limits = Limits(capacity: nat, rate: nat) {
    predicate Valid() { 0 < rate }
  }

  /** The stored string "tokens|timestamp". */
  datatype Stored = Stored(tokens: nat, at: int)

  /** One call: the caller's clock, the tokens it asks for, whether Redis had dropped the key by then,
      and the clock of Redis. */
  datatype Request = Request(now: int, requested: nat, lost: bool, redisNow: int)

  function Max(a: int, b: int): int { if a < b then b else a }

  function Min(a: int, b: int): int { if a < b then a else b }

  /** Seconds for an empty bucket to fill. */
  function FillTime(l: Limits): (t: nat)
    requires l.Valid()
    ensures l.capacity <= t * l.rate && (t == 0 || (t - 1) * l.rate < l.capacity)
  {
    (l.capacity + l.rate - 1) / l.rate
  }

  function Ttl(l: Limits): nat
    requires l.Valid()
  {
    FillTime(l) + 10
  }

  /** The key lives ten seconds longer than an empty bucket needs to fill up, to the second. */
  lemma TtlIsTight(l: Limits)
    requires l.Valid()
    ensures Ttl(l) >= 10 && (Ttl(l) - 10) * l.rate >= l.capacity
    ensures forall n: nat :: n * l.rate >= l.capacity ==> n + 10 >= Ttl(l)
  {
    forall n: nat | n * l.rate >= l.capacity ensures n + 10 >= Ttl(l) {
      if n < FillTime(l) {
        Times(n, FillTime(l) - 1, l.rate);
      }
    }
  }

  lemma Times(m: nat, n: nat, rate: nat)
    requires m <= n
    ensures m * rate <= n * rate
  {}

  /** The tokens that a request at `now` finds. */
  function Available(l: Limits, st: Option<Stored>, now: int): nat {
    if st.None? then l.capacity
    else Min(l.capacity, st.value.tokens + Max(0, now - st.value.at) * l.rate)
  }

  function Seen(st: Option<Stored>, r: Request): Option<Stored> {
    if r.lost then None else st
  }

  predicate Allows(l: Limits, st: Option<Stored>, r: Request) {
    Available(l, Seen(st, r), r.now) >= r.requested
  }

  function After(l: Limits, st: Option<Stored>, r: Request): Stored {
    var found := Available(l, Seen(st, r), r.now);
    Stored(if Allows(l, st, r) then found - r.requested else found, r.now)
  }

  // ---- histories ----

  function StateAfter(l: Limits, st: Option<Stored>, h: seq<Request>): Option<Stored> {
    if h == [] then st else Some(After(l, StateAfter(l, st, h[..|h| - 1]), h[|h| - 1]))
  }

  function Decisions(l: Limits, st: Option<Stored>, h: seq<Request>): (d: seq<bool>)
    ensures |d| == |h|
  {
    if h == [] then []
    else Decisions(l, st, h[..|h| - 1]) + [Allows(l, StateAfter(l, st, h[..|h| - 1]), h[|h| - 1])]
  }

  /** The tokens handed out. */
  function Granted(l: Limits, st: Option<Stored>, h: seq<Request>): nat {
    if h == [] then 0
    else Granted(l, st, h[..|h| - 1]) +
         (if Allows(l, StateAfter(l, st, h[..|h| - 1]), h[|h| - 1]) then h[|h| - 1].requested else 0)
  }

  /** How far the clock went forward from the first request to the last. */
  function Forward(h: seq<Request>): nat {
    if |h| <= 1 then 0 else Forward(h[..|h| - 1]) + Max(0, h[|h| - 1].now - h[|h| - 2].now)
  }

  ghost predicate Full(l: Limits, st: Option<Stored>) {
    st.Some? ==> st.value.tokens <= l.capacity
  }

  /** The key is lost only when the bucket would have filled up since the previous request. */
  ghost predicate LostLate(l: Limits, h: seq<Request>)
    requires l.Valid()
  {
    forall k :: 0 < k < |h| && h[k].lost ==> h[k].now - h[k - 1].now >= FillTime(l)
  }

  lemma {:induction false} TokensStayInRange(l: Limits, st: Option<Stored>, h: seq<Request>)
    requires Full(l, st)
    ensures Full(l, StateAfter(l, st, h))
  {
    if h != [] {
      TokensStayInRange(l, st, h[..|h| - 1]);
    }
  }

  lemma MulMonotone(a: nat, b: nat, c: nat)
    requires a <= b
    ensures a * c <= b * c
  {}

  /** One request finds at most what was left plus what the clock's step forward generates. */
  lemma AvailableBound(l: Limits, prev: Stored, r: Request)
    requires l.Valid() && (r.lost ==> r.now - prev.at >= FillTime(l))
    ensures Available(l, Seen(Some(prev), r), r.now) <= prev.tokens + Max(0, r.now - prev.at) * l.rate
  {
    if r.lost {
      MulMonotone(FillTime(l), r.now - prev.at, l.rate);
    }
  }

  lemma LostLatePrefix(l: Limits, h: seq<Request>)
    requires l.Valid() && h != [] && LostLate(l, h)
    ensures LostLate(l, h[..|h| - 1])
  {
    var prefix := h[..|h| - 1];
    forall k | 0 < k < |prefix| && prefix[k].lost ensures prefix[k].now - prefix[k - 1].now >= FillTime(l) {
      assert h[k].lost;
    }
  }

  /** In any window of any history the bucket hands out at most a full bucket plus what the clock's forward
      movement generates. */
  lemma {:induction false} WindowBound(l: Limits, st: Option<Stored>, h: seq<Request>)
    requires l.Valid() && Full(l, st) && h != [] && LostLate(l, h)
    ensures Granted(l, st, h) + StateAfter(l, st, h).value.tokens <= l.capacity + Forward(h) * l.rate
  {
    var prefix, r := h[..|h| - 1], h[|h| - 1];
    var st1 := StateAfter(l, st, prefix);
    var found := Available(l, Seen(st1, r), r.now);
    assert Granted(l, st, h) + StateAfter(l, st, h).value.tokens == Granted(l, st, prefix) + found;
    if prefix != [] {
      LostLatePrefix(l, h);
      WindowBound(l, st, prefix);
      assert prefix[|prefix| - 1] == h[|h| - 2] && st1.value.at == h[|h| - 2].now;
      var step := Max(0, r.now - st1.value.at);
      assert Forward(h) == Forward(prefix) + step;
      hide LostLate, Granted, StateAfter, Forward;
      AvailableBound(l, st1.value, r);
      Distribute(Forward(prefix), step, l.rate);
      hide *;
    }
  }

  lemma Distribute(a: int, b: int, c: int)
    ensures (a + b) * c == a * c + b * c
  {}

  /** With a clock that does not go back, the window's length is all that counts. */
  lemma {:induction false} ForwardIsElapsed(h: seq<Request>)
    requires h != [] && forall k :: 0 < k < |h| ==> h[k - 1].now <= h[k].now
    ensures Forward(h) == h[|h| - 1].now - h[0].now
  {
    if |h| > 1 {
      var prefix := h[..|h| - 1];
      assert prefix[|prefix| - 1] == h[|h| - 2];
      ForwardIsElapsed(prefix);
    }
  }

  // ---- exactly the window bounds ----

  /** How much a request at `now` may take without breaking the bound of the window that starts with request `i`;
      the window of the request alone is the one with `i == |h|`. */
  function Room(l: Limits, h: seq<Request>, i: nat, now: int): int
    requires i <= |h|
  {
    if i == |h| then l.capacity
    else l.capacity + (now - h[i].now) * l.rate - (Granted(l, None, h) - Granted(l, None, h[..i]))
  }

  ghost predicate Steady(h: seq<Request>, now: int) {
    && (forall k :: 0 <= k < |h| ==> !h[k].lost && h[k].now <= now)
    && (forall j, k :: 0 <= j < k < |h| ==> h[j].now <= h[k].now)
  }

  /** One more request moves the room of every window alike. */
  lemma RoomStep(l: Limits, h: seq<Request>, i: nat, now: int)
    requires h != [] && i < |h|
    ensures var prefix, r := h[..|h| - 1], h[|h| - 1];
            Room(l, h, i, now) ==
              Room(l, prefix, i, r.now) + (now - r.now) * l.rate - (Granted(l, None, h) - Granted(l, None, prefix))
  {
    var prefix, r := h[..|h| - 1], h[|h| - 1];
    if i < |prefix| {
      assert prefix[..i] == h[..i];
      Distribute(now - r.now, r.now - h[i].now, l.rate);
    }
  }

  /** The tokens that a request finds are the room of its tightest window. */
  lemma {:induction false} AvailableIsTheRoom(l: Limits, h: seq<Request>, now: int) returns (i: nat)
    requires l.Valid() && Steady(h, now)
    ensures i <= |h| && Available(l, StateAfter(l, None, h), now) == Room(l, h, i, now)
    ensures forall j :: 0 <= j <= |h| ==> Available(l, StateAfter(l, None, h), now) <= Room(l, h, j, now)
  {
    if h == [] {
      i := 0;
    } else {
      var prefix, r := h[..|h| - 1], h[|h| - 1];
      var k := AvailableIsTheRoom(l, prefix, r.now);
      var left := Available(l, StateAfter(l, None, prefix), r.now);
      AvailableAfter(l, h, now);
      forall j | 0 <= j <= |h|
        ensures Available(l, StateAfter(l, None, h), now) <= Room(l, h, j, now)
      {
        if j < |h| {
          RoomStep(l, h, j, now);
        }
      }
      RoomStep(l, h, k, now);
      i := if Room(l, h, k, now) <= l.capacity then k else |h|;
    }
  }

  lemma AvailableAfter(l: Limits, h: seq<Request>, now: int)
    requires h != [] && Steady(h, now)
    ensures var prefix, r := h[..|h| - 1], h[|h| - 1];
            Available(l, StateAfter(l, None, h), now) ==
              Min(l.capacity, Available(l, StateAfter(l, None, prefix),
                  r.now) - (Granted(l, None, h) - Granted(l, None, prefix))
                              + (now - r.now) * l.rate)
  {}

  /** With a clock that does not go back, a request is denied exactly if granting it would let some window that ends
      in it hand out more than a full bucket plus what the window's length generates. */
  lemma DeniedIffSomeWindowIsFull(l: Limits, h: seq<Request>, r: Request)
    requires l.Valid() && Steady(h, r.now) && !r.lost
    ensures !Allows(l, StateAfter(l, None, h), r) <==> exists i :: 0 <= i <= |h| && Room(l, h, i, r.now) < r.requested
  {
    var i := AvailableIsTheRoom(l, h, r.now);
    assert Seen(StateAfter(l, None, h), r) == StateAfter(l, None, h);
    hide Room, Available, StateAfter;
  }

  // ---- expiry ----

  /** Losing the key before a request at `now` shows in no decision, then or ever after, exactly when the
      bucket would have been full at `now`. */
  lemma LossIsInvisibleIffFull(l: Limits, s: Stored, now: int, redisNow: int)
    ensures (forall n: nat, h: seq<Request> ::
               Decisions(l, Some(s), [Request(now, n, true, redisNow)] + h) == Decisions(l, Some(s),
                   [Request(now, n, false, redisNow)] + h))
            <==> Available(l, Some(s), now) == l.capacity
  {
    if Available(l, Some(s), now) == l.capacity {
      forall n: nat, h: seq<Request>
        ensures Decisions(l, Some(s), [Request(now, n, true, redisNow)] + h) == Decisions(l, Some(s),
                  [Request(now, n, false, redisNow)] + h)
      {
        SameFirst(l, Some(s), Request(now, n, true, redisNow), Request(now, n, false, redisNow), h);
      }
    } else {
      var a, b := Request(now, l.capacity, true, redisNow), Request(now, l.capacity, false, redisNow);
      OneDecision(l, Some(s), a);
      OneDecision(l, Some(s), b);
      assert [a] + [] == [a] && [b] + [] == [b];
      assert Decisions(l, Some(s), [a] + [])[0] != Decisions(l, Some(s), [b] + [])[0];
    }
  }

  lemma OneDecision(l: Limits, st: Option<Stored>, r: Request)
    ensures Decisions(l, st, [r]) == [Allows(l, st, r)]
  {
    assert [r][..0] == [];
  }

  lemma {:induction false} SameFirst(l: Limits, st: Option<Stored>, a: Request, b: Request, h: seq<Request>)
    requires Allows(l, st, a) == Allows(l, st, b) && After(l, st, a) == After(l, st, b)
    ensures StateAfter(l, st, [a] + h) == StateAfter(l, st, [b] + h)
    ensures Decisions(l, st, [a] + h) == Decisions(l, st, [b] + h)
  {
    if h == [] {
      OneDecision(l, st, a);
      OneDecision(l, st, b);
      assert [a] + h == [a] && [b] + h == [b] && [a][..0] == [] && [b][..0] == [];
    } else {
      var init := h[..|h| - 1];
      assert ([a] + h)[..|h|] == [a] + init && ([b] + h)[..|h|] == [b] + init;
      SameFirst(l, st, a, b, init);
    }
  }

  /** The same history in a Redis that never drops the key. */
  function Kept(h: seq<Request>): (k: seq<Request>)
    ensures |k| == |h|
  {
    seq(|h|, i requires 0 <= i < |h| => h[i].(lost := false))
  }

  lemma {:induction false} LateLossesAreInvisible(l: Limits, h: seq<Request>)
    requires l.Valid() && LostLate(l, h)
    ensures StateAfter(l, None, h) == StateAfter(l, None, Kept(h))
              && Decisions(l, None, h) == Decisions(l, None, Kept(h))
  {
    if h != [] {
      var prefix, r := h[..|h| - 1], h[|h| - 1];
      assert Kept(h)[..|h| - 1] == Kept(prefix);
      assert LostLate(l, prefix) by {
        forall k | 0 < k < |prefix| && prefix[k].lost ensures prefix[k].now - prefix[k - 1].now >= FillTime(l) {
          assert h[k].lost;
        }
      }
      LateLossesAreInvisible(l, prefix);
      if r.lost && prefix != [] {
        assert prefix[|prefix| - 1] == h[|h| - 2];
        var elapsed := r.now - h[|h| - 2].now;
        assert elapsed >= FillTime(l);
        MulMonotone(FillTime(l), elapsed, l.rate);
      }
    }
  }

  /** Redis drops the key no earlier than `ttl` of its own seconds after the last write, and its clock does not
      run ahead of the callers' by more than ten seconds between two requests. */
  ghost predicate ExpiresOnTime(l: Limits, h: seq<Request>)
    requires l.Valid()
  {
    forall k :: 0 < k < |h| ==>
      && (h[k].lost ==> h[k].redisNow - h[k - 1].redisNow >= Ttl(l))
      && (h[k].redisNow - h[k - 1].redisNow) - (h[k].now - h[k - 1].now) <= 10
  }

  /** The expiry of the key is never seen in a decision. */
  lemma TtlIsUnobservable(l: Limits, h: seq<Request>)
    requires l.Valid() && ExpiresOnTime(l, h)
    ensures Decisions(l, None, h) == Decisions(l, None, Kept(h))
  {
    forall k | 0 < k < |h| && h[k].lost ensures h[k].now - h[k - 1].now >= FillTime(l) {}
    LateLossesAreInvisible(l, h);
  }

  // ---- denied requests ----

  /** A denied request leaves later requests what they would have had without it, exactly if its clock is not
      behind the stored one, or the bucket was full. */
  lemma DeniedIsFreeIff(l: Limits, s: Stored, r: Request)
    requires l.Valid() && Full(l, Some(s)) && !r.lost && !Allows(l, Some(s), r)
    ensures (forall t :: t >= r.now && t >= s.at ==>
              Available(l, Some(After(l, Some(s), r)), t) == Available(l, Some(s), t))
            <==> r.now >= s.at || s.tokens == l.capacity
  {
    var s' := After(l, Some(s), r);
    if r.now >= s.at || s.tokens == l.capacity {
      forall t | t >= r.now && t >= s.at ensures Available(l, Some(s'), t) == Available(l, Some(s), t) {
        RefillsCompose(l, s, r.now, t);
      }
    } else {
      assert Available(l, Some(s'), s.at) != Available(l, Some(s), s.at) by {
        assert s' == Stored(s.tokens, r.now);
        MulMonotone(1, s.at - r.now, l.rate);
      }
    }
  }

  /** Filling up to `mid` and then to `t` is filling up to `t`. */
  lemma RefillsCompose(l: Limits, s: Stored, mid: int, t: int)
    requires Full(l, Some(s)) && t >= mid && t >= s.at && (mid >= s.at || s.tokens == l.capacity)
    ensures Available(l, Some(Stored(Available(l, Some(s), mid), mid)), t) == Available(l, Some(s), t)
  {
    if mid >= s.at {
      assert (mid - s.at) * l.rate + (t - mid) * l.rate == (t - s.at) * l.rate;
    }
  }

  function Keep(h: seq<Request>, keep: seq<bool>): seq<Request>
    requires |keep| == |h|
  {
    if h == [] then []
    else Keep(h[..|h| - 1], keep[..|h| - 1]) + (if keep[|h| - 1] then [h[|h| - 1]] else [])
  }

  function KeepDecisions(d: seq<bool>, keep: seq<bool>): seq<bool>
    requires |keep| == |d|
  {
    if d == [] then []
    else KeepDecisions(d[..|d| - 1], keep[..|d| - 1]) + (if keep[|d| - 1] then [d[|d| - 1]] else [])
  }

  /** The two states will look the same to every request from `t` on. */
  ghost predicate SameFrom(l: Limits, a: Option<Stored>, b: Option<Stored>, t: int) {
    && (a.Some? ==> a.value.at <= t && a.value.tokens <= l.capacity)
    && (b.Some? ==> b.value.at <= t && b.value.tokens <= l.capacity)
    && forall u :: u >= t ==> Available(l, a, u) == Available(l, b, u)
  }

  lemma StillSame(l: Limits, a: Option<Stored>, b: Option<Stored>, t: int, r: Request)
    requires SameFrom(l, a, b, t) && r.now >= t && !r.lost
    ensures Allows(l, a, r) == Allows(l, b, r) && After(l, a, r) == After(l, b, r)
    ensures !Allows(l, a, r) ==> SameFrom(l, Some(After(l, a, r)), b, r.now)
    ensures SameFrom(l, Some(After(l, a, r)), Some(After(l, b, r)), r.now)
  {
    if !Allows(l, a, r) {
      forall u | u >= r.now ensures Available(l, Some(After(l, a, r)), u) == Available(l, b, u) {
        if a.Some? {
          RefillsCompose(l, a.value, r.now, u);
        }
        assert Available(l, a, u) == Available(l, b, u);
      }
    }
  }

  /** With a clock that does not go back, any of the denied requests can be taken out of a history:
      the other requests are decided as before, and the bucket ends up the same. */
  lemma {:induction false} DeniedRequestsAreFree(l: Limits, h: seq<Request>, keep: seq<bool>)
    requires l.Valid() && |keep| == |h|
    requires forall k :: 0 <= k < |h| ==> !h[k].lost && (0 < k ==> h[k - 1].now <= h[k].now)
    requires forall k :: 0 <= k < |h| && !keep[k] ==> !Decisions(l, None, h)[k]
    ensures Decisions(l, None, Keep(h, keep)) == KeepDecisions(Decisions(l, None, h), keep)
    ensures h != [] ==> SameFrom(l, StateAfter(l, None, h), StateAfter(l, None, Keep(h, keep)), h[|h| - 1].now)
  {
    if h != [] {
      var n := |h| - 1;
      var prefix, r, kp := h[..n], h[n], keep[..n];
      var d := Decisions(l, None, h);
      assert d[..n] == Decisions(l, None, prefix);
      forall k | 0 <= k < n && !kp[k] ensures !Decisions(l, None, prefix)[k] {
        assert !d[k];
      }
      DeniedRequestsAreFree(l, prefix, kp);
      var a, b := StateAfter(l, None, prefix), StateAfter(l, None, Keep(prefix, kp));
      assert SameFrom(l, a, b, r.now) by {
        if n > 0 {
          assert prefix[n - 1].now <= r.now;
        }
      }
      StillSame(l, a, b, r.now, r);
      KeepOne(l, h, keep);
    }
  }

  /** The last request, kept or dropped. */
  lemma KeepOne(l: Limits, h: seq<Request>, keep: seq<bool>)
    requires |keep| == |h| && h != []
    ensures var n := |h| - 1;
            var prefix, r, kept, d := h[..n], h[n], Keep(h[..n], keep[..n]), Decisions(l, None, h);
            && d == Decisions(l, None, prefix) + [Allows(l, StateAfter(l, None, prefix), r)]
            && StateAfter(l, None, h) == Some(After(l, StateAfter(l, None, prefix), r))
            && KeepDecisions(d, keep) == KeepDecisions(Decisions(l, None, prefix), keep[..n]) + (if keep[n] then [d[n]]
                else [])
            && (keep[n] ==>
                Decisions(l, None, Keep(h, keep)) == Decisions(l, None,
                kept) + [Allows(l, StateAfter(l, None, kept), r)])
            && (keep[n] ==> StateAfter(l, None, Keep(h, keep)) == Some(After(l, StateAfter(l, None, kept), r)))
            && (!keep[n] ==> Keep(h, keep) == kept)
  {
    var n := |h| - 1;
    OneMore(l, None, Keep(h[..n], keep[..n]), h[n]);
    OneMore(l, None, h[..n], h[n]);
    assert h[..n] + [h[n]] == h;
    assert Decisions(l, None, h)[..n] == Decisions(l, None, h[..n]);
  }

  lemma OneMore(l: Limits, st: Option<Stored>, h: seq<Request>, r: Request)
    ensures Decisions(l, st, h + [r]) == Decisions(l, st, h) + [Allows(l, StateAfter(l, st, h), r)]
    ensures StateAfter(l, st, h + [r]) == Some(After(l, StateAfter(l, st, h), r))
  {
    assert (h + [r])[..|h|] == h;
  }

  // ---- the script ----

  class Bucket {
    const l: Limits
    /** The Redis string, if the key exists. */
    var val: Option<Stored>

    constructor (l: Limits)
      requires l.Valid()
      ensures this.l == l && val == None
    {
      this.l := l;
      val := None;
    }

    /** Redis may drop the key before the script runs; the script itself is atomic. */
    method Run(r: Request) returns (allowed: nat, ttl: nat)
      requires l.Valid()
      modifies this`val
      ensures allowed == (if Allows(l, old(val), r) then 1 else 0)
      ensures val == Some(After(l, old(val), r)) && ttl == Ttl(l)
    {
      if r.lost {
        val := None;
      }
      ttl := (l.capacity + l.rate - 1) / l.rate + 10;
      var currentTokens := l.capacity;
      var lastTimestamp := r.now;
      if val.Some? {
        currentTokens := val.value.tokens;
        lastTimestamp := val.value.at;
      }
      var deltaTime := Max(0, r.now - lastTimestamp);
      var generated := deltaTime * l.rate;
      currentTokens := Min(l.capacity, currentTokens + generated);
      allowed := 0;
      if currentTokens >= r.requested {
        currentTokens := currentTokens - r.requested;
        allowed := 1;
      }
      val := Some(Stored(currentTokens, r.now));
    }
  }
}
