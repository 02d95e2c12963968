/** The id generator: pkg/snowflake/snowflake.go. */
module Snowflake {
  import opened Common

  const EPOCH: int := 1_767_225_600_000
  const NODES: nat := 1024
  const STEPS: nat := 4096
  const MAX_BACKWARD_MS: nat := 5
  const TIME_UNIT: nat := 4_194_304  // 2^22
  const TIME_RANGE: nat := 2_199_023_255_552  // 2^41

  /** Two's complement wrap-around of a 64-bit register. */
  function ToInt64(x: int): (r: int)
    ensures -(UINT64 as int / 2) <= x < UINT64 as int / 2 ==> r == x
  {
    (x + UINT64 / 2) % UINT64 - UINT64 / 2
  }

  /** The three fields side by side. */
  function Pack(ms: int, node: nat, step: nat): int {
    ToInt64((ms - EPOCH) * TIME_UNIT + node * STEPS + step)
  }

  /** On a 64-bit register the shifts and ors of the packing are that sum. */
  lemma ShiftsAreSums(offset: bv64, node: bv64, step: bv64)
    requires node < 1024 && step < 4096
    ensures (offset << 22) | (node << 12) | step == offset * 4_194_304 + node * 4096 + step
  {}

  /** And the mask of the step counter is the remainder. */
  lemma MaskIsRemainder(step: bv64)
    ensures (step + 1) & 4095 == (step + 1) % 4096
  {}

  predicate InRange(ms: int) {
    EPOCH <= ms < EPOCH + TIME_RANGE
  }

  function Unpack(id: int): (int, int, int) {
    (id / TIME_UNIT + EPOCH, id / STEPS % NODES, id % STEPS)
  }

  /** For the 41 bits of time the fields can be read back, so ids of different nodes never collide and ids are
      ordered by time, then node, then step. */
  lemma PackedFieldsAreRecoverable(ms: int, node: nat, step: nat)
    requires InRange(ms) && node < NODES && step < STEPS
    ensures 0 <= Pack(ms, node, step) < UINT64 / 2 && Unpack(Pack(ms, node, step)) == (ms, node, step)
  {
    var high := (ms - EPOCH) * NODES + node;
    assert (ms - EPOCH) * TIME_UNIT + node * STEPS + step == high * STEPS + step;
    assert (ms - EPOCH) * TIME_UNIT <= (TIME_RANGE - 1) * TIME_UNIT;
  }

  lemma PackIsOrdered(ms: int, node: nat, step: nat, ms': int, node': nat, step': nat)
    requires InRange(ms) && node < NODES && step < STEPS && InRange(ms') && node' < NODES && step' < STEPS
    ensures Pack(ms, node, step) < Pack(ms', node', step') <==>
              ms < ms' || (ms == ms' && (node < node' || (node == node' && step < step')))
    ensures Pack(ms, node, step) == Pack(ms', node', step') <==> ms == ms' && node == node' && step == step'
  {
    PackedFieldsAreRecoverable(ms, node, step);
    PackedFieldsAreRecoverable(ms', node', step');
    var low, low' := node * STEPS + step, node' * STEPS + step';
    assert Pack(ms, node, step) == (ms - EPOCH) * TIME_UNIT + low && low < TIME_UNIT;
    assert Pack(ms', node', step') == (ms' - EPOCH) * TIME_UNIT + low' && low' < TIME_UNIT;
  }

  // ---- one call, given the readings of the clock that it makes ----

  datatype State = State(timestamp: int, step: nat)

  /** `Spinning`: the call is still waiting for the clock when the readings end. */
  datatype Outcome = Issued(id: int) | RolledBack | Spinning

  function IndexPast(timestamp: int, clock: seq<int>, i: nat): (j: nat)
    requires i <= |clock|
    ensures i <= j <= |clock| && (forall k :: i <= k < j ==> clock[k] <= timestamp)
    ensures j < |clock| ==> timestamp < clock[j]
    decreases |clock| - i
  {
    if i == |clock| || timestamp < clock[i] then i else IndexPast(timestamp, clock, i + 1)
  }

  /** The reading that the call goes on with: the first one, or the one after the sleep. */
  function Settled(s: State, clock: seq<int>): Option<nat> {
    if |clock| == 0 then None
    else if clock[0] >= s.timestamp then Some(0)
    else if s.timestamp - clock[0] <= MAX_BACKWARD_MS && |clock| > 1 then Some(1)
    else None
  }

  predicate Severe(s: State, clock: seq<int>) {
    |clock| > 0 && clock[0] < s.timestamp - MAX_BACKWARD_MS
  }

  function Generated(s: State, node: nat, clock: seq<int>): (State, Outcome) {
    if Severe(s, clock) then (s, RolledBack)
    else if Settled(s, clock).None? then (s, Spinning)
    else
      var i := Settled(s, clock).value;
      var now := clock[i];
      if now != s.timestamp then (State(now, 0), Issued(Pack(now, node, 0)))
      else if (s.step + 1) % STEPS != 0 then (State(now, (s.step + 1) % STEPS),
          Issued(Pack(now, node, (s.step + 1) % STEPS)))
      else
        var j := IndexPast(s.timestamp, clock, i + 1);
        if j == |clock| then (State(s.timestamp, 0), Spinning)
        else (State(clock[j], 0), Issued(Pack(clock[j], node, 0)))
  }

  // ---- the same call, case by case ----

  /** Step 0 of the first reading past the timestamp, from `start` on; still waiting exactly if there is none. */
  ghost predicate IssuesFirstPast(s: State, node: nat, clock: seq<int>, start: nat, s': State, out: Outcome) {
    if forall k :: start <= k < |clock| ==> clock[k] <= s.timestamp then s' == State(s.timestamp, 0) && out == Spinning
    else exists j :: start <= j < |clock| && s.timestamp < clock[j]
                     && (forall k :: start <= k < j ==> clock[k] <= s.timestamp)
                     && s' == State(clock[j], 0) && out == Issued(Pack(clock[j], node, 0))
  }

  /** The call goes on with its `i`-th reading: step 0 of another millisecond, the next step of the same one, or, when
      the steps are used up, step 0 of the next millisecond. */
  ghost predicate GoesOnWith(s: State, node: nat, clock: seq<int>, i: nat, s': State, out: Outcome)
    requires i < |clock|
  {
    && (clock[i] != s.timestamp ==> s' == State(clock[i], 0) && out == Issued(Pack(clock[i], node, 0)))
    && (clock[i] == s.timestamp && s.step + 1 < STEPS ==>
          s' == State(s.timestamp, s.step + 1) && out == Issued(Pack(s.timestamp, node, s.step + 1)))
    && (clock[i] == s.timestamp && s.step + 1 == STEPS ==> IssuesFirstPast(s, node, clock, i + 1, s', out))
  }

  /** A first reading that is not behind is the one to go on with; after a tolerated rollback it is the second one;
      after a larger one the call fails. */
  ghost predicate Calls(s: State, node: nat, clock: seq<int>, s': State, out: Outcome) {
    if |clock| == 0 then s' == s && out == Spinning
    else if clock[0] >= s.timestamp then GoesOnWith(s, node, clock, 0, s', out)
    else if clock[0] < s.timestamp - MAX_BACKWARD_MS then s' == s && out == RolledBack
    else if |clock| == 1 then s' == s && out == Spinning
    else GoesOnWith(s, node, clock, 1, s', out)
  }

  lemma CallIs(s: State, node: nat, clock: seq<int>)
    ensures Calls(s, node, clock, Generated(s, node, clock).0, Generated(s, node, clock).1)
  {
    hide Pack;
    if Settled(s, clock).Some? {
      var i := Settled(s, clock).value;
      var j := IndexPast(s.timestamp, clock, i + 1);
      assert j < |clock| ==> s.timestamp < clock[j];
    }
  }

  predicate Wf(s: State) {
    s.step < STEPS
  }

  predicate AllInRange(clock: seq<int>) {
    forall i :: 0 <= i < |clock| ==> InRange(clock[i])
  }

  /** A call issues an id above the previous one exactly when the reading it goes on with is not behind the stored
      timestamp.  The code does not check this after the sleep. */
  lemma IssuesHigherIff(s: State, node: nat, clock: seq<int>)
    requires Wf(s) && node < NODES && AllInRange(clock) && InRange(s.timestamp)
    requires Generated(s, node, clock).1.Issued?
    ensures var (s', out) := Generated(s, node, clock);
            && Wf(s') && InRange(s'.timestamp) && out.id == Pack(s'.timestamp, node, s'.step)
            && (out.id > Pack(s.timestamp, node, s.step) <==> clock[Settled(s, clock).value] >= s.timestamp)
            && (out.id != Pack(s.timestamp, node, s.step))
  {
    var s' := Generated(s, node, clock).0;
    PackIsOrdered(s.timestamp, node, s.step, s'.timestamp, node, s'.step);
    PackIsOrdered(s'.timestamp, node, s'.step, s.timestamp, node, s.step);
  }

  // ---- runs ----

  /** The calls of one node, each with its readings; a failed call changes nothing. */
  function StateAfter(s: State, node: nat, calls: seq<seq<int>>): State {
    if calls == [] then s else Generated(StateAfter(s, node, calls[..|calls| - 1]), node, calls[|calls| - 1]).0
  }

  function Ids(s: State, node: nat, calls: seq<seq<int>>): seq<int> {
    if calls == [] then []
    else
      var out := Generated(StateAfter(s, node, calls[..|calls| - 1]), node, calls[|calls| - 1]).1;
      Ids(s, node, calls[..|calls| - 1]) + (if out.Issued? then [out.id] else [])
  }

  /** Every call returns, with readings after the epoch. */
  predicate Returns(s: State, node: nat, calls: seq<seq<int>>) {
    calls == [] ||
    (var prefix, clock := calls[..|calls| - 1], calls[|calls| - 1];
     Returns(s, node, prefix) && AllInRange(clock) && !Generated(StateAfter(s, node, prefix), node, clock).1.Spinning?)
  }

  /** The call does not go on with a reading behind the timestamp that it finds. */
  predicate CallCatchesUp(s: State, clock: seq<int>) {
    Settled(s, clock).Some? ==> clock[Settled(s, clock).value] >= s.timestamp
  }

  predicate CatchesUp(s: State, node: nat, calls: seq<seq<int>>) {
    calls == [] ||
    (var prefix, clock := calls[..|calls| - 1], calls[|calls| - 1];
     CatchesUp(s, node, prefix) && CallCatchesUp(StateAfter(s, node, prefix), clock))
  }

  ghost predicate Increasing(ids: seq<int>) {
    forall i, j :: 0 <= i < j < |ids| ==> ids[i] < ids[j]
  }

  const FRESH := State(0, 0)

  lemma {:induction false} LastId(node: nat, calls: seq<seq<int>>)
    requires node < NODES && Returns(FRESH, node, calls)
    ensures var s, ids := StateAfter(FRESH, node, calls), Ids(FRESH, node, calls);
            && Wf(s) && (ids == [] ==> s == FRESH)
            && (ids != [] ==> InRange(s.timestamp) && ids[|ids| - 1] == Pack(s.timestamp, node, s.step))
  {
    if calls != [] {
      LastId(node, calls[..|calls| - 1]);
    }
  }

  /** The ids of one node strictly increase, over any calls and any rollbacks of the clock, exactly when no call goes
      on with a reading that is still behind. */
  lemma {:induction false} IdsIncreaseIff(node: nat, calls: seq<seq<int>>)
    requires node < NODES && Returns(FRESH, node, calls)
    ensures Increasing(Ids(FRESH, node, calls)) <==> CatchesUp(FRESH, node, calls)
  {
    if calls != [] {
      var prefix, clock := calls[..|calls| - 1], calls[|calls| - 1];
      LastId(node, prefix);
      IdsIncreaseIff(node, prefix);
      var s, ids := StateAfter(FRESH, node, prefix), Ids(FRESH, node, prefix);
      OneMoreCall(node, s, ids, clock);
    }
  }

  lemma OneMoreCall(node: nat, s: State, ids: seq<int>, clock: seq<int>)
    requires Wf(s) && node < NODES && AllInRange(clock) && !Generated(s, node, clock).1.Spinning?
    requires if ids == [] then s == FRESH else InRange(s.timestamp) && ids[|ids| - 1] == Pack(s.timestamp, node, s.step)
    ensures var out := Generated(s, node, clock).1;
            Increasing(ids + (if out.Issued? then [out.id] else [])) <==> Increasing(ids) && CallCatchesUp(s, clock)
  {
    var out := Generated(s, node, clock).1;
    if !out.Issued? {
      assert ids + [] == ids;
    } else if ids == [] {
      assert Increasing([out.id]);
    } else {
      IssuesHigherIff(s, node, clock);
      hide Pack, Generated;
      IncreasingStep(ids, out.id);
    }
  }

  /** The ids of different nodes never meet, whatever the clocks of the two do. */
  lemma NodesNeverCollide(node: nat, node': nat, calls: seq<seq<int>>, calls': seq<seq<int>>)
    requires node < NODES && node' < NODES && node != node'
    requires Returns(FRESH, node, calls) && Returns(FRESH, node', calls')
    ensures forall id :: id in Ids(FRESH, node, calls) ==> id !in Ids(FRESH, node', calls')
  {
    IdsCarryTheNode(node, calls);
    IdsCarryTheNode(node', calls');
  }

  lemma {:induction false} IdsCarryTheNode(node: nat, calls: seq<seq<int>>)
    requires node < NODES && Returns(FRESH, node, calls)
    ensures forall id :: id in Ids(FRESH, node, calls) ==> 0 <= id < UINT64 / 2 && Unpack(id).1 == node
  {
    if calls != [] {
      var prefix, clock := calls[..|calls| - 1], calls[|calls| - 1];
      IdsCarryTheNode(node, prefix);
      LastId(node, prefix);
      var (s', out) := Generated(StateAfter(FRESH, node, prefix), node, clock);
      if out.Issued? {
        assert out.id == Pack(s'.timestamp, node, s'.step);
        PackedFieldsAreRecoverable(s'.timestamp, node, s'.step);
      }
      hide Pack, Generated, Unpack;
    }
  }

  lemma IncreasingStep(ids: seq<int>, id: int)
    requires ids != []
    ensures Increasing(ids + [id]) <==> Increasing(ids) && ids[|ids| - 1] < id
  {
    var all := ids + [id];
    assert all[|ids|] == id && all[|ids| - 1] == ids[|ids| - 1];
    if Increasing(all) {
      forall i, j | 0 <= i < j < |ids| ensures ids[i] < ids[j] {
        assert all[i] == ids[i] && all[j] == ids[j];
      }
    }
  }

  // ---- distinct ids ----

  /** The call goes to another millisecond; the step counter then starts at 0. */
  predicate MovesOn(s: State, node: nat, clock: seq<int>) {
    Generated(s, node, clock).1.Issued? && Generated(s, node, clock).0.timestamp != s.timestamp
  }

  /** The milliseconds that the generator has gone to, in order. */
  function Entered(s: State, node: nat, calls: seq<seq<int>>): seq<int> {
    if calls == [] then []
    else
      var prefix, clock := calls[..|calls| - 1], calls[|calls| - 1];
      var before := StateAfter(s, node, prefix);
      Entered(s, node, prefix) + (if MovesOn(before, node, clock) then [Generated(before, node, clock).0.timestamp]
          else [])
  }

  predicate Distinct(xs: seq<int>) {
    forall i, j :: 0 <= i < j < |xs| ==> xs[i] != xs[j]
  }

  lemma DistinctStep(xs: seq<int>, x: int)
    ensures Distinct(xs + [x]) <==> Distinct(xs) && x !in xs
  {
    var all := xs + [x];
    assert all[|xs|] == x && forall i :: 0 <= i < |xs| ==> all[i] == xs[i];
  }

  /** How one call issues: the next step of the same millisecond, or step 0 of another one. */
  lemma IssueIs(s: State, node: nat, clock: seq<int>)
    requires Wf(s) && node < NODES && AllInRange(clock) && Generated(s, node, clock).1.Issued?
    ensures var (s', out) := Generated(s, node, clock);
            && Wf(s') && InRange(s'.timestamp) && out.id == Pack(s'.timestamp, node, s'.step)
            && s'.step == if MovesOn(s, node, clock) then 0 else s.step + 1
  {
    hide Pack;
  }

  ghost predicate IsIdOf(id: int, node: nat, ms: int) {
    InRange(ms) && exists step: nat :: step < STEPS && id == Pack(ms, node, step)
  }

  /** All ids come from milliseconds that were entered. */
  ghost predicate FromEntered(node: nat, ids: seq<int>, entered: seq<int>) {
    forall id :: id in ids ==> exists ms :: ms in entered && IsIdOf(id, node, ms)
  }

  /** Each of those milliseconds issued its step 0. */
  ghost predicate StartsAtZero(node: nat, ids: seq<int>, entered: seq<int>) {
    forall ms :: ms in entered ==> InRange(ms) && Pack(ms, node, 0) in ids
  }

  /** Of the current millisecond only steps up to the current one have been issued. */
  ghost predicate NoneAhead(s: State, node: nat, ids: seq<int>) {
    forall step: nat :: s.step < step < STEPS ==> Pack(s.timestamp, node, step) !in ids
  }

  ghost predicate Accounted(s: State, node: nat, ids: seq<int>, entered: seq<int>) {
    && FromEntered(node, ids, entered) && StartsAtZero(node, ids, entered)
    && (Distinct(entered) ==> NoneAhead(s, node, ids))
    && (if ids == [] then s == FRESH else s.timestamp in entered)
  }

  lemma OneMoreFrom(node: nat, ids: seq<int>, entered: seq<int>, more: seq<int>, id: int, ms: int)
    requires FromEntered(node, ids, entered) && ms in entered + more && IsIdOf(id, node, ms)
    ensures FromEntered(node, ids + [id], entered + more)
  {
    hide IsIdOf;
    forall x | x in ids + [id] ensures exists m :: m in entered + more && IsIdOf(x, node, m) {
      if x in ids {
        var m :| m in entered && IsIdOf(x, node, m);
        assert m in entered + more;
      }
    }
  }

  lemma NewerIsAhead(s: State, node: nat, ids: seq<int>, step: nat)
    requires node < NODES && InRange(s.timestamp) && s.step <= step < STEPS && NoneAhead(s, node, ids)
    ensures NoneAhead(State(s.timestamp, step), node, ids + [Pack(s.timestamp, node, step)])
  {
    forall later: nat | step < later < STEPS ensures Pack(s.timestamp, node,
        later) !in ids + [Pack(s.timestamp, node, step)] {
      PackIsOrdered(s.timestamp, node, later, s.timestamp, node, step);
    }
  }

  /** One more id of the same millisecond. */
  lemma StayAccounted(s: State, s': State, node: nat, ids: seq<int>, entered: seq<int>)
    requires node < NODES && Wf(s') && InRange(s'.timestamp) && s'.timestamp == s.timestamp && s'.step == s.step + 1
    requires Accounted(s, node, ids, entered)
    ensures Accounted(s', node, ids + [Pack(s'.timestamp, node, s'.step)], entered)
    ensures Distinct(entered) ==> Pack(s'.timestamp, node, s'.step) !in ids
  {
    hide Pack, Distinct, FromEntered;
    var id := Pack(s'.timestamp, node, s'.step);
    assert entered + [] == entered;
    OneMoreFrom(node, ids, entered, [], id, s'.timestamp);
    if Distinct(entered) {
      NewerIsAhead(s, node, ids, s'.step);
    }
  }

  /** An id of a millisecond that was never entered is new. */
  lemma NotEntered(node: nat, ids: seq<int>, entered: seq<int>, ms: int, step: nat)
    requires node < NODES && InRange(ms) && step < STEPS && FromEntered(node, ids, entered) && ms !in entered
    ensures Pack(ms, node, step) !in ids
  {
    hide Pack;
    if Pack(ms, node, step) in ids {
      var m :| m in entered && IsIdOf(Pack(ms, node, step), node, m);
      var st: nat :| st < STEPS && Pack(ms, node, step) == Pack(m, node, st);
      PackIsOrdered(ms, node, step, m, node, st);
    }
  }

  /** The first id of another millisecond. */
  lemma MoveAccounted(s: State, s': State, node: nat, ids: seq<int>, entered: seq<int>)
    requires node < NODES && InRange(s'.timestamp) && s'.step == 0 && Accounted(s, node, ids, entered)
    ensures Accounted(s', node, ids + [Pack(s'.timestamp, node, 0)], entered + [s'.timestamp])
    ensures Pack(s'.timestamp, node, 0) in ids <==> s'.timestamp in entered
  {
    hide Pack, Distinct, FromEntered, NoneAhead;
    var ms, id := s'.timestamp, Pack(s'.timestamp, node, 0);
    assert IsIdOf(id, node, ms);
    OneMoreFrom(node, ids, entered, [ms], id, ms);
    DistinctStep(entered, ms);
    if ms !in entered {
      NotEntered(node, ids, entered, ms, 0);
      NoneAheadYet(node, ids, entered, ms);
    }
  }

  lemma NoneAheadYet(node: nat, ids: seq<int>, entered: seq<int>, ms: int)
    requires node < NODES && InRange(ms) && FromEntered(node, ids, entered) && ms !in entered
    ensures NoneAhead(State(ms, 0), node, ids + [Pack(ms, node, 0)])
  {
    hide Pack, FromEntered;
    forall step: nat | step < STEPS ensures Pack(ms, node, step) !in ids {
      NotEntered(node, ids, entered, ms, step);
    }
    NewerIsAhead(State(ms, 0), node, ids, 0);
  }

  lemma {:induction false} RunIsAccounted(node: nat, calls: seq<seq<int>>)
    requires node < NODES && Returns(FRESH, node, calls)
    ensures Wf(StateAfter(FRESH, node, calls))
    ensures Accounted(StateAfter(FRESH, node, calls), node, Ids(FRESH, node, calls), Entered(FRESH, node, calls))
    ensures Distinct(Ids(FRESH, node, calls)) <==> Distinct(Entered(FRESH, node, calls))
  {
    hide Generated, Pack, Accounted;
    if calls == [] {
      NothingAccounted(node);
    } else {
      var prefix, clock := calls[..|calls| - 1], calls[|calls| - 1];
      RunIsAccounted(node, prefix);
      var s, ids, entered := StateAfter(FRESH, node, prefix), Ids(FRESH, node, prefix), Entered(FRESH, node, prefix);
      var (s', out) := Generated(s, node, clock);
      if !out.Issued? {
        ErrorKeepsState(s, node, clock);
        assert ids + [] == ids && entered + [] == entered;
      } else {
        IssueIs(s, node, clock);
        DistinctStep(ids, out.id);
        if MovesOn(s, node, clock) {
          MoveAccounted(s, s', node, ids, entered);
          DistinctStep(entered, s'.timestamp);
        } else {
          StayAccounted(s, s', node, ids, entered);
          assert entered + [] == entered;
        }
      }
    }
  }

  lemma NothingAccounted(node: nat)
    ensures Accounted(FRESH, node, [], [])
  {}

  lemma ErrorKeepsState(s: State, node: nat, clock: seq<int>)
    requires !Generated(s, node, clock).1.Issued? && !Generated(s, node, clock).1.Spinning?
    ensures Generated(s, node, clock).0 == s
  {}

  /** The ids of one node are all different, over any calls and any rollbacks of the clock, exactly when the generator
      never goes to a millisecond to which it has gone before. */
  lemma IdsDistinctIff(node: nat, calls: seq<seq<int>>)
    requires node < NODES && Returns(FRESH, node, calls)
    ensures Distinct(Ids(FRESH, node, calls)) <==> Distinct(Entered(FRESH, node, calls))
  {
    RunIsAccounted(node, calls);
  }

  /** Going back is not yet repeating: the first run below goes on with a stale reading and issues two different ids;
      in the second the repeating call is not even the one that went back. */
  lemma StaleReadingMayBeHarmless(node: nat)
    requires node < NODES
    ensures var calls := [[EPOCH + 100], [EPOCH + 98, EPOCH + 99]];
            && Returns(FRESH, node, calls) && !CatchesUp(FRESH, node, calls) && Distinct(Ids(FRESH, node, calls))
            && var more := calls + [[EPOCH + 100]];
               && Returns(FRESH, node, more) && !Distinct(Ids(FRESH, node, more))
               && CallCatchesUp(StateAfter(FRESH, node, calls), [EPOCH + 100])
  {
    var a, b := [EPOCH + 100], [EPOCH + 98, EPOCH + 99];
    var calls := [a, b];
    var more := calls + [a];
    assert calls[..1] == [a] && [a][..0] == [] && more[..2] == calls;
    var first, second := State(EPOCH + 100, 0), State(EPOCH + 99, 0);
    assert Generated(FRESH, node, a) == (first, Issued(Pack(EPOCH + 100, node, 0)));
    assert Generated(first, node, b) == (second, Issued(Pack(EPOCH + 99, node, 0)));
    assert Generated(second, node, a) == (first, Issued(Pack(EPOCH + 100, node, 0)));
    hide Generated, Pack;
    assert StateAfter(FRESH, node, [a]) == first && StateAfter(FRESH, node, calls) == second;
    assert Returns(FRESH, node, [a]) && Returns(FRESH, node, calls) && Returns(FRESH, node, more);
    assert Entered(FRESH, node, [a]) == [EPOCH + 100] && Entered(FRESH, node, calls) == [EPOCH + 100, EPOCH + 99];
    assert Entered(FRESH, node, more) == [EPOCH + 100, EPOCH + 99, EPOCH + 100];
    IdsDistinctIff(node, calls);
    IdsDistinctIff(node, more);
    assert Entered(FRESH, node, more)[0] == Entered(FRESH, node, more)[2];
  }

  /** A sleep that wakes up early repeats an id. */
  lemma EarlyWakeRepeatsAnId(node: nat)
    requires node < NODES
    ensures var calls := [[EPOCH + 99], [EPOCH + 100], [EPOCH + 98, EPOCH + 99]];
            var ids := Ids(FRESH, node, calls);
            Returns(FRESH, node, calls) && |ids| == 3 && ids[0] == ids[2]
  {
    var a, b, c := [EPOCH + 99], [EPOCH + 100], [EPOCH + 98, EPOCH + 99];
    var calls := [a, b, c];
    assert calls[..2] == [a, b] && [a, b][..1] == [a] && [a][..0] == [];
    var first, second := State(EPOCH + 99, 0), State(EPOCH + 100, 0);
    assert Generated(FRESH, node, a) == (first, Issued(Pack(EPOCH + 99, node, 0)));
    assert Generated(first, node, b) == (second, Issued(Pack(EPOCH + 100, node, 0)));
    assert Generated(second, node, c) == (first, Issued(Pack(EPOCH + 99, node, 0)));
    hide Generated, Pack;
    assert StateAfter(FRESH, node, []) == FRESH && Ids(FRESH, node, []) == [] && Returns(FRESH, node, []);
    assert StateAfter(FRESH, node, [a]) == first && Ids(FRESH, node, [a]) == [Pack(EPOCH + 99, node, 0)]
        && Returns(FRESH, node, [a]);
    assert StateAfter(FRESH, node, [a, b]) == second && Returns(FRESH, node, [a, b]);
    assert Ids(FRESH, node, [a, b]) == [Pack(EPOCH + 99, node, 0), Pack(EPOCH + 100, node, 0)];
    assert Ids(FRESH, node, calls) == Ids(FRESH, node, [a, b]) + [Pack(EPOCH + 99, node, 0)];
  }

  /** `n` calls that all read the same millisecond. */
  function Repeated(ms: int, n: nat): seq<seq<int>> {
    seq(n, i => [ms])
  }

  /** A fresh node issues all steps of a millisecond in order, and then waits for the next one. */
  lemma {:induction false} FullMillisecond(node: nat, ms: int, n: nat)
    requires n <= STEPS && ms > FRESH.timestamp
    ensures Ids(FRESH, node, Repeated(ms, n)) == seq(n, i requires 0 <= i < n => Pack(ms, node, i))
    ensures n > 0 ==> StateAfter(FRESH, node, Repeated(ms, n)) == State(ms, n - 1)
    ensures n == STEPS ==> Generated(State(ms, n - 1), node, [ms]).1.Spinning?
    ensures forall later :: n == STEPS && later > ms ==>
              Generated(State(ms, n - 1), node, [ms, later]) == (State(later, 0), Issued(Pack(later, node, 0)))
  {
    hide Pack;
    if n > 0 {
      FullMillisecond(node, ms, n - 1);
      assert Repeated(ms, n)[..n - 1] == Repeated(ms, n - 1);
      var s := StateAfter(FRESH, node, Repeated(ms, n - 1));
      assert Generated(s, node, [ms]) == (State(ms, n - 1), Issued(Pack(ms, node, n - 1)));
    }
  }

  class Node {
    var timestamp: int
    var step: nat
    const nodeID: nat

    constructor (nodeID: nat)
      requires nodeID < NODES
      ensures this.nodeID == nodeID && timestamp == FRESH.timestamp && step == FRESH.step
    {
      this.nodeID := nodeID;
      timestamp := 0;
      step := 0;
    }

    static method NewNode(id: int) returns (r: Result<Node>)
      ensures r.Ok? <==> 0 <= id < NODES
      ensures r.Ok? ==> r.value.nodeID == id && State(r.value.timestamp, r.value.step) == FRESH
    {
      if id < 0 || id > NODES - 1 {
        return Err;
      }
      var node := new Node(id);
      r := Ok(node);
    }

    /** The spin on the clock once the steps of a millisecond are used up. */
    method WaitPast(clock: seq<int>, start: nat) returns (i: nat)
      requires start <= |clock|
      ensures i == IndexPast(timestamp, clock, start)
    {
      i := start;
      while i < |clock| && clock[i] <= timestamp
        invariant start <= i <= |clock|
        invariant IndexPast(timestamp, clock, i) == IndexPast(timestamp, clock, start)
      {
        i := i + 1;
      }
    }

    /** `clock` are the successive values of the wall clock, in milliseconds. */
    method Generate(clock: seq<int>) returns (out: Outcome)
      modifies this
      ensures (State(timestamp, step), out) == Generated(old(State(timestamp, step)), nodeID, clock)
      ensures Calls(old(State(timestamp, step)), nodeID, clock, State(timestamp, step), out)
      ensures out.RolledBack? <==> |clock| > 0 && clock[0] < old(timestamp) - MAX_BACKWARD_MS
      ensures out.RolledBack? ==> timestamp == old(timestamp) && step == old(step)
      ensures out.Issued? ==> out.id == Pack(timestamp, nodeID, step)
    {
      hide Pack, IndexPast, Calls;
      CallIs(State(timestamp, step), nodeID, clock);
      if |clock| == 0 {
        return Spinning;
      }
      var i := 0;
      if clock[0] < timestamp {
        var backward := timestamp - clock[0];
        if backward > MAX_BACKWARD_MS {
          return RolledBack;
        }
        if |clock| == 1 {
          return Spinning;
        }
        i := 1;
      }
      var now := clock[i];
      if now == timestamp {
        step := (step + 1) % STEPS;
        if step == 0 {
          var j := WaitPast(clock, i + 1);
          if j == |clock| {
            return Spinning;
          }
          now := clock[j];
        }
      } else {
        step := 0;
      }
      timestamp := now;
      out := Issued(Pack(now, nodeID, step));
    }
  }
}
