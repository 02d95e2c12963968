/** From ids to short codes: the two lines of Create in internal/service/shortlink.go that produce a code, and the
    width of the `short_code` column. */
module ShortCode {
  import opened Common
  import Snowflake
  import Base62

  const COLUMN: nat := 10  // VARCHAR(10)

  /** The first millisecond offset with ids that need an eleventh character: 62^10 / 2^22. */
  const OVERFLOW_OFFSET: nat := 200_104_562_251

  type NodeId = n: nat | n < Snowflake.NODES
  type Step = n: nat | n < Snowflake.STEPS
  type Ms = n: int | Snowflake.InRange(n) witness Snowflake.EPOCH

  function CodeOf(a: Base62.Alphabet, id: int): string
    requires 0 <= id
  {
    Base62.Encoded(a, id)
  }

  lemma SpellingIsInjective(a: Base62.Alphabet, m: nat, n: nat)
    requires Base62.Distinct(a)
    ensures Base62.Encoded(a, m) == Base62.Encoded(a, n) <==> m == n
  {
    Base62.ReadsWhatIsSpelled(a, Base62.Digits(m));
    Base62.ReadsWhatIsSpelled(a, Base62.Digits(n));
    Base62.DigitsHaveTheValue(m);
    Base62.DigitsHaveTheValue(n);
  }

  /** Codes coincide only when time, node and step all coincide. */
  lemma CodesAreDistinct(a: Base62.Alphabet, ms: Ms, node: NodeId, step: Step, ms': Ms, node': NodeId, step': Step)
    requires Base62.Distinct(a)
    ensures 0 <= Snowflake.Pack(ms, node, step) && 0 <= Snowflake.Pack(ms', node', step')
    ensures CodeOf(a, Snowflake.Pack(ms, node, step)) == CodeOf(a, Snowflake.Pack(ms', node', step')) <==>
              ms == ms' && node == node' && step == step'
  {
    Snowflake.PackedFieldsAreRecoverable(ms, node, step);
    Snowflake.PackedFieldsAreRecoverable(ms', node', step');
    Snowflake.PackIsOrdered(ms, node, step, ms', node', step');
    SpellingIsInjective(a, Snowflake.Pack(ms, node, step), Snowflake.Pack(ms', node', step'));
  }

  /** Which codes fit the column: all before the offset, none after it.  The 41 bits of time last about eleven times as
      long. */
  lemma FitsColumnIff(a: Base62.Alphabet, ms: Ms, node: NodeId, step: Step)
    ensures 0 <= Snowflake.Pack(ms, node, step)
    ensures var offset := ms - Snowflake.EPOCH;
            |CodeOf(a, Snowflake.Pack(ms, node, step))| <= COLUMN <==>
              offset < OVERFLOW_OFFSET || (offset == OVERFLOW_OFFSET && node * Snowflake.STEPS + step < 721_920)
  {
    var id := Snowflake.Pack(ms, node, step);
    Snowflake.PackedFieldsAreRecoverable(ms, node, step);
    Base62.LengthIff(id, COLUMN);
    Base62.PowersOf62();
  }

  predicate AllIds(ids: seq<int>) {
    forall i :: 0 <= i < |ids| ==> 0 <= ids[i]
  }

  predicate DistinctCodes(a: Base62.Alphabet, ids: seq<int>)
    requires AllIds(ids)
  {
    forall i, j :: 0 <= i < j < |ids| ==> CodeOf(a, ids[i]) != CodeOf(a, ids[j])
  }

  /** All codes of one generator's run are different, whatever the clock does, exactly when the generator never goes to
      a millisecond to which it has gone before. */
  lemma CodesOfARunIff(a: Base62.Alphabet, node: NodeId, calls: seq<seq<int>>)
    requires Base62.Distinct(a) && Snowflake.Returns(Snowflake.FRESH, node, calls)
    ensures AllIds(Snowflake.Ids(Snowflake.FRESH, node, calls))
    ensures DistinctCodes(a, Snowflake.Ids(Snowflake.FRESH, node, calls)) <==>
              Snowflake.Distinct(Snowflake.Entered(Snowflake.FRESH, node, calls))
  {
    var ids := Snowflake.Ids(Snowflake.FRESH, node, calls);
    Snowflake.IdsDistinctIff(node, calls);
    Snowflake.IdsCarryTheNode(node, calls);
    assert forall i :: 0 <= i < |ids| ==> ids[i] in ids;
    hide Snowflake.Entered, Snowflake.Ids, Base62.Encoded;
    forall i, j | 0 <= i < j < |ids| ensures CodeOf(a, ids[i]) != CodeOf(a, ids[j]) <==> ids[i] != ids[j] {
      SpellingIsInjective(a, ids[i], ids[j]);
    }
  }

  /** A fresh code, or none when the generator fails or is still waiting for the clock.
      The id is not negative, so its conversion to uint64 keeps it. */
  method NextCode(node: Snowflake.Node, codec: Base62.Codec, clock: seq<int>)
      returns (r: Result<string>, ghost out: Snowflake.Outcome)
    requires node.nodeID < Snowflake.NODES && node.step < Snowflake.STEPS && Snowflake.AllInRange(clock)
    requires Snowflake.InRange(node.timestamp) || node.timestamp == 0
    modifies node
    ensures (Snowflake.State(node.timestamp, node.step), out) ==
              Snowflake.Generated(old(Snowflake.State(node.timestamp, node.step)), node.nodeID, clock)
    ensures r.Ok? <==> out.Issued?
    ensures r.Ok? ==> 0 <= out.id < UINT64 / 2 && r.value == CodeOf(codec.alphabet, out.id)
  {
    var outcome := node.Generate(clock);
    out := outcome;
    if !outcome.Issued? {
      return Err, out;
    }
    Snowflake.PackedFieldsAreRecoverable(node.timestamp, node.nodeID, node.step);
    assert outcome.id == Snowflake.Pack(node.timestamp, node.nodeID, node.step);
    var code := codec.Encode(outcome.id);
    r := Ok(code);
  }
}
