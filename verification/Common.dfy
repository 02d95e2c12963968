/** Values that several components exchange. */
module Common {
  datatype Option<+T> = None | Some(value: T)

  datatype Result<+T> = Ok(value: T) | Err

  /** Milliseconds on the one clock that all components share. */
  type Time = nat

  /** A row of `short_links`.  Rows are inserted and never updated. */
  datatype Link = Link(id: nat, url: string, hash: string)

  /** The body of a cache-update message; an outbox row carries the same three columns. */
  datatype Message = Message(code: string, url: string, hash: string)

  const UINT64: nat := 0x1_0000_0000_0000_0000

  /** Wrapping at every step of `p * seed + c` gives the same as wrapping once at the end. */
  lemma WrapStep(p: nat, seed: nat, c: nat)
    ensures (p % UINT64 * seed + c) % UINT64 == (p * seed + c) % UINT64
  {
    var q := p / UINT64;
    assert p == q * UINT64 + p % UINT64;
    var r := p % UINT64;
    assert p * seed + c == (q * seed) * UINT64 + (r * seed + c) by {
      assert p * seed == (q * UINT64 + r) * seed == q * UINT64 * seed + r * seed;
      assert q * UINT64 * seed == q * seed * UINT64;
    }
    ModAddMultiple(r * seed + c, q * seed);
  }

  lemma ModAddMultiple(a: nat, k: nat)
    ensures (k * UINT64 + a) % UINT64 == a % UINT64
  {
    if k > 0 {
      ModAddMultiple(a, k - 1);
      assert k * UINT64 + a == ((k - 1) * UINT64 + a) + UINT64;
    }
  }
}
