/** The conntrack mark: its high byte is reserved for provenance, the rest belongs to others. */
module MarkBits {
  const MASK: bv32 := 0xff000000
  const KEEP_MASK: bv32 := 0x00ffffff

  function And(a: bv32, b: bv32): bv32 {
    a & b
  }

  /** The bits that are not the product's. */
  function Kept(m: bv32): bv32 {
    m & KEEP_MASK
  }

  function Reserved(m: bv32): bv32 {
    m & MASK
  }

  const ONES: bv32 := 0xffffffff

  lemma AndIsBitwise(a: bv32, b: bv32, c: bv32)
    ensures And(a, And(b, c)) == And(b, And(a, c))
    ensures And(a, And(ONES, b)) == And(a, b)
    ensures And(And(a, b), a) == And(a, b)
  {
  }

  lemma AndChain(a: bv32, b: bv32, c: bv32)
    requires And(b, c) == b
    ensures And(And(a, b), c) == And(a, b)
  {
  }

  /** Under a mask clear of the reserved byte, marks that agree outside it cannot be told apart. */
  lemma MaskedSame(m: bv32, n: bv32, a: bv32, c: bv32)
    requires Kept(m) == Kept(n) && Reserved(c) == 0 && And(a, c) == a
    ensures And(m, a) == And(n, a)
  {
  }

  /** An identity in the reserved byte. */
  function Encoded(id: bv8): bv32 {
    (id as bv32) << 24
  }

  /** The mark with the reserved byte replaced. */
  function Tagged(m: bv32, id: bv8): bv32 {
    (m & KEEP_MASK) | Encoded(id)
  }

  lemma TaggedKeeps(m: bv32, id: bv8)
    ensures Kept(Tagged(m, id)) == Kept(m)
    ensures Reserved(Tagged(m, id)) == Encoded(id)
  {
  }

  lemma EncodedIsInjective(a: bv8, b: bv8)
    ensures Encoded(a) == Encoded(b) ==> a == b
    ensures Encoded(a) == 0 ==> a == 0
  {
  }
}
