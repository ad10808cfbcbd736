/**
 * Bit-level view of the 32-bit register words the programs manipulate.
 * A field or a bit is named by a mask; "the other bits are unchanged" is
 * stated as equality of the words outside the mask.
 */
module Bits {

  /** Single-bit mask `1 << k`, the form every enable and set/reset constant takes. */
  function Mask(k: bv32): (m: bv32)
    requires k < 32
    ensures m != 0 && m & (m - 1) == 0
    ensures m >> k == 1
  {
    1 << k
  }

  /** The words share no set bit. */
  predicate Disjoint(a: bv32, b: bv32) {
    a & b == 0
  }

  /** `w | mask`: every bit of mask is 1 afterwards, every other bit keeps its value. */
  function SetBits(w: bv32, mask: bv32): (r: bv32)
    ensures r & mask == mask
    ensures r & !mask == w & !mask
  {
    w | mask
  }

  /**
   * `(w & !field) | value`: the bits of field take the value's bits, every
   * other bit keeps its value.  The value must lie inside the field.
   */
  function ReplaceField(w: bv32, field: bv32, value: bv32): (r: bv32)
    requires value & !field == 0
    ensures r & field == value
    ensures r & !field == w & !field
  {
    (w & !field) | value
  }

  /** Setting bits a second time changes nothing. */
  lemma SetBitsIdempotent(w: bv32, mask: bv32)
    ensures SetBits(SetBits(w, mask), mask) == SetBits(w, mask)
  {
  }

  /** Writing the same field value a second time changes nothing. */
  lemma ReplaceFieldIdempotent(w: bv32, field: bv32, value: bv32)
    requires value & !field == 0
    ensures ReplaceField(ReplaceField(w, field, value), field, value) == ReplaceField(w, field, value)
  {
  }
}
