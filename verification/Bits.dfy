/**
 One status byte of the free space map. Bits are labelled from left to right, so bit 0 is the
 most significant one.
 */
module Bits {

  type Bit = i: nat | i < 8

  /** Whether bit `bidx` of `byte` is set. */
  predicate BitUsed(byte: bv8, bidx: Bit) {
    (byte >> (7 - bidx)) & 1 == 1
  }

  function Mask(bidx: Bit): bv8 {
    (1 as bv8) << (7 - bidx)
  }

  /** The byte after setting bit `bidx` to `used`, and whether that changed it. */
  function UpdateStatus(used: bool, byte: bv8, bidx: Bit): (bv8, bool) {
    var mask := Mask(bidx);
    var value: bv8 := (if used then 1 as bv8 else 0) << (7 - bidx);
    var changed := (used && byte & mask == 0) || (!used && byte & mask != 0);
    ((byte & !mask) | value, changed)
  }

  lemma MaskTable(i: Bit)
    ensures Mask(i) == [0x80, 0x40, 0x20, 0x10, 0x08, 0x04, 0x02, 0x01][i]
    ensures (0 as bv8) << (7 - i) == 0
  {
  }

  lemma MaskSelects(byte: bv8, i: Bit)
    ensures BitUsed(byte, i) <==> byte & Mask(i) != 0
  {
    MaskTable(i);
  }

  lemma MasksDisjoint(i: Bit, j: Bit)
    requires i != j
    ensures Mask(i) & Mask(j) == 0
  {
    MaskTable(i);
    MaskTable(j);
  }

  lemma Overwrite(b: bv8, m: bv8, v: bv8, k: bv8)
    requires v == 0 || v == m
    ensures ((b & !m) | v) & m == v
    ensures m & k == 0 ==> ((b & !m) | v) & k == b & k
  {
  }

  /** Updating one bit writes that bit, keeps the other seven, and reports a change exactly when
      the bit was different before. */
  lemma UpdateStatusBits(used: bool, byte: bv8, bidx: Bit, j: Bit)
    ensures BitUsed(UpdateStatus(used, byte, bidx).0, j) == if j == bidx then used else BitUsed(byte, j)
    ensures UpdateStatus(used, byte, bidx).1 <==> BitUsed(byte, bidx) != used
  {
    MaskTable(bidx);
    MaskSelects(byte, bidx);
    MaskSelects(byte, j);
    MaskSelects(UpdateStatus(used, byte, bidx).0, j);
    Overwrite(byte, Mask(bidx), if used then Mask(bidx) else 0, Mask(j));
    if j != bidx {
      MasksDisjoint(bidx, j);
    }
  }

  /** Writing the value a bit already has leaves the byte as it was. */
  lemma UpdateStatusIdle(used: bool, byte: bv8, bidx: Bit)
    requires BitUsed(byte, bidx) == used
    ensures UpdateStatus(used, byte, bidx).0 == byte
  {
    MaskTable(bidx);
  }

  /** The two byte values the scans skip over. */
  lemma UniformBytes(j: Bit)
    ensures BitUsed(0xff, j)
    ensures !BitUsed(0x00, j)
  {
  }
}
