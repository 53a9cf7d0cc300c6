/**
 The persistent bitmap: blocks of 2^16 status bits, keyed by block number, and the bit-by-bit
 definitions that the byte-skipping scans are proved against.
 */
module Blocks {
  import opened Bits
  import opened Collections

  /** IDs per block, and the bytes that hold their bits. */
  const BLOCK_IDS: nat := 65536
  const BLOCK_BYTES: nat := BLOCK_IDS / 8

  type BlockMap = map<nat, seq<bv8>>

  /** Blocks exist for exactly 0..count, each of full size. */
  ghost predicate Shape(blocks: BlockMap, count: nat) {
    && (forall b: nat :: b in blocks <==> b < count)
    && (forall b: nat :: b in blocks ==> |blocks[b]| == BLOCK_BYTES)
  }

  function BlockOf(id: nat): nat { id / BLOCK_IDS }
  function ByteOf(id: nat): (y: nat) ensures y < BLOCK_BYTES { id % BLOCK_IDS / 8 }
  function BitOf(id: nat): (b: Bit) { id % BLOCK_IDS % 8 }

  /** Block, byte and bit number an ID, and every in-range triple is the position of one ID. */
  lemma Position(id: nat, block: nat, byte: nat, bit: Bit)
    requires byte < BLOCK_BYTES
    ensures id == block * BLOCK_IDS + byte * 8 + bit <==> BlockOf(id) == block && ByteOf(id) == byte && BitOf(id) == bit
  {
  }

  lemma BlockInRange(id: nat, count: nat)
    ensures BlockOf(id) < count <==> id < count * BLOCK_IDS
  {
  }

  predicate Used(blocks: BlockMap, id: nat) {
    && BlockOf(id) in blocks
    && ByteOf(id) < |blocks[BlockOf(id)]|
    && BitUsed(blocks[BlockOf(id)][ByteOf(id)], BitOf(id))
  }

  lemma NoBlocks(blocks: BlockMap, id: nat)
    requires Shape(blocks, 0)
    ensures !Used(blocks, id)
  {
  }

  /** The blocks after one read-modify-write of the byte that holds `id`. */
  function SetBit(blocks: BlockMap, id: nat, used: bool): BlockMap
    requires BlockOf(id) in blocks && |blocks[BlockOf(id)]| == BLOCK_BYTES
  {
    var block := blocks[BlockOf(id)];
    blocks[BlockOf(id) := block[ByteOf(id) := UpdateStatus(used, block[ByteOf(id)], BitOf(id)).0]]
  }

  lemma SetBitUsed(blocks: BlockMap, count: nat, id: nat, used: bool)
    requires Shape(blocks, count) && BlockOf(id) < count
    ensures Shape(SetBit(blocks, id, used), count)
    ensures forall j: nat :: Used(SetBit(blocks, id, used), j) <==> if j == id then used else Used(blocks, j)
    ensures UpdateStatus(used, blocks[BlockOf(id)][ByteOf(id)], BitOf(id)).1 <==> Used(blocks, id) != used
  {
    var byte := blocks[BlockOf(id)][ByteOf(id)];
    UpdateStatusBits(used, byte, BitOf(id), BitOf(id));
    forall j: nat
      ensures Used(SetBit(blocks, id, used), j) <==> if j == id then used else Used(blocks, j)
    {
      UpdateStatusBits(used, byte, BitOf(id), BitOf(j));
      Position(j, BlockOf(id), ByteOf(id), BitOf(id));
      Position(id, BlockOf(id), ByteOf(id), BitOf(id));
    }
  }

  lemma SetBitIdle(blocks: BlockMap, id: nat, used: bool)
    requires BlockOf(id) in blocks && |blocks[BlockOf(id)]| == BLOCK_BYTES
    requires Used(blocks, id) == used
    ensures SetBit(blocks, id, used) == blocks
  {
    var block := blocks[BlockOf(id)];
    UpdateStatusIdle(used, block[ByteOf(id)], BitOf(id));
    assert block[ByteOf(id) := block[ByteOf(id)]] == block;
  }

  /** The IDs in lo..hi whose bit equals `used`, in increasing order. */
  function IdsIn(blocks: BlockMap, used: bool, lo: nat, hi: nat): seq<nat>
    decreases hi
  {
    if hi <= lo then []
    else IdsIn(blocks, used, lo, hi - 1) + if Used(blocks, hi - 1) == used then [hi - 1] else []
  }

  /** The same IDs, in decreasing order. */
  function IdsDown(blocks: BlockMap, used: bool, lo: nat, hi: nat): seq<nat>
    decreases hi - lo
  {
    if hi <= lo then []
    else IdsDown(blocks, used, lo + 1, hi) + if Used(blocks, lo) == used then [lo] else []
  }

  ghost predicate Increasing(s: seq<nat>) {
    forall i, j :: 0 <= i < j < |s| ==> s[i] < s[j]
  }

  ghost predicate Decreasing(s: seq<nat>) {
    forall i, j :: 0 <= i < j < |s| ==> s[i] > s[j]
  }

  lemma {:induction false} IdsInMember(blocks: BlockMap, used: bool, lo: nat, hi: nat, id: nat)
    ensures id in IdsIn(blocks, used, lo, hi) <==> lo <= id < hi && Used(blocks, id) == used
    decreases hi
  {
    hide Used;
    if lo < hi {
      IdsInMember(blocks, used, lo, hi - 1, id);
    }
  }

  lemma {:induction false} IdsInIncreasing(blocks: BlockMap, used: bool, lo: nat, hi: nat)
    ensures Increasing(IdsIn(blocks, used, lo, hi))
    decreases hi
  {
    hide Used;
    if lo < hi {
      IdsInIncreasing(blocks, used, lo, hi - 1);
      var rest := IdsIn(blocks, used, lo, hi - 1);
      forall i | 0 <= i < |rest|
        ensures rest[i] < hi - 1
      {
        IdsInMember(blocks, used, lo, hi - 1, rest[i]);
      }
    }
  }

  /** The increasing list holds exactly the IDs it should, once each. */
  lemma IdsInExact(blocks: BlockMap, used: bool, lo: nat, hi: nat)
    ensures forall id: nat :: id in IdsIn(blocks, used, lo, hi) <==> lo <= id < hi && Used(blocks, id) == used
    ensures Increasing(IdsIn(blocks, used, lo, hi))
  {
    hide Used;
    IdsInIncreasing(blocks, used, lo, hi);
    forall id: nat
      ensures id in IdsIn(blocks, used, lo, hi) <==> lo <= id < hi && Used(blocks, id) == used
    {
      IdsInMember(blocks, used, lo, hi, id);
    }
  }

  lemma {:induction false} IdsDownMember(blocks: BlockMap, used: bool, lo: nat, hi: nat, id: nat)
    ensures id in IdsDown(blocks, used, lo, hi) <==> lo <= id < hi && Used(blocks, id) == used
    decreases hi - lo
  {
    hide Used;
    if lo < hi {
      IdsDownMember(blocks, used, lo + 1, hi, id);
    }
  }

  lemma {:induction false} IdsDownDecreasing(blocks: BlockMap, used: bool, lo: nat, hi: nat)
    ensures Decreasing(IdsDown(blocks, used, lo, hi))
    decreases hi - lo
  {
    hide Used;
    if lo < hi {
      IdsDownDecreasing(blocks, used, lo + 1, hi);
      var rest := IdsDown(blocks, used, lo + 1, hi);
      forall i | 0 <= i < |rest|
        ensures rest[i] > lo
      {
        IdsDownMember(blocks, used, lo + 1, hi, rest[i]);
      }
    }
  }

  /** The decreasing list holds exactly the IDs it should, once each. */
  lemma IdsDownExact(blocks: BlockMap, used: bool, lo: nat, hi: nat)
    ensures forall id: nat :: id in IdsDown(blocks, used, lo, hi) <==> lo <= id < hi && Used(blocks, id) == used
    ensures Decreasing(IdsDown(blocks, used, lo, hi))
  {
    hide Used;
    IdsDownDecreasing(blocks, used, lo, hi);
    forall id: nat
      ensures id in IdsDown(blocks, used, lo, hi) <==> lo <= id < hi && Used(blocks, id) == used
    {
      IdsDownMember(blocks, used, lo, hi, id);
    }
  }

  lemma {:induction false} IdsInSplit(blocks: BlockMap, used: bool, lo: nat, mid: nat, hi: nat)
    requires lo <= mid <= hi
    ensures IdsIn(blocks, used, lo, hi) == IdsIn(blocks, used, lo, mid) + IdsIn(blocks, used, mid, hi)
    decreases hi
  {
    hide Used;
    if mid < hi {
      IdsInSplit(blocks, used, lo, mid, hi - 1);
    }
  }

  lemma {:induction false} IdsInNone(blocks: BlockMap, used: bool, lo: nat, hi: nat)
    requires forall id: nat :: lo <= id < hi ==> Used(blocks, id) != used
    ensures IdsIn(blocks, used, lo, hi) == []
    decreases hi
  {
    hide Used;
    if lo < hi {
      IdsInNone(blocks, used, lo, hi - 1);
    }
  }

  /** The first ID of a byte. */
  lemma ByteStart(block: nat, y: nat)
    requires y < BLOCK_BYTES
    ensures var id := block * BLOCK_IDS + y * 8; BlockOf(id) == block && ByteOf(id) == y && id % 8 == 0
    ensures block * BLOCK_IDS + y * 8 + 8 <= (block + 1) * BLOCK_IDS
  {
  }

  lemma SameByte(id: nat, j: nat)
    requires id % 8 == 0 && id <= j < id + 8
    ensures BlockOf(j) == BlockOf(id) && ByteOf(j) == ByteOf(id) && BitOf(j) == j - id
  {
    assert j / BLOCK_IDS == id / BLOCK_IDS && j % BLOCK_IDS / 8 == id % BLOCK_IDS / 8 && j % BLOCK_IDS % 8 == j - id;
  }

  /** Skipping a byte whose eight bits all differ from the wanted value loses nothing. */
  lemma SkipByte(blocks: BlockMap, used: bool, id: nat)
    requires BlockOf(id) in blocks && |blocks[BlockOf(id)]| == BLOCK_BYTES && id % 8 == 0
    requires blocks[BlockOf(id)][ByteOf(id)] == if used then 0x00 else 0xff
    ensures IdsIn(blocks, used, 0, id + 8) == IdsIn(blocks, used, 0, id)
  {
    forall j: nat | id <= j < id + 8
      ensures Used(blocks, j) != used
    {
      SameByte(id, j);
      UniformBytes(BitOf(j));
    }
    IdsInNone(blocks, used, id, id + 8);
    IdsInSplit(blocks, used, 0, id, id + 8);
  }

  /** The bit of `id` read from the byte that starts at `start`. */
  lemma ByteBit(blocks: BlockMap, start: nat, id: nat)
    requires BlockOf(start) in blocks && |blocks[BlockOf(start)]| == BLOCK_BYTES
    requires start % 8 == 0 && start <= id < start + 8
    ensures Used(blocks, id) <==> BitUsed(blocks[BlockOf(start)][ByteOf(start)], id - start)
  {
    SameByte(start, id);
  }

  lemma FullByte(blocks: BlockMap, start: nat)
    requires BlockOf(start) in blocks && |blocks[BlockOf(start)]| == BLOCK_BYTES && start % 8 == 0
    requires blocks[BlockOf(start)][ByteOf(start)] == 0xff
    ensures Used(blocks, start + 7)
  {
    ByteBit(blocks, start, start + 7);
    UniformBytes(7);
  }

  /** The used IDs below `bound`. */
  ghost function UsedBelow(blocks: BlockMap, bound: nat): set<nat> {
    set id: nat | id < bound && Used(blocks, id)
  }

  lemma UsedBelowNext(blocks: BlockMap, bound: nat)
    ensures |UsedBelow(blocks, bound + 1)| == |UsedBelow(blocks, bound)| + if Used(blocks, bound) then 1 else 0
  {
    hide Used;
    if Used(blocks, bound) {
      assert UsedBelow(blocks, bound + 1) == UsedBelow(blocks, bound) + {bound};
    } else {
      assert UsedBelow(blocks, bound + 1) == UsedBelow(blocks, bound);
    }
  }

  lemma {:induction false} CountUsed(blocks: BlockMap, bound: nat)
    ensures |IdsIn(blocks, true, 0, bound)| == |UsedBelow(blocks, bound)|
  {
    if bound > 0 {
      hide Used, UsedBelow;
      CountUsed(blocks, bound - 1);
      UsedBelowNext(blocks, bound - 1);
    }
  }

  lemma UsedBelowSize(blocks: BlockMap, bound: nat)
    ensures |UsedBelow(blocks, bound)| <= bound
    ensures |UsedBelow(blocks, bound)| == bound <==> forall id: nat :: id < bound ==> Used(blocks, id)
  {
    SubsetSize(UsedBelow(blocks, bound), Below(bound));
    if UsedBelow(blocks, bound) == Below(bound) {
      forall id: nat | id < bound
        ensures Used(blocks, id)
      {
        assert id in Below(bound);
      }
    }
  }

  /** What one bit write does to the set of used IDs and to its size. */
  lemma SetBitCount(blocks: BlockMap, count: nat, bound: nat, id: nat, used: bool)
    requires Shape(blocks, count) && BlockOf(id) < count && id < bound
    ensures UsedBelow(SetBit(blocks, id, used), bound) ==
            if used then UsedBelow(blocks, bound) + {id} else UsedBelow(blocks, bound) - {id}
    ensures |UsedBelow(SetBit(blocks, id, used), bound)| ==
            |UsedBelow(blocks, bound)| + (if Used(blocks, id) == used then 0 else if used then 1 else -1)
  {
    hide Used, SetBit;
    SetBitUsed(blocks, count, id, used);
    var after := UsedBelow(SetBit(blocks, id, used), bound);
    assert after == if used then UsedBelow(blocks, bound) + {id} else UsedBelow(blocks, bound) - {id};
    assert id in UsedBelow(blocks, bound) <==> Used(blocks, id);
  }

  /** Adding an empty block leaves every ID's status as it was. */
  lemma AddBlock(blocks: BlockMap, count: nat)
    requires Shape(blocks, count)
    ensures Shape(blocks[count := EmptyBlock()], count + 1)
    ensures forall j: nat :: Used(blocks[count := EmptyBlock()], j) <==> Used(blocks, j)
  {
    forall j: nat
      ensures Used(blocks[count := EmptyBlock()], j) <==> Used(blocks, j)
    {
      UniformBytes(BitOf(j));
    }
  }

  function EmptyBlock(): (b: seq<bv8>)
    ensures |b| == BLOCK_BYTES
  {
    seq(BLOCK_BYTES, _ => 0x00)
  }

  /** A longer scan only adds to the end of a shorter one. */
  lemma IdsInPrefix(blocks: BlockMap, used: bool, mid: nat, hi: nat)
    requires mid <= hi
    ensures IdsIn(blocks, used, 0, mid) <= IdsIn(blocks, used, 0, hi)
  {
    hide Used;
    IdsInSplit(blocks, used, 0, mid, hi);
  }

  /** Both orders list equally many IDs. */
  lemma {:induction false} IdsDownLength(blocks: BlockMap, used: bool, lo: nat, hi: nat)
    ensures |IdsDown(blocks, used, lo, hi)| == |IdsIn(blocks, used, lo, hi)|
    decreases hi - lo
  {
    hide Used;
    if lo < hi {
      IdsDownLength(blocks, used, lo + 1, hi);
      IdsInSplit(blocks, used, lo, lo + 1, hi);
      assert IdsIn(blocks, used, lo, lo) == [];
    }
  }
}
