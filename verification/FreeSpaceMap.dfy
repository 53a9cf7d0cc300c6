/**
 The sequential free space map: an ID allocator over the persistent bitmap, with its in-memory
 accelerators (the bounded free list, the "has free IDs" flag, the usage counter and the minter).
 Store operations succeed; IDs stay below 2^32 - 1.
 */
module FreeSpaceMaps {
  import opened Bits
  import opened Blocks
  import opened Collections
  import Allocator

  const U32_MAX: nat := 0xFFFF_FFFF

  /** Blocks for all 32-bit IDs. */
  const MAX_BLOCKS: nat := 65536

  datatype Result<+T> = Ok(value: T) | OutOfRange(id: nat)

  /** What fits in the bounded free list. */
  function Cap(s: seq<nat>): seq<nat> {
    if |s| <= Allocator.FAST_SIZE then s else s[..Allocator.FAST_SIZE]
  }

  /** The lowest free IDs are distinct and free, and there are none only if every ID is used. */
  lemma LowestFree(blocks: BlockMap, bound: nat)
    ensures Unique(Cap(IdsIn(blocks, false, 0, bound)))
    ensures forall i :: 0 <= i < |Cap(IdsIn(blocks, false, 0, bound))| ==>
              var id := Cap(IdsIn(blocks, false, 0, bound))[i]; id < bound && !Used(blocks, id)
    ensures Cap(IdsIn(blocks, false, 0, bound)) == [] ==> forall id: nat :: id < bound ==> Used(blocks, id)
  {
    hide Used, IdsIn;
    IdsInExact(blocks, false, 0, bound);
    var ids := IdsIn(blocks, false, 0, bound);
    forall i | 0 <= i < |Cap(ids)|
      ensures Cap(ids)[i] < bound && !Used(blocks, Cap(ids)[i])
    {
      assert ids[i] in ids;
    }
    forall id: nat | Cap(ids) == [] && id < bound
      ensures Used(blocks, id)
    {
      assert id !in ids;
    }
  }

  lemma ScanStart(blocks: BlockMap)
    ensures IdsIn(blocks, false, 0, 0) == []
  {
  }

  lemma ScanEnd(list: seq<nat>)
    requires |list| <= Allocator.FAST_SIZE
    ensures Cap(list) == list
  {
  }

  /** A refilled list fits, and list and flag agree with the bitmap. */
  lemma RefillAgrees(blocks: BlockMap, bound: nat, list: seq<nat>, found: bool)
    requires list == Cap(IdsIn(blocks, false, 0, bound)) && (found <==> list != [])
    ensures |list| <= Allocator.FAST_SIZE && forall i :: 0 <= i < |list| ==> list[i] < bound
    ensures Agrees(blocks, bound, list, found)
  {
    hide Used, IdsIn, Unique;
    LowestFree(blocks, bound);
  }

  /** Scanning past `bound` finds no more used IDs if there are none. */
  lemma UsedIdsComplete(blocks: BlockMap, bound: nat, top: nat)
    requires bound <= top && forall id: nat :: Used(blocks, id) ==> id < bound
    ensures IdsIn(blocks, true, 0, top) == IdsIn(blocks, true, 0, bound)
  {
    hide Used;
    IdsInSplit(blocks, true, 0, bound, top);
    IdsInNone(blocks, true, bound, top);
  }

  /** Pushing onto a full list drops the new entry. */
  lemma CapPush(s: seq<nat>, id: nat)
    ensures Cap(s + [id]) == if |Cap(s)| < Allocator.FAST_SIZE then Cap(s) + [id] else Cap(s)
  {
    if |s| >= Allocator.FAST_SIZE {
      assert (s + [id])[..Allocator.FAST_SIZE] == s[..Allocator.FAST_SIZE];
    }
  }

  /** A stop comes at the first false answer, and only then. */
  lemma {:induction false} VisitedStops(ids: seq<nat>, f: seq<nat> -> bool, n: nat)
    requires n <= |ids|
    ensures Visited(ids, f, n) <= ids
    ensures n <= |Visited(ids, f, n)|
    ensures forall k :: n < k < |Visited(ids, f, n)| ==> f(ids[..k])
    ensures Visited(ids, f, n) == ids || (|Visited(ids, f, n)| > n && !f(Visited(ids, f, n)))
    decreases |ids| - n
  {
    if n < |ids| && f(ids[..n + 1]) {
      VisitedStops(ids, f, n + 1);
    }
  }

  /** What a visitor that may stop early gets to see of `ids`: it is called with everything
      visited so far, the current ID last, and stops the visit by answering false. */
  function Visited(ids: seq<nat>, f: seq<nat> -> bool, n: nat): seq<nat>
    requires n <= |ids|
    decreases |ids| - n
  {
    if n == |ids| then ids
    else if f(ids[..n + 1]) then Visited(ids, f, n + 1)
    else ids[..n + 1]
  }

  /** State of a recovery scan that has looked, from the top down, at every ID from `p` on. */
  ghost predicate Loaded(blocks: BlockMap, list: seq<nat>, top: nat, p: nat, last: int, total: nat) {
    && p <= top
    && -1 <= last < top
    && (last >= 0 ==> p <= last && Used(blocks, last))
    && (forall id: nat :: p <= id < top && last < id ==> !Used(blocks, id))
    && total == |IdsDown(blocks, true, p, top)|
    && list == Cap(IdsDown(blocks, false, p, last + 1))
  }

  lemma LoadStart(blocks: BlockMap, top: nat)
    ensures Loaded(blocks, [], top, top, -1, 0)
  {
  }

  /** One more bit, read below everything seen so far. */
  lemma LoadStep(blocks: BlockMap, list: seq<nat>, top: nat, id: nat, last: int, total: nat)
    requires Loaded(blocks, list, top, id + 1, last, total)
    ensures Used(blocks, id) ==> Loaded(blocks, list, top, id, if last > id then last else id, total + 1)
    ensures !Used(blocks, id) ==>
              Loaded(blocks, if id < last && |list| < Allocator.FAST_SIZE then list + [id] else list,
                     top, id, last, total)
  {
    hide Used;
    if id < last {
      CapPush(IdsDown(blocks, false, id + 1, last + 1), id);
    } else if Used(blocks, id) {
      assert IdsDown(blocks, false, id, id + 1) == IdsDown(blocks, false, id + 1, id + 1);
    }
  }

  /** A finished recovery scan has found the highest used ID, counted the used ones and listed the
      free ones below it. */
  lemma LoadEnd(blocks: BlockMap, count: nat, list: seq<nat>, last: int, total: nat)
    requires Shape(blocks, count)
    requires Loaded(blocks, list, count * BLOCK_IDS, 0, last, total)
    ensures -1 <= last < count * BLOCK_IDS
    ensures forall id: nat :: Used(blocks, id) ==> id < last + 1
    ensures last >= 0 ==> Used(blocks, last)
    ensures total == |UsedBelow(blocks, last + 1)|
    ensures list == Cap(IdsDown(blocks, false, 0, last + 1))
    ensures |list| <= Allocator.FAST_SIZE && Unique(list)
    ensures forall i :: 0 <= i < |list| ==> list[i] < last + 1 && !Used(blocks, list[i])
    ensures list == [] ==> forall id: nat :: id < last + 1 ==> Used(blocks, id)
  {
    hide IdsDown;
    forall id: nat | Used(blocks, id)
      ensures id < last + 1
    {
      BlockInRange(id, count);
    }
    IdsDownLength(blocks, true, 0, count * BLOCK_IDS);
    UsedIdsComplete(blocks, last + 1, count * BLOCK_IDS);
    CountUsed(blocks, last + 1);
    HighestFree(blocks, last + 1);
  }

  /** The highest free IDs are distinct and free, and there are none only if every ID is used. */
  lemma HighestFree(blocks: BlockMap, bound: nat)
    ensures Unique(Cap(IdsDown(blocks, false, 0, bound)))
    ensures forall i :: 0 <= i < |Cap(IdsDown(blocks, false, 0, bound))| ==>
              var id := Cap(IdsDown(blocks, false, 0, bound))[i]; id < bound && !Used(blocks, id)
    ensures Cap(IdsDown(blocks, false, 0, bound)) == [] ==> forall id: nat :: id < bound ==> Used(blocks, id)
  {
    hide Used, IdsDown;
    IdsDownExact(blocks, false, 0, bound);
    var ids := IdsDown(blocks, false, 0, bound);
    forall i | 0 <= i < |Cap(ids)|
      ensures Cap(ids)[i] < bound && !Used(blocks, Cap(ids)[i])
    {
      assert ids[i] in ids;
    }
    forall id: nat | Cap(ids) == [] && id < bound
      ensures Used(blocks, id)
    {
      assert id !in ids;
    }
  }

  /** The free list holds distinct free IDs, and a lowered flag means there are none. */
  ghost predicate Agrees(blocks: BlockMap, nextId: nat, list: seq<nat>, hasFree: bool) {
    && Unique(list)
    && (forall i :: 0 <= i < |list| ==> !Used(blocks, list[i]))
    && (list != [] ==> hasFree)
    && (!hasFree ==> forall id: nat :: id < nextId ==> Used(blocks, id))
  }

  lemma FreeAgrees(blocks: BlockMap, count: nat, nextId: nat, list: seq<nat>, hasFree: bool, id: nat)
    requires Shape(blocks, count) && BlockOf(id) < count && id < nextId && Agrees(blocks, nextId, list, hasFree)
    ensures Used(blocks, id) ==>
              Agrees(SetBit(blocks, id, false), nextId,
                     if |list| < Allocator.FAST_SIZE then list + [id] else list, true)
    ensures !Used(blocks, id) ==> Agrees(SetBit(blocks, id, false), nextId, list, hasFree)
  {
    SetBitUsed(blocks, count, id, false);
    hide Used, SetBit, BlockOf, ByteOf, BitOf;
  }

  class FreeSpaceMap {
    var blocks: BlockMap
    var nextId: nat
    var maxBlock: nat
    var totalUsed: nat
    var hasFreeIds: bool
    var fastFreeList: seq<nat>
    var reuseEnabled: bool
    var quantizationEnabled: bool
    var maxIdForBackfill: nat

    /** The IDs in use: the abstract value of the map, together with `nextId`. */
    ghost function UsedIds(): set<nat>
      reads this
    {
      UsedBelow(blocks, nextId)
    }

    ghost function View(): Allocator.State
      reads this
    {
      Allocator.State(UsedIds(), nextId, reuseEnabled)
    }

    /** What holds even if the free list has stale or repeated entries. */
    ghost predicate Safe()
      reads this
    {
      && Shape(blocks, maxBlock + 1)
      && maxBlock < MAX_BLOCKS
      && nextId <= (maxBlock + 1) * BLOCK_IDS
      && nextId <= U32_MAX
      && (forall id: nat :: Used(blocks, id) ==> id < nextId)
      && totalUsed == |UsedIds()|
      && |fastFreeList| <= Allocator.FAST_SIZE
      && (forall i :: 0 <= i < |fastFreeList| ==> fastFreeList[i] < nextId)
    }

    /** The accelerators agree with the bitmap. */
    ghost predicate Exact()
      reads this
    {
      Agrees(blocks, nextId, fastFreeList, hasFreeIds)
    }

    /** Reads, modifies and writes one status bit without a range check. */
    method MarkIdUnchecked(id: nat, used: bool) returns (changed: bool)
      requires Shape(blocks, maxBlock + 1) && BlockOf(id) <= maxBlock
      requires used || totalUsed > 0 || !Used(blocks, id)
      modifies this`blocks, this`totalUsed, this`fastFreeList, this`hasFreeIds
      ensures changed <==> old(Used(blocks, id)) != used
      ensures blocks == SetBit(old(blocks), id, used)
      ensures totalUsed == old(totalUsed) + (if !changed then 0 else if used then 1 else -1)
      ensures fastFreeList == if changed && !used && |old(fastFreeList)| < Allocator.FAST_SIZE
                              then old(fastFreeList) + [id] else old(fastFreeList)
      ensures hasFreeIds == (old(hasFreeIds) || (changed && !used))
    {
      SetBitUsed(blocks, maxBlock + 1, id, used);
      changed := UpdateStatus(used, blocks[BlockOf(id)][ByteOf(id)], BitOf(id)).1;
      blocks := SetBit(blocks, id, used);
      if changed {
        totalUsed := if used then totalUsed + 1 else totalUsed - 1;
      }
      if !used && changed {
        if |fastFreeList| < Allocator.FAST_SIZE {
          fastFreeList := fastFreeList + [id];
        }
        hasFreeIds := true;
      }
    }

    /** Marks an ID used or free; the ID must have been handed out before. */
    method MarkId(id: nat, used: bool) returns (r: Result<bool>)
      requires Safe()
      modifies this`blocks, this`totalUsed, this`fastFreeList, this`hasFreeIds
      ensures Safe()
      ensures r == if id < nextId then Ok((id in old(UsedIds())) != used) else OutOfRange(id)
      ensures r.Ok? ==> BlockOf(id) in old(blocks) && |old(blocks)[BlockOf(id)]| == BLOCK_BYTES
      ensures blocks == if r.Ok? then SetBit(old(blocks), id, used) else old(blocks)
      ensures fastFreeList == if r == Ok(true) && !used && |old(fastFreeList)| < Allocator.FAST_SIZE
                              then old(fastFreeList) + [id] else old(fastFreeList)
      ensures hasFreeIds == (old(hasFreeIds) || (r == Ok(true) && !used))
    {
      hide Used, SetBit, BlockOf, ByteOf, BitOf;
      BlockInRange(id, maxBlock + 1);
      if id >= nextId {
        return OutOfRange(id);
      }
      SetBitUsed(blocks, maxBlock + 1, id, used);
      SetBitCount(blocks, maxBlock + 1, nextId, id, used);
      assert Used(blocks, id) ==> id in UsedIds();
      var changed := MarkIdUnchecked(id, used);
      r := Ok(changed);
    }

    /** Frees an ID. Freeing one that is already free changes nothing. */
    method MarkFree(id: nat) returns (r: Result<()>)
      requires Safe()
      modifies this`blocks, this`totalUsed, this`fastFreeList, this`hasFreeIds
      ensures Safe()
      ensures r == if id < nextId then Ok(()) else OutOfRange(id)
      ensures UsedIds() == old(UsedIds()) - {id}
      ensures Allocator.Step(old(View()), if id in old(UsedIds()) then Allocator.Freed(id) else Allocator.Quiet, View())
      ensures old(Exact()) ==> Exact()
      ensures id !in old(UsedIds()) ==> fastFreeList == old(fastFreeList)
      ensures id in old(UsedIds()) ==> fastFreeList == Cap(old(fastFreeList) + [id]) && hasFreeIds
    {
      hide Used, SetBit, BlockOf, ByteOf, BitOf, Agrees;
      BlockInRange(id, maxBlock + 1);
      if id < nextId {
        SetBitCount(blocks, maxBlock + 1, nextId, id, false);
        if Exact() {
          FreeAgrees(blocks, maxBlock + 1, nextId, fastFreeList, hasFreeIds, id);
        }
      }
      var changed := MarkId(id, false);
      r := if changed.Ok? then Ok(()) else OutOfRange(id);
    }

    /** Whether a handed-out ID is free. */
    method IsFree(id: nat) returns (r: Result<bool>)
      requires Safe()
      ensures r == if id < nextId then Ok(id !in UsedIds()) else OutOfRange(id)
    {
      if id >= nextId {
        return OutOfRange(id);
      }
      r := Ok(!BitUsed(blocks[BlockOf(id)][ByteOf(id)], BitOf(id)));
    }

    /** Whether the provider counts an internal ID as existing. */
    method VectorIidExists(id: nat) returns (found: bool)
      requires Safe()
      ensures found <==> id in UsedIds()
    {
      var free := IsFree(id);
      found := free.Ok? && !free.value;
    }

    /** Creates the block that holds `id` if it is the first or the next one. */
    method ExpandTo(id: nat) returns (r: Result<()>)
      requires Shape(blocks, BlockCount())
      requires if maxBlock == U32_MAX then BlockOf(id) == 0 else maxBlock < MAX_BLOCKS
      modifies this`blocks, this`maxBlock
      ensures r == if BlockOf(id) <= old(BlockCount()) then Ok(()) else OutOfRange(id)
      ensures Shape(blocks, BlockCount())
      ensures r.Ok? ==> BlockOf(id) < BlockCount()
      ensures BlockCount() == if BlockOf(id) == old(BlockCount()) then old(BlockCount()) + 1 else old(BlockCount())
      ensures maxBlock != U32_MAX || (maxBlock == old(maxBlock) && BlockOf(id) > 0)
      ensures forall j: nat :: Used(blocks, j) <==> old(Used(blocks, j))
    {
      hide Used, EmptyBlock;
      AddBlock(blocks, BlockCount());
      if maxBlock == U32_MAX || BlockOf(id) == maxBlock + 1 {
        blocks := blocks[BlockOf(id) := EmptyBlock()];
        maxBlock := if maxBlock == U32_MAX then 0 else maxBlock + 1;
      } else if BlockOf(id) > maxBlock + 1 {
        return OutOfRange(id);
      }
      r := Ok(());
    }

    /** No block exists while `maxBlock` is the sentinel. */
    ghost function BlockCount(): nat
      reads this
    {
      if maxBlock == U32_MAX then 0 else maxBlock + 1
    }

    /** State of a refill scan that has looked at every ID below `id`. */
    ghost predicate Scanned(id: nat, found: bool)
      reads this
    {
      && id <= nextId
      && fastFreeList == IdsIn(blocks, false, 0, id)
      && |fastFreeList| <= Allocator.FAST_SIZE
      && (found <==> fastFreeList != [])
      && (found ==> hasFreeIds)
    }

    /** State of a refill scan that is over. */
    ghost predicate Refilled(found: bool)
      reads this
    {
      && fastFreeList == Cap(IdsIn(blocks, false, 0, nextId))
      && (found <==> fastFreeList != [])
      && (found ==> hasFreeIds)
    }

    /** Scans the eight bits of the byte that starts at `start`. */
    method RefillByte(start: nat, wasFound: bool) returns (id: nat, found: bool, stop: bool)
      requires Scanned(start, wasFound) && start % 8 == 0 && start < nextId
      requires BlockOf(start) in blocks && |blocks[BlockOf(start)]| == BLOCK_BYTES
      modifies this`fastFreeList, this`hasFreeIds
      ensures if stop then Refilled(found) else id == start + 8 && Scanned(id, found)
    {
      hide Used, BlockOf, ByteOf;
      id, found, stop := start, wasFound, false;
      var byte := blocks[BlockOf(start)][ByteOf(start)];
      for bidx := 0 to 8
        invariant id == start + bidx && Scanned(id, found)
      {
        if id >= nextId {
          return id, found, true;
        }
        IdsInPrefix(blocks, false, id + 1, nextId);
        ByteBit(blocks, start, id);
        if !BitUsed(byte, bidx) {
          found := true;
          hasFreeIds := true;
          if |fastFreeList| == Allocator.FAST_SIZE {
            return id, found, true;
          }
          fastFreeList := fastFreeList + [id];
        }
        id := id + 1;
      }
    }

    /** Scans one block, skipping full bytes. */
    method RefillBlock(blockId: nat, wasFound: bool) returns (id: nat, found: bool, stop: bool)
      requires blockId in blocks && |blocks[blockId]| == BLOCK_BYTES
      requires Scanned(blockId * BLOCK_IDS, wasFound) && forall j: nat :: Used(blocks, j) ==> j < nextId
      modifies this`fastFreeList, this`hasFreeIds
      ensures if stop then Refilled(found) else id == blockId * BLOCK_IDS + BLOCK_IDS && Scanned(id, found)
    {
      hide Used, BitUsed, BlockOf, ByteOf;
      id, found, stop := blockId * BLOCK_IDS, wasFound, false;
      for y := 0 to BLOCK_BYTES
        invariant id == blockId * BLOCK_IDS + y * 8 && Scanned(id, found)
      {
        if id >= nextId {
          return id, found, true;
        }
        ByteStart(blockId, y);
        if blocks[blockId][y] == 0xff {
          SkipByte(blocks, false, id);
          FullByte(blocks, id);
          id := id + 8;
        } else {
          id, found, stop := RefillByte(id, found);
          if stop {
            return;
          }
        }
      }
    }

    /** Scans the blocks up to `nextId` or until the list is full. */
    method RefillScan() returns (found: bool)
      requires Shape(blocks, maxBlock + 1) && nextId <= (maxBlock + 1) * BLOCK_IDS
      requires (forall id: nat :: Used(blocks, id) ==> id < nextId) && fastFreeList == []
      modifies this`fastFreeList, this`hasFreeIds
      ensures Refilled(found)
    {
      hide Used, Cap;
      ScanStart(blocks);
      hide IdsIn;
      found := false;
      var id := 0;
      for blockId := 0 to maxBlock + 1
        invariant id == blockId * BLOCK_IDS && Scanned(id, found)
      {
        if id >= nextId {
          break;
        }
        var stop;
        id, found, stop := RefillBlock(blockId, found);
        if stop {
          return;
        }
      }
      ScanEnd(fastFreeList);
    }

    /** Refills an empty free list with the lowest free IDs below `nextId`; leaves a non-empty
        one alone. */
    method RefillFastFreeList() returns (found: bool)
      requires Safe()
      modifies this`fastFreeList, this`hasFreeIds
      ensures fastFreeList == if old(fastFreeList) != [] then old(fastFreeList)
                              else Cap(IdsIn(blocks, false, 0, nextId))
      ensures found <==> fastFreeList != []
      ensures hasFreeIds == if old(fastFreeList) != [] then old(hasFreeIds) else found
      ensures Safe()
      ensures old(fastFreeList) == [] ==> Exact()
    {
      hide Used, IdsIn, UsedBelow, Cap, Agrees;
      if fastFreeList != [] {
        return true;
      }
      found := RefillScan();
      if !found {
        hasFreeIds := false;
      }
      RefillAgrees(blocks, nextId, fastFreeList, found);
    }

    /** Takes the oldest entry off the free list and marks it used; `changed` says whether it
        really was free. */
    method TakeFirst() returns (id: nat, changed: bool)
      requires Safe() && fastFreeList != []
      modifies this`blocks, this`totalUsed, this`fastFreeList, this`hasFreeIds
      ensures Safe() && id == old(fastFreeList)[0] && id < nextId
      ensures changed <==> id !in old(UsedIds())
      ensures fastFreeList == old(fastFreeList)[1..] && hasFreeIds == old(hasFreeIds)
      ensures UsedIds() == old(UsedIds()) + {id}
      ensures !changed ==> blocks == old(blocks)
      ensures old(Exact()) ==> changed && Exact()
    {
      hide Used, SetBit, BlockOf, ByteOf, BitOf;
      id := fastFreeList[0];
      BlockInRange(id, maxBlock + 1);
      SetBitUsed(blocks, maxBlock + 1, id, true);
      SetBitCount(blocks, maxBlock + 1, nextId, id, true);
      if Used(blocks, id) {
        SetBitIdle(blocks, id, true);
      }
      fastFreeList := fastFreeList[1..];
      var r := MarkId(id, true);
      changed := r == Ok(true);
    }

    /** Takes IDs off the free list until marking one used changes its bit, refilling the list
        when it runs empty. */
    method TakeFree() returns (r: Option<nat>)
      requires Safe()
      modifies this`blocks, this`totalUsed, this`fastFreeList, this`hasFreeIds
      ensures Safe()
      ensures r.None? ==>
                && blocks == old(blocks) && fastFreeList == [] && !hasFreeIds
                && forall id: nat :: id < nextId ==> Used(blocks, id)
      ensures r.Some? ==> r.value < nextId && r.value !in old(UsedIds()) && UsedIds() == old(UsedIds()) + {r.value}
      ensures old(Exact()) || old(fastFreeList) == [] ==> Exact()
      ensures old(Exact()) && old(fastFreeList) != [] ==>
                r == Some(old(fastFreeList)[0]) && fastFreeList == old(fastFreeList)[1..]
      ensures old(fastFreeList) == [] && r.Some? ==>
                var lowest := IdsIn(old(blocks), false, 0, nextId);
                lowest != [] && r.value == lowest[0] && fastFreeList == Cap(lowest)[1..]
    {
      hide Used, UsedBelow, IdsIn;
      while true
        invariant Safe() && blocks == old(blocks)
        invariant old(Exact()) || old(fastFreeList) == [] ==> fastFreeList == old(fastFreeList)
        invariant old(Exact()) ==> Exact()
        decreases |fastFreeList|
      {
        if fastFreeList == [] {
          var found := RefillFastFreeList();
          if !found {
            return None;
          }
        }
        var id, changed := TakeFirst();
        if changed {
          return Some(id);
        }
      }
    }

    /** Mints the next new ID and marks it used. */
    method Mint() returns (id: nat)
      requires Safe() && nextId < U32_MAX
      modifies this`blocks, this`totalUsed, this`nextId, this`maxBlock, this`fastFreeList, this`hasFreeIds
      ensures Safe() && id == old(nextId) && nextId == old(nextId) + 1
      ensures UsedIds() == old(UsedIds()) + {id}
      ensures fastFreeList == old(fastFreeList) && hasFreeIds == old(hasFreeIds)
      ensures old(Exact()) ==> Exact()
    {
      hide Used, SetBit, ByteOf, BitOf;
      id := nextId;
      assert !Used(blocks, id);
      nextId := nextId + 1;
      var expanded := ExpandTo(id);
      BlockInRange(id, maxBlock + 1);
      assert UsedIds() == old(UsedIds());
      SetBitUsed(blocks, maxBlock + 1, id, true);
      SetBitCount(blocks, maxBlock + 1, nextId, id, true);
      var _ := MarkIdUnchecked(id, true);
    }

    /** Hands out an ID nobody holds: a freed one if reuse is on and one exists, else a new one. */
    method NextId() returns (id: nat)
      requires Safe() && nextId < U32_MAX
      modifies this`blocks, this`totalUsed, this`nextId, this`maxBlock, this`fastFreeList, this`hasFreeIds
      ensures Safe()
      ensures Allocator.Step(old(View()), Allocator.Alloc(id), View())
      ensures old(Exact()) ==> Exact()
      ensures old(Exact()) && reuseEnabled ==> Allocator.TightAlloc(old(View()), id, View())
      ensures old(Exact()) && reuseEnabled && old(fastFreeList) != [] ==>
                id == old(fastFreeList)[0] && fastFreeList == old(fastFreeList)[1..]
      ensures old(Exact()) && reuseEnabled && id == old(nextId) ==> fastFreeList == [] && !hasFreeIds
      ensures old(fastFreeList) == [] && id < old(nextId) ==>
                var lowest := IdsIn(old(blocks), false, 0, old(nextId));
                lowest != [] && id == lowest[0] && fastFreeList == Cap(lowest)[1..]
      ensures !reuseEnabled ==> fastFreeList == old(fastFreeList) && hasFreeIds == old(hasFreeIds)
    {
      hide Used, IdsIn;
      UsedBelowSize(blocks, nextId);
      if reuseEnabled && hasFreeIds {
        var taken := TakeFree();
        if taken.Some? {
          return taken.value;
        }
      }
      id := Mint();
    }

    /** State of a visit that has looked at every ID below `id` and not been stopped. */
    ghost predicate VisitedTo(f: seq<nat> -> bool, id: nat, seen: seq<nat>)
      reads this
    {
      var all := IdsIn(blocks, true, 0, TopId());
      && id <= TopId()
      && seen == IdsIn(blocks, true, 0, id)
      && seen <= all
      && Visited(all, f, 0) == Visited(all, f, |seen|)
    }

    /** The first ID past the last block. */
    ghost function TopId(): nat
      reads this
    {
      (maxBlock + 1) * BLOCK_IDS
    }

    method VisitByte(f: seq<nat> -> bool, start: nat, before: seq<nat>) returns (seen: seq<nat>, stop: bool)
      requires VisitedTo(f, start, before) && start % 8 == 0 && start + 8 <= TopId()
      requires BlockOf(start) in blocks && |blocks[BlockOf(start)]| == BLOCK_BYTES
      ensures if stop then seen == Visited(IdsIn(blocks, true, 0, TopId()), f, 0) else VisitedTo(f, start + 8, seen)
    {
      hide Used, BlockOf, ByteOf;
      seen, stop := before, false;
      var byte := blocks[BlockOf(start)][ByteOf(start)];
      for bidx := 0 to 8
        invariant VisitedTo(f, start + bidx, seen)
      {
        ByteBit(blocks, start, start + bidx);
        IdsInPrefix(blocks, true, start + bidx + 1, TopId());
        if BitUsed(byte, bidx) {
          seen := seen + [start + bidx];
          assert IdsIn(blocks, true, 0, TopId())[..|seen|] == seen;
          if !f(seen) {
            return seen, true;
          }
        }
      }
    }

    method VisitBlock(f: seq<nat> -> bool, blockId: nat, before: seq<nat>) returns (seen: seq<nat>, stop: bool)
      requires blockId in blocks && |blocks[blockId]| == BLOCK_BYTES && blockId <= maxBlock
      requires VisitedTo(f, blockId * BLOCK_IDS, before)
      ensures if stop then seen == Visited(IdsIn(blocks, true, 0, TopId()), f, 0)
              else VisitedTo(f, blockId * BLOCK_IDS + BLOCK_IDS, seen)
    {
      hide Used, BitUsed, IdsIn, Visited, BlockOf, ByteOf;
      seen, stop := before, false;
      for y := 0 to BLOCK_BYTES
        invariant VisitedTo(f, blockId * BLOCK_IDS + y * 8, seen)
      {
        var id := blockId * BLOCK_IDS + y * 8;
        ByteStart(blockId, y);
        if blocks[blockId][y] == 0x00 {
          SkipByte(blocks, true, id);
        } else {
          seen, stop := VisitByte(f, id, seen);
          if stop {
            return;
          }
        }
      }
    }

    /** Calls `f` on the used IDs in increasing order until it answers false. */
    method VisitUsed(f: seq<nat> -> bool) returns (seen: seq<nat>)
      requires Safe()
      ensures seen == Visited(IdsIn(blocks, true, 0, nextId), f, 0)
    {
      hide Used, BitUsed, BlockOf, ByteOf, BitOf;
      UsedIdsComplete(blocks, nextId, TopId());
      seen := [];
      for blockId := 0 to maxBlock + 1
        invariant VisitedTo(f, blockId * BLOCK_IDS, seen)
      {
        var stop;
        seen, stop := VisitBlock(f, blockId, seen);
        if stop {
          return;
        }
      }
    }

    method LoadByte(top: nat, start: nat, last0: int, total0: nat) returns (last: int, total: nat)
      requires start % 8 == 0 && BlockOf(start) in blocks && |blocks[BlockOf(start)]| == BLOCK_BYTES
      requires Loaded(blocks, fastFreeList, top, start + 8, last0, total0)
      modifies this`fastFreeList
      ensures Loaded(blocks, fastFreeList, top, start, last, total)
    {
      hide Used, BlockOf, ByteOf, Loaded;
      last, total := last0, total0;
      var byte := blocks[BlockOf(start)][ByteOf(start)];
      var id := start + 7;
      for bidx := 8 downto 0
        invariant Loaded(blocks, fastFreeList, top, start + bidx, last, total)
        invariant id == if start + bidx == 0 then 0 else start + bidx - 1
      {
        ByteBit(blocks, start, id);
        LoadStep(blocks, fastFreeList, top, id, last, total);
        if BitUsed(byte, bidx) {
          last := if last > id then last else id;
          total := total + 1;
        } else if id < last && |fastFreeList| < Allocator.FAST_SIZE {
          fastFreeList := fastFreeList + [id];
        }
        id := if id == 0 then 0 else id - 1;
      }
    }

    method LoadBlock(top: nat, blockId: nat, last0: int, total0: nat) returns (last: int, total: nat)
      requires blockId in blocks && |blocks[blockId]| == BLOCK_BYTES
      requires Loaded(blocks, fastFreeList, top, blockId * BLOCK_IDS + BLOCK_IDS, last0, total0)
      modifies this`fastFreeList
      ensures Loaded(blocks, fastFreeList, top, blockId * BLOCK_IDS, last, total)
    {
      hide Used, BitUsed, Loaded;
      last, total := last0, total0;
      for y := BLOCK_BYTES downto 0
        invariant Loaded(blocks, fastFreeList, top, blockId * BLOCK_IDS + y * 8, last, total)
      {
        Position(blockId * BLOCK_IDS + y * 8, blockId, y, 0);
        last, total := LoadByte(top, blockId * BLOCK_IDS + y * 8, last, total);
      }
    }

    /** Rebuilds the in-memory state from the stored blocks. */
    method LoadState(ghost count: nat)
      requires Shape(blocks, count) && 0 < count <= MAX_BLOCKS
      requires forall id: nat :: Used(blocks, id) ==> id < U32_MAX
      requires fastFreeList == [] && !hasFreeIds
      modifies this`nextId, this`maxBlock, this`totalUsed, this`fastFreeList, this`hasFreeIds
      ensures Safe() && Exact()
      ensures maxBlock == count - 1
      ensures forall id: nat :: id in UsedIds() <==> Used(blocks, id)
      ensures nextId > 0 ==> Used(blocks, nextId - 1)
      ensures fastFreeList == Cap(IdsDown(blocks, false, 0, nextId))
    {
      hide Used, BitUsed, BlockOf, ByteOf, BitOf, IdsDown, Loaded;
      var blockCount := 0;
      while blockCount in blocks
        invariant blockCount <= count
        decreases count - blockCount
      {
        blockCount := blockCount + 1;
      }
      var top := blockCount * BLOCK_IDS;
      var last, total := -1, 0;
      LoadStart(blocks, top);
      for blockId := blockCount downto 0
        invariant Loaded(blocks, fastFreeList, top, blockId * BLOCK_IDS, last, total)
      {
        last, total := LoadBlock(top, blockId, last, total);
      }
      LoadEnd(blocks, count, fastFreeList, last, total);
      maxBlock := blockCount - 1;
      nextId := last + 1;
      totalUsed := total;
      if fastFreeList != [] {
        hasFreeIds := true;
      }
    }

    /** Opens the map over what the store holds: recovers it if there is a first block, else
        starts an empty one. */
    constructor (stored: BlockMap, ghost count: nat, quantizationEnabled: bool, reuseEnabled: bool)
      requires Shape(stored, count) && count <= MAX_BLOCKS
      requires forall id: nat :: Used(stored, id) ==> id < U32_MAX
      ensures Safe() && Exact()
      ensures forall id: nat :: id in UsedIds() <==> Used(stored, id)
      ensures forall id: nat :: Used(blocks, id) <==> Used(stored, id)
      ensures nextId > 0 ==> nextId - 1 in UsedIds()
      ensures maxBlock == if count == 0 then 0 else count - 1
      ensures fastFreeList == Cap(IdsDown(blocks, false, 0, nextId))
      ensures this.reuseEnabled == reuseEnabled && this.quantizationEnabled == quantizationEnabled
      ensures maxIdForBackfill == U32_MAX
    {
      blocks := stored;
      nextId, maxBlock, totalUsed := 0, U32_MAX, 0;
      hasFreeIds, fastFreeList := false, [];
      this.reuseEnabled, this.quantizationEnabled, maxIdForBackfill := reuseEnabled, quantizationEnabled, U32_MAX;
      new;
      hide Used, IdsDown;
      if 0 in blocks {
        LoadState(count);
      } else {
        forall id: nat
          ensures !Used(blocks, id)
        {
          NoBlocks(blocks, id);
        }
        var _ := ExpandTo(0);
      }
    }

    /** The highest ID handed out so far, or 0. */
    function MaxId(): nat
      reads this
    {
      if nextId == 0 then 0 else nextId - 1
    }

    /** New IDs are to be quantized from now on; the ones so far are left to the backfill. */
    method EnableQuantization()
      modifies this`maxIdForBackfill, this`quantizationEnabled
      ensures quantizationEnabled
      ensures nextId > 0 ==> maxIdForBackfill < nextId <= maxIdForBackfill + 1
      ensures nextId == 0 ==> maxIdForBackfill == 0
      ensures Safe() ==> forall id :: id in UsedIds() ==> id <= maxIdForBackfill
    {
      maxIdForBackfill := MaxId();
      quantizationEnabled := true;
    }

    method EnableReuse()
      requires Safe()
      modifies this`reuseEnabled
      ensures reuseEnabled && Safe() && (old(Exact()) ==> Exact())
      ensures Allocator.Step(old(View()), Allocator.ReuseOn, View())
    {
      reuseEnabled := true;
    }
  }
}
