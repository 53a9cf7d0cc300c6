/** Whole sequential runs of the free space map, and restarts. */
module FsmRuns {
  import opened Blocks
  import opened Collections
  import Allocator
  import ConcurrentFsm
  import FlagRace
  import FreeSpaceMaps
  import Provider

  datatype Op = Take | Release(id: nat)

  /** The event `op` is seen as. */
  ghost predicate Shows(op: Op, e: Allocator.Event) {
    if op.Take? then e.Alloc? else e == Allocator.Freed(op.id) || e == Allocator.Quiet
  }

  method RunOne(m: FreeSpaceMaps.FreeSpaceMap, op: Op) returns (ghost e: Allocator.Event)
    requires m.Safe() && m.Exact() && m.reuseEnabled && m.nextId < FreeSpaceMaps.U32_MAX
    modifies m
    ensures m.Safe() && m.Exact() && m.reuseEnabled
    ensures old(m.nextId) <= m.nextId <= old(m.nextId) + 1
    ensures Shows(op, e) && Allocator.TightStep(old(m.View()), e, m.View())
  {
    hide Used;
    ghost var before := m.View();
    if op.Take? {
      var id := m.NextId();
      e := Allocator.Alloc(id);
    } else {
      var _ := m.MarkFree(op.id);
      e := if op.id in before.used then Allocator.Freed(op.id) else Allocator.Quiet;
    }
  }

  method Fresh() returns (m: FreeSpaceMaps.FreeSpaceMap)
    ensures fresh(m) && m.Safe() && m.Exact() && m.reuseEnabled
    ensures m.View() == Allocator.State({}, 0, true)
  {
    hide Used;
    forall id: nat
      ensures !Used(map[], id)
    {
      NoBlocks(map[], id);
    }
    m := new FreeSpaceMaps.FreeSpaceMap(map[], 0, false, true);
    assert m.UsedIds() == {};
  }

  lemma ExtendTight(ss: seq<Allocator.State>, es: seq<Allocator.Event>, e: Allocator.Event, s: Allocator.State)
    requires Allocator.TightRun(ss, es) && Allocator.TightStep(ss[|es|], e, s)
    ensures Allocator.TightRun(ss + [s], es + [e])
  {
  }

  /** Any run of allocations and frees from a fresh map, with reuse on. At the end `nextId` is the
      largest number of IDs that were in use at once, and the accelerators agree with the bitmap. */
  method RunFresh(ops: seq<Op>)
    returns (m: FreeSpaceMaps.FreeSpaceMap, ghost ss: seq<Allocator.State>, ghost es: seq<Allocator.Event>)
    requires |ops| < FreeSpaceMaps.U32_MAX
    ensures m.Safe() && m.Exact()
    ensures Allocator.TightRun(ss, es) && |es| == |ops| && ss[|ops|] == m.View()
    ensures forall i :: 0 <= i < |ops| ==> Shows(ops[i], es[i])
    ensures m.nextId == Allocator.Peak(ss, |ss|)
  {
    hide Shows, Allocator.TightRun, Allocator.TightStep;
    m := Fresh();
    ss, es := [m.View()], [];
    assert Allocator.TightRun(ss, es) by {
      StartTight(ss[0]);
    }
    for i := 0 to |ops|
      invariant fresh(m) && m.Safe() && m.Exact() && m.reuseEnabled && m.nextId <= i
      invariant |es| == i && |ss| == i + 1 && Allocator.TightRun(ss, es) && ss[i] == m.View()
      invariant forall k :: 0 <= k < i ==> Shows(ops[k], es[k])
    {
      ghost var e := RunOne(m, ops[i]);
      ExtendTight(ss, es, e, m.View());
      ss, es := ss + [m.View()], es + [e];
    }
    Allocator.NextIdIsPeak(ss, es, |ops|);
  }

  lemma StartTight(s: Allocator.State)
    requires s.used == {} && s.nextId == 0
    ensures Allocator.TightRun([s], [])
  {
  }

  /** Opening a map over the blocks another one left behind: same used IDs, same count, same
      answer to "does this ID exist" for every ID, and the ID space shrunk to what is needed. */
  method Restart(m: FreeSpaceMaps.FreeSpaceMap, quantization: bool, reuse: bool) returns (n: FreeSpaceMaps.FreeSpaceMap)
    requires m.Safe()
    ensures fresh(n) && n.Safe() && n.Exact()
    ensures n.UsedIds() == m.UsedIds() && n.totalUsed == m.totalUsed
    ensures n.nextId <= m.nextId && n.maxBlock == m.maxBlock
    ensures n.nextId == 0 <==> m.UsedIds() == {}
    ensures n.nextId > 0 ==> n.nextId - 1 in m.UsedIds() && forall id :: id in m.UsedIds() ==> id < n.nextId
  {
    hide Used;
    n := new FreeSpaceMaps.FreeSpaceMap(m.blocks, m.maxBlock + 1, quantization, reuse);
    assert n.UsedIds() == m.UsedIds();
  }

  /** A map that is about to be shared between threads. */
  ghost function Shared(m: FreeSpaceMaps.FreeSpaceMap): ConcurrentFsm.State
    reads m
  {
    ConcurrentFsm.State(m.UsedIds(), m.nextId, m.maxBlock, m.fastFreeList, m.hasFreeIds, m.reuseEnabled, m.totalUsed,
                        None, map[])
  }

  /** Every state the sequential map gets into, a fresh or a reopened one in particular, is one
      that concurrent runs start from, with an honest flag. */
  lemma SharedIsInit(m: FreeSpaceMaps.FreeSpaceMap)
    requires m.Safe() && m.Exact()
    ensures ConcurrentFsm.Init(Shared(m)) && FlagRace.Honest(Shared(m))
  {
    hide Used, UsedBelow, Shape, Unique;
    forall id: nat
      ensures id in m.UsedIds() <==> id < m.nextId && Used(m.blocks, id)
    {
      UsedBelowMember(m.blocks, m.nextId, id);
    }
  }

  lemma UsedBelowMember(blocks: BlockMap, bound: nat, id: nat)
    ensures id in UsedBelow(blocks, bound) <==> id < bound && Used(blocks, id)
  {
    hide Used;
  }

  /** The provider's runs record the end of the backfill that the map records. */
  method TrainedAgrees(m: FreeSpaceMaps.FreeSpaceMap, ghost c: Provider.Config, ghost s: Provider.State,
                       ghost s': Provider.State)
    requires m.View() == s.alloc && Provider.TrainedStep(c, s, s')
    modifies m`maxIdForBackfill, m`quantizationEnabled
    ensures m.maxIdForBackfill == s'.fill.maxId && m.quantizationEnabled == s'.fill.quantOn
    ensures m.View() == s'.alloc
  {
    hide Used, UsedBelow;
    m.EnableQuantization();
  }
}
