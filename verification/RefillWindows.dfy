/**
 What a refill that found nothing has seen. It reads the bounds at one moment and one block at a
 time after that, while other threads go on; whether nothing is free when it is done depends on
 what was freed and taken again in between, and on nothing else.
 */
module RefillWindows {
  import opened Blocks
  import opened Collections
  import opened ConcurrentFsm
  import Allocator

  ghost predicate AllUsed(s: State) {
    forall id :: 0 <= id < s.nextId ==> id in s.used
  }

  // ---- Which thread moved ----

  /** In the middle of a refill that has found nothing so far. */
  predicate Scanning(pc: Pc) {
    (pc.RefillRead? && !pc.found) || pc == RefillDone(false)
  }

  lemma CallsMove(s: State, t: Tid, e: Allocator.Event, s': State)
    requires t in s.threads && (TakeStep(s, t, e, s') || MintStep(s, t, e, s') || ClearStep(s, t, e, s'))
    ensures OnlyMoved(s.threads, s'.threads, t) && (t in s'.threads ==> !Scanning(s'.threads[t]))
  {
    hide Outside;
  }

  /** One thread moves, and the minter's bounds stay. */
  ghost predicate MovesOne(s: State, t: Tid, s': State) {
    OnlyMoved(s.threads, s'.threads, t) && s'.nextId == s.nextId && s'.maxBlock == s.maxBlock
  }

  lemma LookMoves(s: State, t: Tid, s': State)
    requires t in s.threads && LookStep(s, t, s')
    ensures MovesOne(s, t, s') && (t in s'.threads ==> !Scanning(s'.threads[t]))
  {
  }

  lemma RefillMoves(s: State, t: Tid, s': State)
    requires t in s.threads && RefillStep(s, t, s')
    ensures MovesOne(s, t, s')
    ensures t in s'.threads && Scanning(s'.threads[t]) ==>
              && s.threads[t] == RefillBounds
              && s' == At(s, t, if s.nextId > 0 then RefillRead(0, s.maxBlock, s.nextId, false) else RefillDone(false))
  {
  }

  lemma ScanStepMoves(s: State, t: Tid, s': State)
    requires t in s.threads && ScanStep(s, t, s')
    ensures MovesOne(s, t, s')
    ensures t in s'.threads && Scanning(s'.threads[t]) ==>
              && s.threads[t].RefillRead? && !s.threads[t].found
              && FreeOfBlock(s.used, s.threads[t].block, s.threads[t].bound, [])
              && s' == At(s, t, AfterBlock(s.threads[t].block, s.threads[t].lastBlock, s.threads[t].bound, false))
  {
    hide FreeOfBlock;
  }

  lemma PublishMoves(s: State, t: Tid, s': State)
    requires t in s.threads && PublishStep(s, t, s')
    ensures MovesOne(s, t, s') && (t in s'.threads ==> !Scanning(s'.threads[t]))
  {
  }

  lemma LookupsMove(s: State, t: Tid, s': State)
    requires t in s.threads
    requires LookStep(s, t, s') || RefillStep(s, t, s') || ScanStep(s, t, s') || PublishStep(s, t, s')
    ensures MovesOne(s, t, s')
  {
    hide LookStep, RefillStep, ScanStep, PublishStep, MovesOne, Scanning, FreeOfBlock, AfterBlock;
    if LookStep(s, t, s') {
      LookMoves(s, t, s');
    } else if RefillStep(s, t, s') {
      RefillMoves(s, t, s');
    } else if ScanStep(s, t, s') {
      ScanStepMoves(s, t, s');
    } else {
      PublishMoves(s, t, s');
    }
  }

  /** A thread is where it was, unless the step was its own. */
  lemma Moved(s: State, e: Allocator.Event, s': State, t: Tid)
    requires Step(s, e, s') && t in s.threads
    ensures (t in s'.threads && s'.threads[t] == s.threads[t]) || ThreadStep(s, t, e, s')
  {
    hide LookStep, RefillStep, ScanStep, TakeStep, MintStep, ClearStep, PublishStep;
    if u :| u in s.threads && ThreadStep(s, u, e, s') {
      if TakeStep(s, u, e, s') || MintStep(s, u, e, s') || ClearStep(s, u, e, s') {
        CallsMove(s, u, e, s');
      } else {
        LookupsMove(s, u, s');
      }
    }
  }

  /** A thread that was not there has just started a call. */
  lemma Started(s: State, e: Allocator.Event, s': State, t: Tid)
    requires Step(s, e, s') && t !in s.threads && t in s'.threads
    ensures s'.threads[t] == LoadReuse || s'.threads[t].FreeCheck?
  {
    hide LookStep, RefillStep, ScanStep, TakeStep, MintStep, ClearStep, PublishStep;
    if u :| u in s.threads && ThreadStep(s, u, e, s') {
      if TakeStep(s, u, e, s') || MintStep(s, u, e, s') || ClearStep(s, u, e, s') {
        CallsMove(s, u, e, s');
      } else {
        LookupsMove(s, u, s');
      }
    }
  }

  // ---- The scan ----

  /** Thread `t` reads the bounds at `a` and has found nothing up to `b`. */
  ghost predicate ScansFrom(ss: seq<State>, t: Tid, a: nat, b: nat) {
    && a < b < |ss| && t in ss[a].threads && ss[a].threads[t] == RefillBounds
    && forall j :: a < j <= b ==> t in ss[j].threads && Scanning(ss[j].threads[t])
  }

  /** Thread `t` reads the bounds at `a`, finds nothing, and lowers the flag at `b`. */
  ghost predicate Window(ss: seq<State>, t: Tid, a: nat, b: nat) {
    && b + 1 < |ss| && ScansFrom(ss, t, a, b) && ss[b].threads[t] == RefillDone(false)
    && t in ss[b + 1].threads && ss[b + 1].threads[t] == RefillUnlock(false)
  }

  /** A step of the scan itself. */
  lemma ScanMoves(s: State, t: Tid, e: Allocator.Event, s': State)
    requires t in s.threads && ThreadStep(s, t, e, s') && t in s'.threads && Scanning(s'.threads[t])
    ensures || (&& s.threads[t] == RefillBounds
                && s' == At(s, t, if s.nextId > 0 then RefillRead(0, s.maxBlock, s.nextId, false)
                                  else RefillDone(false)))
            || (&& s.threads[t].RefillRead? && !s.threads[t].found
                && FreeOfBlock(s.used, s.threads[t].block, s.threads[t].bound, [])
                && s' == At(s, t, AfterBlock(s.threads[t].block, s.threads[t].lastBlock, s.threads[t].bound, false)))
  {
    hide LookStep, RefillStep, ScanStep, TakeStep, MintStep, ClearStep, PublishStep;
    hide MovesOne, Scanning, FreeOfBlock, AfterBlock;
    if TakeStep(s, t, e, s') || MintStep(s, t, e, s') || ClearStep(s, t, e, s') {
      CallsMove(s, t, e, s');
    } else if LookStep(s, t, s') {
      LookMoves(s, t, s');
    } else if RefillStep(s, t, s') {
      RefillMoves(s, t, s');
    } else if ScanStep(s, t, s') {
      ScanStepMoves(s, t, s');
    } else {
      PublishMoves(s, t, s');
    }
  }

  /** Every scan in progress has begun. */
  lemma {:induction false} ScanBegan(ss: seq<State>, es: seq<Allocator.Event>, t: Tid, b: nat)
    requires Run(ss, es) && b < |ss| && t in ss[b].threads && Scanning(ss[b].threads[t])
    ensures exists a :: ScansFrom(ss, t, a, b)
  {
    hide Step, ThreadStep, Scanning;
    if b == 0 {
      assert false;
    } else {
      assert Step(ss[b - 1], es[b - 1], ss[b]);
      if t !in ss[b - 1].threads {
        Started(ss[b - 1], es[b - 1], ss[b], t);
        NotScanning(ss[b].threads[t]);
        assert false;
      } else if Scanning(ss[b - 1].threads[t]) {
        ScanBegan(ss, es, t, b - 1);
        var a :| ScansFrom(ss, t, a, b - 1);
        assert ScansFrom(ss, t, a, b);
      } else {
        Moved(ss[b - 1], es[b - 1], ss[b], t);
        ScanMoves(ss[b - 1], t, es[b - 1], ss[b]);
        ReadScans(ss[b - 1].threads[t]);
        assert ScansFrom(ss, t, b - 1, b);
      }
    }
  }

  lemma NotScanning(pc: Pc)
    requires pc == LoadReuse || pc.FreeCheck?
    ensures !Scanning(pc)
  {
  }

  lemma ReadScans(pc: Pc)
    ensures pc.RefillRead? && !pc.found ==> Scanning(pc)
  {
  }

  /** Handed out, but in a block that could not be created. */
  predicate Beyond(s: State, id: nat) {
    id < s.nextId && id / BLOCK_IDS > s.maxBlock
  }

  /** At `k` the ID is freed, or is lost as it is minted; or it is out of the refill's reach when
      that reads the bounds at `a`. */
  ghost predicate ComesFree(ss: seq<State>, es: seq<Allocator.Event>, a: nat, k: nat, id: nat)
    requires k < |es| && k < |ss|
  {
    || es[k] == Allocator.Freed(id)
    || (es[k] == Allocator.Lost && id == ss[k].nextId)
    || (k == a && Beyond(ss[k], id))
  }

  ghost predicate Taken(es: seq<Allocator.Event>, id: nat, k: nat, b: nat)
    requires b <= |es|
  {
    exists m :: k < m < b && es[m] == Allocator.Alloc(id)
  }

  /** Free at some moment since `a`, and not handed out again before `b`. */
  ghost predicate FreedSince(ss: seq<State>, es: seq<Allocator.Event>, id: nat, a: nat, b: nat)
    requires b <= |es| <= |ss|
  {
    exists k :: a <= k < b && ComesFree(ss, es, a, k, id) && !Taken(es, id, k, b)
  }

  /** Whatever comes to be free from `a` on is handed out again before `b`. */
  ghost predicate FreesTaken(ss: seq<State>, es: seq<Allocator.Event>, a: nat, b: nat)
    requires b <= |es| <= |ss|
  {
    forall k, id :: a <= k < b && ComesFree(ss, es, a, k, id) ==> Taken(es, id, k, b)
  }

  ghost predicate UsedOrFreed(ss: seq<State>, es: seq<Allocator.Event>, id: nat, a: nat, j: nat)
    requires j <= |es| && |ss| == |es| + 1
  {
    id in ss[j].used || FreedSince(ss, es, id, a, j)
  }

  lemma FreedOneMore(ss: seq<State>, es: seq<Allocator.Event>, id: nat, a: nat, j: nat)
    requires a <= j < |es| <= |ss|
    ensures ComesFree(ss, es, a, j, id) ==> FreedSince(ss, es, id, a, j + 1)
    ensures FreedSince(ss, es, id, a, j) && es[j] != Allocator.Alloc(id) ==> FreedSince(ss, es, id, a, j + 1)
  {
    hide ComesFree;
    if ComesFree(ss, es, a, j, id) {
      assert !Taken(es, id, j, j + 1);
    }
    if FreedSince(ss, es, id, a, j) && es[j] != Allocator.Alloc(id) {
      var k :| a <= k < j && ComesFree(ss, es, a, k, id) && !Taken(es, id, k, j);
      TakenBefore(es, id, k, j);
    }
  }

  lemma TakenBefore(es: seq<Allocator.Event>, id: nat, k: nat, j: nat)
    requires j < |es| && es[j] != Allocator.Alloc(id)
    ensures Taken(es, id, k, j + 1) ==> Taken(es, id, k, j)
  {
  }

  /** An ID that is used, or came to be free since, stays so; a new one is one or the other. */
  lemma UsedOrFreedStays(ss: seq<State>, es: seq<Allocator.Event>, id: nat, a: nat, j: nat)
    requires Run(ss, es) && a <= j < |es| && id < ss[j + 1].nextId
    requires id < ss[j].nextId ==> UsedOrFreed(ss, es, id, a, j)
    ensures UsedOrFreed(ss, es, id, a, j + 1)
  {
    hide Step, FreedSince;
    assert Step(ss[j], es[j], ss[j + 1]);
    RunKeepsInv(ss, es, j);
    StepRefines(ss[j], es[j], ss[j + 1]);
    hide Run, Inv;
    FreedOneMore(ss, es, id, a, j);
  }

  /** The scan has looked at the ID, or does not have to because it was minted later. */
  predicate Seen(pc: Pc, id: nat) {
    pc.RefillRead? ==> id < pc.block * BLOCK_IDS || id >= pc.bound
  }

  /** What the scan has passed was used, so it is used or came to be free since. */
  ghost predicate ScanOk(ss: seq<State>, es: seq<Allocator.Event>, t: Tid, a: nat, j: nat)
    requires a < j <= |es| && |ss| == |es| + 1 && t in ss[j].threads
  {
    var pc := ss[j].threads[t];
    && (pc.RefillRead? ==> pc.bound == ss[a].nextId && pc.lastBlock == ss[a].maxBlock)
    && forall id: nat :: id < ss[j].nextId && (Seen(pc, id) || Beyond(ss[a], id)) ==> UsedOrFreed(ss, es, id, a, j)
  }

  lemma ScanStarts(ss: seq<State>, es: seq<Allocator.Event>, t: Tid, a: nat)
    requires Run(ss, es) && ScansFrom(ss, t, a, a + 1)
    ensures ScanOk(ss, es, t, a, a + 1)
  {
    hide Step, ThreadStep, FreedSince, Beyond;
    assert Step(ss[a], es[a], ss[a + 1]);
    Moved(ss[a], es[a], ss[a + 1], t);
    ScanMoves(ss[a], t, es[a], ss[a + 1]);
    forall id: nat | Beyond(ss[a], id)
      ensures FreedSince(ss, es, id, a, a + 1)
    {
      FreedOneMore(ss, es, id, a, a);
    }
  }

  /** A block without free IDs adds its IDs to what has been seen. */
  lemma BlockSeen(s: State, used: set<nat>, pc: Pc, id: nat)
    requires pc.RefillRead? && FreeOfBlock(used, pc.block, pc.bound, [])
    requires pc.bound == s.nextId && pc.lastBlock == s.maxBlock
    requires Seen(AfterBlock(pc.block, pc.lastBlock, pc.bound, false), id)
    ensures Seen(pc, id) || id in used || Beyond(s, id)
  {
    var none: seq<nat> := [];
    assert id !in none && FreeOfBlock(used, pc.block, pc.bound, none);
  }

  lemma ScanGoesOn(ss: seq<State>, es: seq<Allocator.Event>, t: Tid, a: nat, j: nat)
    requires Run(ss, es) && a < j && ScansFrom(ss, t, a, j + 1) && ScanOk(ss, es, t, a, j)
    ensures ScanOk(ss, es, t, a, j + 1)
  {
    assert |ss| == |es| + 1;
    hide Step, ThreadStep, Run, UsedOrFreed, FreeOfBlock, Seen, Scanning, Beyond;
    var pc, pc' := ss[j].threads[t], ss[j + 1].threads[t];
    assert Step(ss[j], es[j], ss[j + 1]) by { RunStep(ss, es, j); }
    Moved(ss[j], es[j], ss[j + 1], t);
    if pc' != pc {
      ScanMoves(ss[j], t, es[j], ss[j + 1]);
      BoundsDoNotScan(pc);
    }
    forall id: nat | id < ss[j + 1].nextId && (Seen(pc', id) || Beyond(ss[a], id))
      ensures UsedOrFreed(ss, es, id, a, j + 1)
    {
      if pc' != pc && Seen(pc', id) {
        BlockSeen(ss[a], ss[j].used, pc, id);
        UsedCounts(ss, es, id, a, j);
      }
      UsedOrFreedStays(ss, es, id, a, j);
    }
  }

  lemma RunStep(ss: seq<State>, es: seq<Allocator.Event>, j: nat)
    requires Run(ss, es) && j < |es|
    ensures Step(ss[j], es[j], ss[j + 1])
  {
    hide Step;
  }

  lemma BoundsDoNotScan(pc: Pc)
    ensures Scanning(pc) ==> pc != RefillBounds
  {
  }

  lemma UsedCounts(ss: seq<State>, es: seq<Allocator.Event>, id: nat, a: nat, j: nat)
    requires j <= |es| && |ss| == |es| + 1
    ensures id in ss[j].used ==> UsedOrFreed(ss, es, id, a, j)
  {
  }

  lemma {:induction false} ScanInv(ss: seq<State>, es: seq<Allocator.Event>, t: Tid, a: nat, j: nat)
    requires Run(ss, es) && ScansFrom(ss, t, a, j)
    ensures ScanOk(ss, es, t, a, j)
    decreases j
  {
    assert |ss| == |es| + 1;
    hide Run, ScanOk, Scanning;
    if j == a + 1 {
      ScanStarts(ss, es, t, a);
    } else {
      ScanInv(ss, es, t, a, j - 1);
      ScanGoesOn(ss, es, t, a, j - 1);
    }
  }

  /** When a refill that found nothing comes to lower the flag, nothing is free if and only if
      whatever came to be free since it read its bounds, and whatever was out of its reach, has been
      handed out. */
  lemma AllUsedIff(ss: seq<State>, es: seq<Allocator.Event>, t: Tid, a: nat, b: nat)
    requires Run(ss, es) && Window(ss, t, a, b)
    ensures AllUsed(ss[b]) <==> FreesTaken(ss, es, a, b)
  {
    ScanInv(ss, es, t, a, b);
    hide Scanning, Taken, ComesFree, Step, Beyond;
    if FreesTaken(ss, es, a, b) {
      forall id | 0 <= id < ss[b].nextId
        ensures id in ss[b].used
      {
        assert UsedOrFreed(ss, es, id, a, b);
      }
    }
    if AllUsed(ss[b]) {
      forall k, id | a <= k < b && ComesFree(ss, es, a, k, id)
        ensures Taken(es, id, k, b)
      {
        FreedStaysFree(ss, es, t, a, k, b, id);
      }
    }
  }

  /** What comes to be free is free after that step. */
  lemma FreeThen(ss: seq<State>, es: seq<Allocator.Event>, t: Tid, a: nat, k: nat, id: nat)
    requires Run(ss, es) && a <= k < |es| && ScansFrom(ss, t, a, a + 1) && ComesFree(ss, es, a, k, id)
    ensures id < ss[k + 1].nextId && id !in ss[k + 1].used
  {
    hide Step, ThreadStep, Scanning;
    assert Step(ss[k], es[k], ss[k + 1]);
    RunKeepsInv(ss, es, k);
    StepRefines(ss[k], es[k], ss[k + 1]);
    if k == a && Beyond(ss[k], id) {
      BoundsDoNotScan(ss[a + 1].threads[t]);
      Moved(ss[a], es[a], ss[a + 1], t);
      ScanMoves(ss[a], t, es[a], ss[a + 1]);
    }
    hide Run;
  }

  lemma FreedStaysFree(ss: seq<State>, es: seq<Allocator.Event>, t: Tid, a: nat, k: nat, b: nat, id: nat)
    requires Run(ss, es) && a <= k < b <= |es| && ScansFrom(ss, t, a, b) && ComesFree(ss, es, a, k, id)
    ensures Taken(es, id, k, b) || (id < ss[b].nextId && id !in ss[b].used)
  {
    hide Scanning, ScansFrom, Step, ComesFree, Allocator.Step, Allocator.WellFormed, Taken;
    ScansBegin(ss, t, a, b);
    FreeThen(ss, es, t, a, k, id);
    RunRefines(ss, es);
    if !Taken(es, id, k, b) {
      NotTaken(es, id, k, b);
      Allocator.StaysFree(AbsAll(ss), es, id, k + 1, b);
    }
  }

  lemma ScansBegin(ss: seq<State>, t: Tid, a: nat, b: nat)
    requires ScansFrom(ss, t, a, b)
    ensures ScansFrom(ss, t, a, a + 1)
  {
    hide Scanning;
  }

  lemma NotTaken(es: seq<Allocator.Event>, id: nat, k: nat, b: nat)
    requires b <= |es| && !Taken(es, id, k, b)
    ensures forall m :: k + 1 <= m < b ==> es[m] != Allocator.Alloc(id)
  {
  }
}
