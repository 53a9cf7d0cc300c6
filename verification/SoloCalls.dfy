/**
 Calls that run while no other thread moves, in the concurrent map. The rest of the state is any
 that an interleaving can leave behind: a stale or empty free list, a flag that is wrong, threads
 that stopped in the middle of their calls. What `next_id` hands out and leaves behind is then
 determined, and so is whether it mints without need.
 */
module SoloCalls {
  import opened Blocks
  import opened Collections
  import opened ConcurrentFsm
  import opened RefillWindows
  import Allocator

  // ---- Calls ----

  /** Only thread `t` moves. */
  ghost predicate Alone(t: Tid, ss: seq<State>, es: seq<Allocator.Event>) {
    && |ss| == |es| + 1
    && forall i :: 0 <= i < |es| ==> t in ss[i].threads && ThreadStep(ss[i], t, es[i], ss[i + 1])
  }

  /** A whole call of `next_id` that returns `id`, so that none of its operations failed. */
  ghost predicate Returns(t: Tid, ss: seq<State>, es: seq<Allocator.Event>, id: nat) {
    && Alone(t, ss, es) && |es| > 0
    && ss[0].threads[t] == LoadReuse
    && ss[|es| - 1].threads[t] == CountUp(id)
    && t !in ss[|es|].threads
  }

  // ---- What it should do ----

  /** Free, and within reach of a refill. */
  predicate Free(s: State, id: nat) {
    Known(s, id) && id !in s.used
  }

  /** As many of the lowest free IDs as the list holds. */
  ghost predicate LowestFree(s: State, ids: seq<nat>) {
    && |ids| <= Allocator.FAST_SIZE && Increasing(ids)
    && (forall i :: 0 <= i < |ids| ==> Free(s, ids[i]))
    && forall id: nat :: Free(s, id) && id !in ids ==> |ids| == Allocator.FAST_SIZE && ids[|ids| - 1] < id
  }

  /** The list from its first entry on that is really free. */
  function Unstale(list: seq<nat>, used: set<nat>): seq<nat> {
    if list == [] || list[0] !in used then list else Unstale(list[1..], used)
  }

  predicate Searches(s: State) {
    s.reuse && s.hasFree
  }

  /** The ID a call gets from `s`, and the list and the flag it leaves behind: the first listed ID
      that is free; if there is none, the lowest free one, with as many of the others listed as
      fit; if there is none either, or it does not search, a new one. */
  ghost predicate Answer(s: State, id: nat, list: seq<nat>, hasFree: bool) {
    if !Searches(s) then
      id == s.nextId && list == s.list && hasFree == s.hasFree
    else if Unstale(s.list, s.used) != [] then
      [id] + list == Unstale(s.list, s.used) && hasFree
    else if exists x :: Free(s, x) then
      LowestFree(s, [id] + list) && hasFree
    else
      id == s.nextId && list == [] && !hasFree
  }

  /** The state that an undisturbed call leaves behind. */
  function After(s: State, t: Tid, id: nat, list: seq<nat>, hasFree: bool): State {
    Return(s.(used := s.used + {id},
              nextId := if id == s.nextId then s.nextId + 1 else s.nextId,
              maxBlock := if id == s.nextId && id / BLOCK_IDS == s.maxBlock + 1 then s.maxBlock + 1 else s.maxBlock,
              list := list, hasFree := hasFree, total := s.total + 1), t)
  }

  // ---- Where the call is ----

  /** Nothing in the list was free, so the call goes on to a refill. */
  ghost predicate Emptied(s0: State) {
    Searches(s0) && Unstale(s0.list, s0.used) == [] && s0.refillLock == None
  }

  /** The list holds the free IDs below `upto`. */
  ghost predicate Scanned(s: State, ids: seq<nat>, upto: nat) {
    Increasing(ids) && forall id: nat :: id in ids <==> Free(s, id) && id < upto
  }

  /** The call has popped `id`. */
  ghost predicate Popped(s0: State, id: nat, list: seq<nat>) {
    || Unstale([id] + list, s0.used) == Unstale(s0.list, s0.used)
    || (Emptied(s0) && LowestFree(s0, [id] + list))
  }

  /** What the list and the flag are like when a call that has allocated nothing yet is at `pc`. */
  ghost predicate Expects(s0: State, list: seq<nat>, hasFree: bool, pc: Pc) {
    match pc
    case LoadReuse => list == s0.list && hasFree == s0.hasFree
    case LoadFlag => list == s0.list && hasFree == s0.hasFree && s0.reuse
    case Pop => Searches(s0) && hasFree && Unstale(list, s0.used) == Unstale(s0.list, s0.used)
    case RefillLock => Searches(s0) && hasFree && list == [] && Unstale(s0.list, s0.used) == []
    case RefillEmpty => Emptied(s0) && hasFree && list == []
    case RefillBounds => Emptied(s0) && hasFree && list == []
    case RefillRead(block, lastBlock, bound, found) =>
      && Emptied(s0) && hasFree && block <= lastBlock == s0.maxBlock && bound == s0.nextId
      && |list| <= Allocator.FAST_SIZE && Scanned(s0, list, block * BLOCK_IDS) && (found <==> list != [])
    case RefillFlag(todo, block, lastBlock, bound) => ExpectsToPush(s0, list, hasFree, todo, block, lastBlock, bound)
    case RefillPush(todo, block, lastBlock, bound) => ExpectsToPush(s0, list, hasFree, todo, block, lastBlock, bound)
    case RefillDone(found) => Emptied(s0) && hasFree && LowestFree(s0, list) && (found <==> list != [])
    case RefillUnlock(found) => Emptied(s0) && hasFree == found && LowestFree(s0, list) && (found <==> list != [])
    case PopAgain => Emptied(s0) && hasFree && LowestFree(s0, list) && list != []
    case Check(id) => Searches(s0) && hasFree && Popped(s0, id, list)
    case MarkUsed(id) => Searches(s0) && hasFree && Popped(s0, id, list)
    case Minting =>
      if Searches(s0) then Emptied(s0) && LowestFree(s0, []) && list == [] && !hasFree
      else list == s0.list && hasFree == s0.hasFree
    case _ => false
  }

  ghost predicate ExpectsToPush(s0: State, list: seq<nat>, hasFree: bool, todo: seq<nat>, block: nat, lastBlock: nat,
                                bound: nat) {
    && Emptied(s0) && hasFree && block <= lastBlock == s0.maxBlock && bound == s0.nextId
    && |list| <= Allocator.FAST_SIZE && todo != [] && Scanned(s0, list + todo, (block + 1) * BLOCK_IDS)
  }

  /** The call has allocated nothing yet. */
  ghost predicate Looking(s0: State, s: State, t: Tid) {
    && t in s.threads && t in s0.threads
    && var pc := s.threads[t];
       && s == s0.(list := s.list, hasFree := s.hasFree, refillLock := s.refillLock, threads := s0.threads[t := pc])
       && (s.refillLock == (if Refilling(pc) then Some(t) else s0.refillLock))
       && Expects(s0, s.list, s.hasFree, pc)
  }

  /** The call has its ID and is about to count it. */
  ghost predicate Allocated(s0: State, s: State, t: Tid, id: nat) {
    && Answer(s0, id, s.list, s.hasFree)
    && t in s.threads && s.threads[t] == CountUp(id)
    && Return(s.(total := s.total + 1), t) == After(s0, t, id, s.list, s.hasFree)
  }

  // ---- Its steps ----

  lemma LookSolo(s0: State, s: State, t: Tid, s': State)
    requires Looking(s0, s, t) && LookStep(s, t, s') && t in s'.threads
    ensures Looking(s0, s', t)
  {
    hide LowestFree, Scanned, ExpectsToPush;
    if s.list != [] {
      assert [s.list[0]] + s.list[1..] == s.list;
    }
  }

  lemma NothingToFind(s0: State)
    ensures Scanned(s0, [], 0)
    ensures s0.nextId == 0 ==> LowestFree(s0, [])
  {
  }

  lemma RefillSolo(s0: State, s: State, t: Tid, s': State)
    requires Looking(s0, s, t) && RefillStep(s, t, s') && t in s'.threads
    ensures Looking(s0, s', t)
  {
    NothingToFind(s0);
    hide LowestFree, Scanned, ExpectsToPush, Unstale;
  }

  /** A block adds its free IDs to those of the blocks before. */
  lemma BlockScanned(s0: State, list: seq<nat>, block: nat, ids: seq<nat>)
    requires Scanned(s0, list, block * BLOCK_IDS) && FreeOfBlock(s0.used, block, s0.nextId, ids) && block <= s0.maxBlock
    ensures Scanned(s0, list + ids, (block + 1) * BLOCK_IDS)
  {
    forall i, j | 0 <= i < j < |list + ids|
      ensures (list + ids)[i] < (list + ids)[j]
    {
      if i < |list| <= j {
        assert list[i] in list && ids[j - |list|] in ids;
      }
    }
    forall id: nat
      ensures id in list + ids <==> Free(s0, id) && id < (block + 1) * BLOCK_IDS
    {
      assert id in ids <==> block * BLOCK_IDS <= id < (block + 1) * BLOCK_IDS && id < s0.nextId && id !in s0.used;
    }
  }

  /** Past the last block, or past the bound, everything has been seen. */
  lemma ScanComplete(s0: State, list: seq<nat>, block: nat)
    requires Scanned(s0, list, (block + 1) * BLOCK_IDS) && |list| <= Allocator.FAST_SIZE
    requires !(block < s0.maxBlock && (block + 1) * BLOCK_IDS < s0.nextId)
    ensures LowestFree(s0, list)
  {
    forall i | 0 <= i < |list|
      ensures Free(s0, list[i])
    {
      assert list[i] in list;
    }
    forall id | Free(s0, id)
      ensures id in list
    {
    }
  }

  /** A full list has the lowest of what was found. */
  lemma ScanCut(s0: State, list: seq<nat>, todo: seq<nat>, upto: nat)
    requires Scanned(s0, list + todo, upto) && |list| == Allocator.FAST_SIZE
    ensures LowestFree(s0, list)
  {
    forall i | 0 <= i < |list|
      ensures Free(s0, list[i])
    {
      assert (list + todo)[i] in list + todo;
    }
    forall i, j | 0 <= i < j < |list|
      ensures list[i] < list[j]
    {
      assert (list + todo)[i] < (list + todo)[j];
    }
    var last := |list| - 1;
    forall id | Free(s0, id) && id !in list
      ensures list[last] < id
    {
      if id in list + todo {
        var k :| 0 <= k < |list + todo| && (list + todo)[k] == id;
        assert k >= |list|;
        assert (list + todo)[last] < (list + todo)[k];
      } else {
        assert (list + todo)[last] in list + todo;
      }
    }
  }

  lemma AfterBlockExpects(s0: State, list: seq<nat>, block: nat, found: bool)
    requires Emptied(s0) && Scanned(s0, list, (block + 1) * BLOCK_IDS) && block <= s0.maxBlock
    requires |list| <= Allocator.FAST_SIZE && (found <==> list != [])
    ensures Expects(s0, list, true, AfterBlock(block, s0.maxBlock, s0.nextId, found))
  {
    if !(block < s0.maxBlock && (block + 1) * BLOCK_IDS < s0.nextId) {
      ScanComplete(s0, list, block);
    }
    hide LowestFree, Scanned, Emptied;
  }

  lemma ReadSolo(s0: State, s: State, t: Tid, s': State)
    requires Looking(s0, s, t) && s.threads[t].RefillRead? && ScanStep(s, t, s')
    ensures Looking(s0, s', t)
  {
    var pc := s.threads[t];
    var ids: seq<nat> :| FreeOfBlock(s.used, pc.block, pc.bound, ids) && s' == At(s, t, Read(pc, ids));
    BlockScanned(s0, s.list, pc.block, ids);
    hide Scanned, LowestFree, FreeOfBlock, Emptied;
    if ids == [] {
      assert s.list + ids == s.list;
      AfterBlockExpects(s0, s.list, pc.block, pc.found);
      hide Expects;
    }
  }

  lemma PushSolo(s0: State, s: State, t: Tid, s': State)
    requires Looking(s0, s, t) && s.threads[t].RefillPush? && ScanStep(s, t, s')
    ensures Looking(s0, s', t)
  {
    var pc := s.threads[t];
    if |s.list| >= Allocator.FAST_SIZE {
      ScanCut(s0, s.list, pc.todo, (pc.block + 1) * BLOCK_IDS);
      hide Scanned, LowestFree, Emptied;
    } else {
      assert s.list + pc.todo == (s.list + [pc.todo[0]]) + pc.todo[1..];
      hide Scanned, LowestFree, Emptied;
      if |pc.todo| == 1 {
        assert s.list + pc.todo == s.list + [pc.todo[0]];
        AfterBlockExpects(s0, s.list + [pc.todo[0]], pc.block, true);
        hide Expects;
      }
    }
  }

  lemma ScanSolo(s0: State, s: State, t: Tid, s': State)
    requires Looking(s0, s, t) && ScanStep(s, t, s')
    ensures Looking(s0, s', t)
  {
    if s.threads[t].RefillRead? {
      hide Looking;
      ReadSolo(s0, s, t, s');
    } else if s.threads[t].RefillPush? {
      hide Looking;
      PushSolo(s0, s, t, s');
    } else {
      hide Scanned, LowestFree, Emptied;
    }
  }

  /** The first free entry ends the search. */
  lemma PoppedFree(s0: State, id: nat, list: seq<nat>)
    requires Searches(s0) && ListOk(s0) && Popped(s0, id, list) && id !in s0.used
    ensures Answer(s0, id, list, true) && Free(s0, id)
  {
    assert Unstale([id] + list, s0.used) == [id] + list;
    if Unstale([id] + list, s0.used) == Unstale(s0.list, s0.used) {
      assert ([id] + list)[0] == id;
      UnstaleListed(s0.list, s0.used, id);
    } else {
      assert Free(s0, ([id] + list)[0]);
    }
  }

  lemma {:induction false} UnstaleListed(list: seq<nat>, used: set<nat>, id: nat)
    requires id in Unstale(list, used)
    ensures id in list
  {
    if list != [] && list[0] in used {
      UnstaleListed(list[1..], used, id);
    }
  }

  /** A stale entry leaves the search where it was. */
  lemma PoppedStale(s0: State, id: nat, list: seq<nat>)
    requires Popped(s0, id, list) && id in s0.used
    ensures Unstale(list, s0.used) == Unstale(s0.list, s0.used)
  {
    assert ([id] + list)[1..] == list && ([id] + list)[0] == id;
    assert !LowestFree(s0, [id] + list);
  }

  lemma TakeSolo(s0: State, s: State, t: Tid, e: Allocator.Event, s': State)
    requires ListOk(s0) && Looking(s0, s, t) && TakeStep(s, t, e, s') && t in s'.threads
    ensures (e == Allocator.Quiet && Looking(s0, s', t))
            || (&& s'.threads[t].CountUp? && e == Allocator.Alloc(s'.threads[t].id)
                && Allocated(s0, s', t, s'.threads[t].id))
  {
    var id := s.threads[t].id;
    if id in s.used {
      PoppedStale(s0, id, s.list);
      hide Popped, Unstale, LowestFree;
    } else {
      PoppedFree(s0, id, s.list);
      hide Popped, Unstale, Answer, LowestFree;
    }
  }

  lemma MintSolo(s0: State, s: State, t: Tid, e: Allocator.Event, s': State)
    requires BlocksOk(s0) && Looking(s0, s, t) && MintStep(s, t, e, s') && t in s'.threads
    ensures s'.threads[t].CountUp? && e == Allocator.Alloc(s'.threads[t].id)
    ensures Allocated(s0, s', t, s'.threads[t].id)
  {
    NothingWiped(s);
    hide Outside;
    assert Answer(s0, s0.nextId, s.list, s.hasFree);
    hide Answer, LowestFree, Unstale;
  }

  /** One step of the call, unless it fails. */
  lemma StepSolo(s0: State, s: State, t: Tid, e: Allocator.Event, s': State)
    requires BlocksOk(s0) && ListOk(s0) && Looking(s0, s, t) && ThreadStep(s, t, e, s') && t in s'.threads
    ensures (e == Allocator.Quiet && Looking(s0, s', t))
            || (&& s'.threads[t].CountUp? && e == Allocator.Alloc(s'.threads[t].id)
                && Allocated(s0, s', t, s'.threads[t].id))
  {
    LooksForId(s0, s, t);
    hide Looking, Allocated, BlocksOk, ListOk, LookStep, RefillStep, ScanStep, TakeStep, MintStep;
    if TakeStep(s, t, e, s') {
      TakeSolo(s0, s, t, e, s');
    } else if MintStep(s, t, e, s') {
      MintSolo(s0, s, t, e, s');
    } else if LookStep(s, t, s') {
      LookSolo(s0, s, t, s');
    } else if RefillStep(s, t, s') {
      RefillSolo(s0, s, t, s');
    } else if ScanStep(s, t, s') {
      ScanSolo(s0, s, t, s');
    }
  }

  /** It is a call of `next_id`. */
  lemma LooksForId(s0: State, s: State, t: Tid)
    requires Looking(s0, s, t)
    ensures t in s.threads
    ensures var pc := s.threads[t];
            && !pc.FreeCheck? && !pc.MarkFree? && !pc.CountDown? && !pc.FreePush? && !pc.FreeFlag? && !pc.CountUp?
  {
    hide Scanned, LowestFree, Emptied, Unstale, ExpectsToPush, Popped;
  }

  ghost predicate Quiets(es: seq<Allocator.Event>, n: nat)
    requires n <= |es|
  {
    forall j :: 0 <= j < n ==> es[j] == Allocator.Quiet
  }

  /** The ID is taken at `a` and nothing else happens in the first `n` steps. */
  ghost predicate TakenAt(es: seq<Allocator.Event>, n: nat, a: nat, id: nat)
    requires n <= |es|
  {
    a < n && es[a] == Allocator.Alloc(id) && forall j :: 0 <= j < n && j != a ==> es[j] == Allocator.Quiet
  }

  /** Up to the step before its return the call looks for an ID, or has it. */
  ghost predicate Midway(t: Tid, s0: State, s: State, es: seq<Allocator.Event>, i: nat, a: nat)
    requires i <= |es|
  {
    || (Looking(s0, s, t) && Quiets(es, i))
    || (&& t in s.threads && s.threads[t].CountUp? && Allocated(s0, s, t, s.threads[t].id)
        && TakenAt(es, i, a, s.threads[t].id))
  }

  lemma {:induction false} Along(t: Tid, ss: seq<State>, es: seq<Allocator.Event>, i: nat) returns (a: nat)
    requires Alone(t, ss, es) && i < |es| && Inv(ss[0]) && ss[0].threads[t] == LoadReuse
    ensures Midway(t, ss[0], ss[i], es, i, a)
  {
    hide ThreadStep, Inv, Midway;
    a := 0;
    if i == 0 {
      StartsMidway(t, ss[0], es);
    } else {
      a := Along(t, ss, es, i - 1);
      assert ThreadStep(ss[i - 1], t, es[i - 1], ss[i]);
      a := OnwardMidway(t, ss[0], ss[i - 1], ss[i], es, i - 1, a);
    }
  }

  lemma StartsMidway(t: Tid, s: State, es: seq<Allocator.Event>)
    requires t in s.threads && s.threads[t] == LoadReuse
    ensures Midway(t, s, s, es, 0, 0)
  {
    hide Looking;
    StartsLooking(s, t);
  }

  lemma OnwardMidway(t: Tid, s0: State, s: State, s': State, es: seq<Allocator.Event>, i: nat, a: nat) returns (a': nat)
    requires i < |es| && Inv(s0) && Midway(t, s0, s, es, i, a)
    requires t in s.threads && ThreadStep(s, t, es[i], s') && t in s'.threads
    ensures Midway(t, s0, s', es, i + 1, a')
  {
    assert BlocksOk(s0) && ListOk(s0);
    hide ThreadStep, Allocated, Inv, BlocksOk, ListOk, Looking;
    a' := i;
    if Looking(s0, s, t) {
      StepSolo(s0, s, t, es[i], s');
    } else {
      CountsAndReturns(s, t, es[i], s');
    }
  }

  lemma StartsLooking(s: State, t: Tid)
    requires t in s.threads && s.threads[t] == LoadReuse
    ensures Looking(s, s, t)
  {
    assert s.threads == s.threads[t := LoadReuse];
  }

  lemma CountsAndReturns(s: State, t: Tid, e: Allocator.Event, s': State)
    requires t in s.threads && s.threads[t].CountUp? && ThreadStep(s, t, e, s')
    ensures e == Allocator.Quiet && s' == Return(s.(total := s.total + 1), t)
  {
    hide FreeOfBlock;
  }

  // ---- Main results ----

  /** A call that runs alone and returns an ID returns the one it should, leaves the map as it
      should, and takes its ID at one moment. */
  lemma AloneAnswers(t: Tid, ss: seq<State>, es: seq<Allocator.Event>, id: nat)
    requires Returns(t, ss, es, id) && Inv(ss[0])
    ensures var s := ss[|es|];
            Answer(ss[0], id, s.list, s.hasFree) && s == After(ss[0], t, id, s.list, s.hasFree)
    ensures exists a :: TakenAt(es, |es|, a, id)
  {
    var last := |es| - 1;
    var a := Along(t, ss, es, last);
    hide Looking, Inv, Answer, ThreadStep;
    if Looking(ss[0], ss[last], t) {
      LooksForId(ss[0], ss[last], t);
    }
    assert ThreadStep(ss[last], t, es[last], ss[last + 1]);
    CountsAndReturns(ss[last], t, es[last], ss[last + 1]);
    assert TakenAt(es, |es|, a, id);
  }

  /** Such a call mints only if it has to, if and only if it has to or the flag lets it search and
      some free ID is within its reach. */
  lemma AloneTightIff(t: Tid, ss: seq<State>, es: seq<Allocator.Event>, id: nat)
    requires Returns(t, ss, es, id) && Inv(ss[0])
    ensures Allocator.TightAlloc(Abs(ss[0]), id, Abs(ss[|es|])) <==>
              AllUsed(ss[0]) || (Searches(ss[0]) && exists x :: Free(ss[0], x))
  {
    AloneAnswers(t, ss, es, id);
    var s, s' := ss[0], ss[|es|];
    assert BlocksOk(s) && ListOk(s);
    hide Returns, Inv;
    UsedAll(s);
    AnswerReuses(s, id, s'.list, s'.hasFree);
    hide Answer;
  }

  lemma UsedAll(s: State)
    requires BlocksOk(s)
    ensures |s.used| < s.nextId <==> !AllUsed(s)
  {
    SubsetSize(s.used, Below(s.nextId));
    if AllUsed(s) {
      assert s.used == Below(s.nextId);
    } else {
      var id :| 0 <= id < s.nextId && id !in s.used;
      assert id in Below(s.nextId);
    }
  }

  lemma AnswerReuses(s: State, id: nat, list: seq<nat>, hasFree: bool)
    requires ListOk(s) && Answer(s, id, list, hasFree)
    ensures if Searches(s) && exists x :: Free(s, x) then Free(s, id) else id == s.nextId
  {
    if Searches(s) && Unstale(s.list, s.used) != [] {
      assert ([id] + list)[0] == id;
      UnstaleListed(s.list, s.used, id);
      UnstaleFirst(s.list, s.used);
      assert Free(s, id);
    } else if Searches(s) && exists x :: Free(s, x) {
      assert ([id] + list)[0] == id;
    }
  }

  lemma {:induction false} UnstaleFirst(list: seq<nat>, used: set<nat>)
    ensures Unstale(list, used) != [] ==> Unstale(list, used)[0] !in used
  {
    if list != [] && list[0] in used {
      UnstaleFirst(list[1..], used);
    }
  }

  // ---- Frees ----

  /** The state that an undisturbed `mark_free` of a used ID leaves behind. */
  function AfterFree(s: State, t: Tid, id: nat): State {
    Return(s.(used := s.used - {id}, list := if |s.list| < Allocator.FAST_SIZE then s.list + [id] else s.list,
              hasFree := true, total := s.total - 1), t)
  }

  /** Where an undisturbed `mark_free` is. */
  ghost predicate Freeing(s0: State, s: State, t: Tid, id: nat) {
    && t in s.threads && t in s0.threads
    && match s.threads[t]
       case FreeCheck(x) => s == s0 && x == id
       case MarkFree(x) => s == At(s0, t, MarkFree(id)) && x == id
       case CountDown(x) => id in s0.used && s == At(s0.(used := s0.used - {id}), t, CountDown(id)) && x == id
       case FreePush(x) =>
         id in s0.used && s == At(s0.(used := s0.used - {id}, total := s0.total - 1), t, FreePush(id)) && x == id
       case FreeFlag =>
         id in s0.used && Return(s.(hasFree := true), t) == AfterFree(s0, t, id)
       case _ => false
  }

  lemma ClearSolo(s0: State, s: State, t: Tid, id: nat, e: Allocator.Event, s': State)
    requires Freeing(s0, s, t, id) && ClearStep(s, t, e, s')
    ensures if t in s'.threads then Freeing(s0, s', t, id) else s' == Return(s0, t)
  {
  }

  lemma PublishSolo(s0: State, s: State, t: Tid, id: nat, s': State)
    requires Freeing(s0, s, t, id) && PublishStep(s, t, s')
    ensures if t in s'.threads then Freeing(s0, s', t, id) else id in s0.used && s' == AfterFree(s0, t, id)
  {
  }

  lemma FreeSolo(s0: State, s: State, t: Tid, id: nat, e: Allocator.Event, s': State)
    requires Freeing(s0, s, t, id) && ThreadStep(s, t, e, s')
    ensures if t in s'.threads then Freeing(s0, s', t, id)
            else s' == Return(s0, t) || (id in s0.used && s' == AfterFree(s0, t, id))
  {
    FreesOnly(s, t, e, s');
    hide ThreadStep, ClearStep, PublishStep, Freeing;
    if ClearStep(s, t, e, s') {
      ClearSolo(s0, s, t, id, e, s');
    } else {
      PublishSolo(s0, s, t, id, s');
    }
  }

  lemma FreesOnly(s: State, t: Tid, e: Allocator.Event, s': State)
    requires t in s.threads && ThreadStep(s, t, e, s')
    requires var pc := s.threads[t];
             pc.FreeCheck? || pc.MarkFree? || pc.CountDown? || pc.FreePush? || pc.FreeFlag?
    ensures ClearStep(s, t, e, s') || (e == Allocator.Quiet && PublishStep(s, t, s'))
  {
    hide FreeOfBlock;
  }

  lemma {:induction false} FreesAlong(t: Tid, ss: seq<State>, es: seq<Allocator.Event>, id: nat, i: nat)
    requires Alone(t, ss, es) && i < |es| && ss[0].threads[t] == FreeCheck(id)
    ensures Freeing(ss[0], ss[i], t, id)
  {
    hide ThreadStep;
    if i > 0 {
      FreesAlong(t, ss, es, id, i - 1);
      assert ThreadStep(ss[i - 1], t, es[i - 1], ss[i]);
      FreeSolo(ss[0], ss[i - 1], t, id, es[i - 1], ss[i]);
    }
  }

  /** A `mark_free` that runs alone frees, counts and lists a used ID and raises the flag, or leaves
      everything as it was; the latter if the ID was not in use. */
  lemma AloneFrees(t: Tid, ss: seq<State>, es: seq<Allocator.Event>, id: nat)
    requires Alone(t, ss, es) && |es| > 0 && ss[0].threads[t] == FreeCheck(id) && t !in ss[|es|].threads
    ensures ss[|es|] == Return(ss[0], t) || (id in ss[0].used && ss[|es|] == AfterFree(ss[0], t, id))
  {
    hide ThreadStep, Freeing, AfterFree;
    var last := |es| - 1;
    FreesAlong(t, ss, es, id, last);
    assert ThreadStep(ss[last], t, es[last], ss[last + 1]);
    FreeSolo(ss[0], ss[last], t, id, es[last], ss[last + 1]);
  }
}
