/**
 The free space map under concurrency: any number of threads run `next_id` and `mark_free`, one
 atomic store, queue, lock or flag operation per step, in any interleaving. A refill reads one
 block per step and pushes one ID per step, so what it pushes may be stale; any store write may
 fail. Every step is shown to be a step of the allocator.
 */
module ConcurrentFsm {
  import Allocator
  import opened Blocks
  import opened Collections

  type Tid = nat

  /** Where a thread is in its call. */
  datatype Pc =
    | LoadReuse                              // next_id: about to load `reuse_enabled`
    | LoadFlag                               //   about to load `has_free_ids`
    | Pop                                    //   about to pop the free list
    | RefillLock                             //   list was empty: about to take the refill lock
    | RefillEmpty                            //   refill lock held: about to look at the list again
    | RefillBounds                           //   about to read the minter's bounds
    | RefillRead(block: nat, lastBlock: nat, bound: nat, found: bool)
                                             //   about to read one block
    | RefillFlag(todo: seq<nat>, block: nat, lastBlock: nat, bound: nat)
                                             //   saw a free ID: about to set the flag
    | RefillPush(todo: seq<nat>, block: nat, lastBlock: nat, bound: nat)
                                             //   about to push it
    | RefillDone(found: bool)                //   about to lower the flag, if nothing was found
    | RefillUnlock(found: bool)              //   about to release the refill lock
    | PopAgain                               //   about to pop after a refill that found IDs
    | Check(id: nat)                         //   got an ID: about to check that it is in range
    | MarkUsed(id: nat)                      //   about to set its bit
    | Minting                                //   about to mint a new ID, under the minter's lock
    | CountUp(id: nat)                       //   got the ID: about to count it
    | FreeCheck(id: nat)                     // mark_free: about to check that the ID is in range
    | MarkFree(id: nat)                      //   about to clear its bit
    | CountDown(id: nat)                     //   cleared it: about to count it
    | FreePush(id: nat)                      //   about to push it onto the free list
    | FreeFlag                               //   about to raise the flag

  datatype State = State(
    used: set<nat>,          // the IDs whose bit is set, in all blocks
    nextId: nat,
    maxBlock: nat,
    list: seq<nat>,
    hasFree: bool,
    reuse: bool,
    total: int,
    refillLock: Option<Tid>,
    threads: map<Tid, Pc>)

  ghost function Abs(s: State): Allocator.State {
    Allocator.State(s.used, s.nextId, s.reuse)
  }

  /** A map nobody uses yet: a fresh one, or one opened over blocks that are stored already. */
  ghost predicate Init(s: State) {
    && BlocksOk(s) && ListOk(s) && s.total == |s.used|
    && s.refillLock == None && s.threads == map[]
  }

  function At(s: State, t: Tid, pc: Pc): State {
    s.(threads := s.threads[t := pc])
  }

  function Return(s: State, t: Tid): State {
    s.(threads := s.threads - {t})
  }

  /** The free IDs of one block below `bound`, in increasing order, as a scan reads them. */
  ghost predicate FreeOfBlock(used: set<nat>, block: nat, bound: nat, ids: seq<nat>) {
    && (forall i, j :: 0 <= i < j < |ids| ==> ids[i] < ids[j])
    && (forall id: nat :: id in ids <==> block * BLOCK_IDS <= id < (block + 1) * BLOCK_IDS && id < bound && id !in used)
  }

  function AfterBlock(block: nat, lastBlock: nat, bound: nat, found: bool): Pc {
    if block < lastBlock && (block + 1) * BLOCK_IDS < bound then RefillRead(block + 1, lastBlock, bound, found)
    else RefillDone(found)
  }

  /** A refill that read a block with these free IDs either goes on to push them or moves on. */
  function Read(pc: Pc, ids: seq<nat>): Pc
    requires pc.RefillRead?
  {
    if ids == [] then AfterBlock(pc.block, pc.lastBlock, pc.bound, pc.found)
    else RefillFlag(ids, pc.block, pc.lastBlock, pc.bound)
  }

  /** Thread `t` starts a call. */
  ghost predicate Start(s: State, t: Tid, pc: Pc, s': State) {
    && t !in s.threads && (pc == LoadReuse || pc.FreeCheck?)
    && s' == At(s, t, pc)
  }

  /** One step of `next_id` up to the point where it has a candidate ID. */
  ghost predicate LookStep(s: State, t: Tid, s': State)
    requires t in s.threads
  {
    var pc := s.threads[t];
    || (pc.LoadReuse? && s' == At(s, t, if s.reuse then LoadFlag else Minting))
    || (pc.LoadFlag? && s' == At(s, t, if s.hasFree then Pop else Minting))
    || (pc.Pop? && s.list == [] && s' == At(s, t, RefillLock))
    || (pc.PopAgain? && s.list == [] && s' == At(s, t, Minting))
    || ((pc.Pop? || pc.PopAgain?) && s.list != [] && s' == At(s.(list := s.list[1..]), t, Check(s.list[0])))
    || (pc.Check? && s' == if pc.id < s.nextId then At(s, t, MarkUsed(pc.id)) else Return(s, t))
  }

  /** One step of a refill that leaves the free list and the flag alone. */
  ghost predicate RefillStep(s: State, t: Tid, s': State)
    requires t in s.threads
  {
    var pc := s.threads[t];
    || (pc.RefillLock? && s.refillLock == None && s' == At(s.(refillLock := Some(t)), t, RefillEmpty))
    || (pc.RefillEmpty? && s' == At(s, t, if s.list != [] then RefillUnlock(true) else RefillBounds))
    || (pc.RefillBounds? &&
        s' == At(s, t, if s.nextId > 0 then RefillRead(0, s.maxBlock, s.nextId, false) else RefillDone(false)))
    || (pc.RefillRead? && s' == Return(s.(refillLock := None), t)) // the read failed
    || (pc.RefillUnlock? && s' == At(s.(refillLock := None), t, if pc.found then PopAgain else Minting))
  }

  /** One step of a refill that reads a block, pushes an ID or sets the flag. */
  ghost predicate ScanStep(s: State, t: Tid, s': State)
    requires t in s.threads
  {
    var pc := s.threads[t];
    || (&& pc.RefillRead?
        && exists ids: seq<nat> :: FreeOfBlock(s.used, pc.block, pc.bound, ids) && s' == At(s, t, Read(pc, ids)))
    || (pc.RefillFlag? && s' == At(s.(hasFree := true), t, RefillPush(pc.todo, pc.block, pc.lastBlock, pc.bound)))
    || (pc.RefillPush? && (|s.list| >= Allocator.FAST_SIZE || pc.todo == []) && s' == At(s, t, RefillDone(true)))
    || (pc.RefillPush? && |s.list| < Allocator.FAST_SIZE && pc.todo != [] &&
        s' == At(s.(list := s.list + [pc.todo[0]]), t,
                 if |pc.todo| == 1 then AfterBlock(pc.block, pc.lastBlock, pc.bound, true)
                 else RefillFlag(pc.todo[1..], pc.block, pc.lastBlock, pc.bound)))
    || (pc.RefillDone? && s' == At(if pc.found then s else s.(hasFree := false), t, RefillUnlock(pc.found)))
  }

  /** The steps of `next_id` that take an ID, and what follows. */
  ghost predicate TakeStep(s: State, t: Tid, e: Allocator.Event, s': State)
    requires t in s.threads
  {
    var pc := s.threads[t];
    || (pc.MarkUsed? && e == Allocator.Quiet && s' == Return(s, t)) // the write failed
    || (&& pc.MarkUsed? && pc.id !in s.used && e == Allocator.Alloc(pc.id)
        && s' == At(s.(used := s.used + {pc.id}), t, CountUp(pc.id)))
    || (pc.MarkUsed? && pc.id in s.used && e == Allocator.Quiet && s' == At(s, t, Pop)) // stale: try again
    || (pc.CountUp? && e == Allocator.Quiet && s' == Return(s.(total := s.total + 1), t))
  }

  /** Minting under the minter's lock. */
  ghost predicate MintStep(s: State, t: Tid, e: Allocator.Event, s': State)
    requires t in s.threads
  {
    var block := s.nextId / BLOCK_IDS;
    var isNew := block == s.maxBlock + 1;
    // Creating a block writes it as all zeros.
    var kept := if isNew then Outside(s.used, block) else s.used;
    var expanded := if isNew then block else s.maxBlock;
    && s.threads[t].Minting?
    && (// The block could not be written or is too far ahead; or the bit could not be written.
        || (e == Allocator.Lost && s' == Return(s.(nextId := s.nextId + 1), t))
        || (e == Allocator.Lost && s' == Return(s.(used := kept, nextId := s.nextId + 1, maxBlock := expanded), t))
        || (&& block <= expanded && e == Allocator.Alloc(s.nextId)
            && s' == At(s.(used := kept + {s.nextId}, nextId := s.nextId + 1, maxBlock := expanded),
                        t, CountUp(s.nextId))))
  }

  /** The used IDs that are not in `block`. */
  ghost function Outside(used: set<nat>, block: nat): set<nat> {
    set id | id in used && id / BLOCK_IDS != block
  }

  /** The steps of `mark_free` up to the cleared bit. */
  ghost predicate ClearStep(s: State, t: Tid, e: Allocator.Event, s': State)
    requires t in s.threads
  {
    var pc := s.threads[t];
    || (&& pc.FreeCheck? && e == Allocator.Quiet
        && s' == if pc.id < s.nextId then At(s, t, MarkFree(pc.id)) else Return(s, t))
    || (pc.MarkFree? && e == Allocator.Quiet && s' == Return(s, t)) // the write failed, or the ID was free
    || (&& pc.MarkFree? && pc.id in s.used && e == Allocator.Freed(pc.id)
        && s' == At(s.(used := s.used - {pc.id}), t, CountDown(pc.id)))
  }

  /** What `mark_free` does after it cleared a bit. */
  ghost predicate PublishStep(s: State, t: Tid, s': State)
    requires t in s.threads
  {
    var pc := s.threads[t];
    || (pc.CountDown? && s' == At(s.(total := s.total - 1), t, FreePush(pc.id)))
    || (&& pc.FreePush?
        && s' == At(if |s.list| < Allocator.FAST_SIZE then s.(list := s.list + [pc.id]) else s, t, FreeFlag))
    || (pc.FreeFlag? && s' == Return(s.(hasFree := true), t))
  }

  ghost predicate Step(s: State, e: Allocator.Event, s': State) {
    || (e == Allocator.ReuseOn && s' == s.(reuse := true))
    || (exists t, pc :: e == Allocator.Quiet && Start(s, t, pc, s'))
    || (exists t :: t in s.threads && ThreadStep(s, t, e, s'))
  }

  ghost predicate ThreadStep(s: State, t: Tid, e: Allocator.Event, s': State)
    requires t in s.threads
  {
    || (&& e == Allocator.Quiet
        && (LookStep(s, t, s') || RefillStep(s, t, s') || ScanStep(s, t, s') || PublishStep(s, t, s')))
    || TakeStep(s, t, e, s')
    || MintStep(s, t, e, s')
    || ClearStep(s, t, e, s')
  }

  ghost predicate Run(ss: seq<State>, es: seq<Allocator.Event>) {
    && |ss| == |es| + 1
    && Init(ss[0])
    && forall i :: 0 <= i < |es| ==> Step(ss[i], es[i], ss[i + 1])
  }

  // ---- Invariants ----

  /** The part of `next_id` that is only reached with reuse on. */
  predicate Reusing(pc: Pc) {
    pc.LoadFlag? || pc.Pop? || pc.RefillLock? || Refilling(pc) || pc.PopAgain? || pc.Check? || pc.MarkUsed?
  }

  /** The part of a refill that runs under the refill lock. */
  predicate Refilling(pc: Pc) {
    || pc.RefillEmpty? || pc.RefillBounds? || pc.RefillRead? || pc.RefillFlag? || pc.RefillPush?
    || pc.RefillDone? || pc.RefillUnlock?
  }

  /** Handed out before, in a block that exists. */
  predicate Known(s: State, id: nat) {
    id < s.nextId && id / BLOCK_IDS <= s.maxBlock
  }

  ghost predicate AllKnown(s: State, ids: seq<nat>) {
    forall i :: 0 <= i < |ids| ==> Known(s, ids[i])
  }

  /** What a thread at `pc` may rely on. */
  ghost predicate PcOk(s: State, t: Tid, pc: Pc) {
    && (Reusing(pc) ==> s.reuse)
    && (Refilling(pc) ==> s.refillLock == Some(t))
    && (pc.Check? || pc.MarkUsed? || pc.CountDown? || pc.FreePush? ==> Known(s, pc.id))
    && (pc.MarkFree? ==> pc.id < s.nextId)
    && (pc.RefillRead? || pc.RefillFlag? || pc.RefillPush? ==>
          pc.bound <= s.nextId && pc.block <= pc.lastBlock <= s.maxBlock)
    && (pc.RefillFlag? || pc.RefillPush? ==> AllKnown(s, pc.todo))
  }

  /** Every set bit lies in a block that exists, so creating the next block clears none. */
  ghost predicate BlocksOk(s: State) {
    forall id :: id in s.used ==> Known(s, id)
  }

  ghost predicate ThreadsOk(s: State) {
    forall t :: t in s.threads ==> PcOk(s, t, s.threads[t])
  }

  ghost predicate ListOk(s: State) {
    |s.list| <= Allocator.FAST_SIZE && AllKnown(s, s.list)
  }

  predicate Owes(pc: Pc, up: bool) {
    if up then pc.CountUp? else pc.CountDown?
  }

  /** Threads that changed a bit but have not counted it yet. */
  ghost function Owing(threads: map<Tid, Pc>, up: bool): set<Tid> {
    set t | t in threads && Owes(threads[t], up)
  }

  /** The counter and the changes still owed to it add up to the number of set bits. */
  ghost predicate Counted(s: State) {
    s.total + |Owing(s.threads, true)| - |Owing(s.threads, false)| == |s.used|
  }

  ghost predicate Inv(s: State) {
    && BlocksOk(s)
    && ThreadsOk(s)
    && ListOk(s)
    && Counted(s)
  }

  lemma MoveOwing(a: map<Tid, Pc>, b: map<Tid, Pc>, t: Tid, up: bool)
    requires OnlyMoved(a, b, t)
    ensures |Owing(b, up)| == |Owing(a, up)| + (if t in b && Owes(b[t], up) then 1 else 0)
                                             - (if t in a && Owes(a[t], up) then 1 else 0)
  {
    hide Owes;
    assert Owing(a, up) - {t} == Owing(b, up) - {t};
    SwapSize(Owing(a, up), Owing(b, up), t);
  }

  /** The rest of the state may change under a thread in these ways only. */
  lemma OthersOk(s: State, s': State, t: Tid)
    requires ThreadsOk(s) && OnlyMoved(s.threads, s'.threads, t)
    requires s.nextId <= s'.nextId && s.maxBlock <= s'.maxBlock && (s.reuse ==> s'.reuse)
    requires s'.refillLock == s.refillLock || s.refillLock == None || s.refillLock == Some(t)
    requires t in s'.threads ==> PcOk(s', t, s'.threads[t])
    ensures ThreadsOk(s')
  {
    forall u | u in s'.threads && u != t
      ensures PcOk(s', u, s'.threads[u])
    {
      assert PcOk(s, u, s.threads[u]);
    }
  }

  lemma MoveCounted(s: State, s': State, t: Tid)
    requires Counted(s) && OnlyMoved(s.threads, s'.threads, t)
    requires s'.total - s.total == |s'.used| - |s.used|
               + (if t in s.threads && s.threads[t].CountUp? then 1 else 0)
               - (if t in s'.threads && s'.threads[t].CountUp? then 1 else 0)
               - (if t in s.threads && s.threads[t].CountDown? then 1 else 0)
               + (if t in s'.threads && s'.threads[t].CountDown? then 1 else 0)
    ensures Counted(s')
  {
    hide Owing;
    MoveOwing(s.threads, s'.threads, t, true);
    MoveOwing(s.threads, s'.threads, t, false);
  }

  lemma LookThreads(s: State, t: Tid, s': State)
    requires ThreadsOk(s) && ListOk(s) && t in s.threads && LookStep(s, t, s')
    ensures ThreadsOk(s') && OnlyMoved(s.threads, s'.threads, t)
  {
    assert PcOk(s, t, s.threads[t]);
    assert OnlyMoved(s.threads, s'.threads, t);
    hide ThreadsOk, OnlyMoved;
    OthersOk(s, s', t);
  }

  lemma LookLists(s: State, t: Tid, s': State)
    requires ListOk(s) && BlocksOk(s) && t in s.threads && PcOk(s, t, s.threads[t]) && LookStep(s, t, s')
    ensures ListOk(s') && BlocksOk(s')
  {
  }

  lemma LookKeepsInv(s: State, t: Tid, s': State)
    requires Inv(s) && t in s.threads && LookStep(s, t, s')
    ensures Inv(s')
  {
    assert PcOk(s, t, s.threads[t]);
    LookThreads(s, t, s');
    LookLists(s, t, s');
    hide ThreadsOk, ListOk, BlocksOk, OnlyMoved, Counted, PcOk;
    MoveCounted(s, s', t);
  }

  lemma RefillThreads(s: State, t: Tid, s': State)
    requires ThreadsOk(s) && t in s.threads && RefillStep(s, t, s')
    ensures ThreadsOk(s') && OnlyMoved(s.threads, s'.threads, t)
  {
    assert PcOk(s, t, s.threads[t]);
    assert OnlyMoved(s.threads, s'.threads, t);
    hide ThreadsOk, OnlyMoved;
    OthersOk(s, s', t);
  }

  lemma RefillLists(s: State, t: Tid, s': State)
    requires ListOk(s) && BlocksOk(s) && t in s.threads && PcOk(s, t, s.threads[t]) && RefillStep(s, t, s')
    ensures ListOk(s') && BlocksOk(s')
  {
  }

  lemma RefillKeepsInv(s: State, t: Tid, s': State)
    requires Inv(s) && t in s.threads && RefillStep(s, t, s')
    ensures Inv(s')
  {
    assert PcOk(s, t, s.threads[t]);
    RefillThreads(s, t, s');
    RefillLists(s, t, s');
    hide ThreadsOk, ListOk, BlocksOk, OnlyMoved, Counted, PcOk;
    MoveCounted(s, s', t);
  }

  lemma BlockKnown(s: State, block: nat, bound: nat, ids: seq<nat>)
    requires FreeOfBlock(s.used, block, bound, ids) && bound <= s.nextId && block <= s.maxBlock
    ensures AllKnown(s, ids)
  {
    forall i | 0 <= i < |ids|
      ensures Known(s, ids[i])
    {
      assert ids[i] in ids;
    }
  }

  lemma ScanThreads(s: State, t: Tid, s': State)
    requires ThreadsOk(s) && t in s.threads && ScanStep(s, t, s')
    ensures ThreadsOk(s') && OnlyMoved(s.threads, s'.threads, t)
  {
    assert PcOk(s, t, s.threads[t]);
    assert OnlyMoved(s.threads, s'.threads, t);
    hide ThreadsOk, OnlyMoved, FreeOfBlock, Known;
    if s.threads[t].RefillRead? {
      forall ids: seq<nat> | FreeOfBlock(s.used, s.threads[t].block, s.threads[t].bound, ids)
        ensures AllKnown(s, ids)
      {
        BlockKnown(s, s.threads[t].block, s.threads[t].bound, ids);
      }
    }
    OthersOk(s, s', t);
  }

  lemma ScanLists(s: State, t: Tid, s': State)
    requires ListOk(s) && BlocksOk(s) && t in s.threads && PcOk(s, t, s.threads[t]) && ScanStep(s, t, s')
    ensures ListOk(s') && BlocksOk(s')
  {
    hide FreeOfBlock;
  }

  lemma ScanKeepsInv(s: State, t: Tid, s': State)
    requires Inv(s) && t in s.threads && ScanStep(s, t, s')
    ensures Inv(s')
  {
    assert PcOk(s, t, s.threads[t]);
    ScanThreads(s, t, s');
    ScanLists(s, t, s');
    hide ThreadsOk, ListOk, BlocksOk, OnlyMoved, Counted, PcOk, FreeOfBlock;
    MoveCounted(s, s', t);
  }

  lemma TakeThreads(s: State, t: Tid, e: Allocator.Event, s': State)
    requires ThreadsOk(s) && t in s.threads && TakeStep(s, t, e, s')
    ensures ThreadsOk(s') && OnlyMoved(s.threads, s'.threads, t)
  {
    assert PcOk(s, t, s.threads[t]);
    assert OnlyMoved(s.threads, s'.threads, t);
    hide ThreadsOk, OnlyMoved;
    OthersOk(s, s', t);
  }

  lemma TakeLists(s: State, t: Tid, e: Allocator.Event, s': State)
    requires ListOk(s) && BlocksOk(s) && t in s.threads && PcOk(s, t, s.threads[t]) && TakeStep(s, t, e, s')
    ensures ListOk(s') && BlocksOk(s')
  {
  }

  lemma TakeKeepsInv(s: State, t: Tid, e: Allocator.Event, s': State)
    requires Inv(s) && t in s.threads && TakeStep(s, t, e, s')
    ensures Inv(s')
  {
    assert PcOk(s, t, s.threads[t]);
    TakeThreads(s, t, e, s');
    TakeLists(s, t, e, s');
    hide ThreadsOk, ListOk, BlocksOk, OnlyMoved, Counted, PcOk;
    MoveCounted(s, s', t);
  }

  lemma NothingWiped(s: State)
    requires BlocksOk(s)
    ensures Outside(s.used, s.maxBlock + 1) == s.used
  {
  }

  lemma MintThreads(s: State, t: Tid, e: Allocator.Event, s': State)
    requires ThreadsOk(s) && t in s.threads && MintStep(s, t, e, s')
    ensures ThreadsOk(s') && OnlyMoved(s.threads, s'.threads, t)
  {
    assert PcOk(s, t, s.threads[t]);
    assert OnlyMoved(s.threads, s'.threads, t);
    hide ThreadsOk, OnlyMoved;
    OthersOk(s, s', t);
  }

  lemma MintLists(s: State, t: Tid, e: Allocator.Event, s': State)
    requires ListOk(s) && BlocksOk(s) && t in s.threads && PcOk(s, t, s.threads[t]) && MintStep(s, t, e, s')
    ensures ListOk(s') && BlocksOk(s')
  {
    NothingWiped(s);
    hide Outside;
  }

  lemma MintKeepsInv(s: State, t: Tid, e: Allocator.Event, s': State)
    requires Inv(s) && t in s.threads && MintStep(s, t, e, s')
    ensures Inv(s')
  {
    assert PcOk(s, t, s.threads[t]);
    MintThreads(s, t, e, s');
    MintLists(s, t, e, s');
    NothingWiped(s);
    assert s.nextId !in s.used;
    hide ThreadsOk, ListOk, BlocksOk, OnlyMoved, Counted, PcOk, Outside;
    MoveCounted(s, s', t);
  }

  lemma ClearThreads(s: State, t: Tid, e: Allocator.Event, s': State)
    requires ThreadsOk(s) && BlocksOk(s) && t in s.threads && ClearStep(s, t, e, s')
    ensures ThreadsOk(s') && OnlyMoved(s.threads, s'.threads, t)
  {
    assert PcOk(s, t, s.threads[t]);
    assert OnlyMoved(s.threads, s'.threads, t);
    hide ThreadsOk, OnlyMoved;
    OthersOk(s, s', t);
  }

  lemma ClearLists(s: State, t: Tid, e: Allocator.Event, s': State)
    requires ListOk(s) && BlocksOk(s) && t in s.threads && PcOk(s, t, s.threads[t]) && ClearStep(s, t, e, s')
    ensures ListOk(s') && BlocksOk(s')
  {
  }

  lemma ClearKeepsInv(s: State, t: Tid, e: Allocator.Event, s': State)
    requires Inv(s) && t in s.threads && ClearStep(s, t, e, s')
    ensures Inv(s')
  {
    assert PcOk(s, t, s.threads[t]);
    ClearThreads(s, t, e, s');
    ClearLists(s, t, e, s');
    hide ThreadsOk, ListOk, BlocksOk, OnlyMoved, Counted, PcOk;
    MoveCounted(s, s', t);
  }

  lemma PublishThreads(s: State, t: Tid, s': State)
    requires ThreadsOk(s) && t in s.threads && PublishStep(s, t, s')
    ensures ThreadsOk(s') && OnlyMoved(s.threads, s'.threads, t)
  {
    assert PcOk(s, t, s.threads[t]);
    assert OnlyMoved(s.threads, s'.threads, t);
    hide ThreadsOk, OnlyMoved;
    OthersOk(s, s', t);
  }

  lemma PublishLists(s: State, t: Tid, s': State)
    requires ListOk(s) && BlocksOk(s) && t in s.threads && PcOk(s, t, s.threads[t]) && PublishStep(s, t, s')
    ensures ListOk(s') && BlocksOk(s')
  {
  }

  lemma PublishKeepsInv(s: State, t: Tid, s': State)
    requires Inv(s) && t in s.threads && PublishStep(s, t, s')
    ensures Inv(s')
  {
    assert PcOk(s, t, s.threads[t]);
    PublishThreads(s, t, s');
    PublishLists(s, t, s');
    hide ThreadsOk, ListOk, BlocksOk, OnlyMoved, Counted, PcOk;
    MoveCounted(s, s', t);
  }

  lemma StartKeepsInv(s: State, t: Tid, pc: Pc, s': State)
    requires Inv(s) && Start(s, t, pc, s')
    ensures Inv(s')
  {
    OthersOk(s, s', t);
    hide ThreadsOk, Counted;
    MoveCounted(s, s', t);
  }

  lemma ReuseKeepsInv(s: State, s': State)
    requires Inv(s) && s' == s.(reuse := true)
    ensures Inv(s')
  {
    forall t | t in s'.threads
      ensures PcOk(s', t, s'.threads[t])
    {
      assert PcOk(s, t, s.threads[t]);
    }
  }

  lemma StepKeepsInv(s: State, e: Allocator.Event, s': State)
    requires Inv(s) && Step(s, e, s')
    ensures Inv(s')
  {
    hide Inv, Start, LookStep, RefillStep, ScanStep, TakeStep, MintStep, ClearStep, PublishStep;
    if e == Allocator.ReuseOn && s' == s.(reuse := true) {
      ReuseKeepsInv(s, s');
    } else if t, pc :| e == Allocator.Quiet && Start(s, t, pc, s') {
      StartKeepsInv(s, t, pc, s');
    } else {
      var t :| t in s.threads && ThreadStep(s, t, e, s');
      if e == Allocator.Quiet && LookStep(s, t, s') {
        LookKeepsInv(s, t, s');
      } else if e == Allocator.Quiet && RefillStep(s, t, s') {
        RefillKeepsInv(s, t, s');
      } else if e == Allocator.Quiet && ScanStep(s, t, s') {
        ScanKeepsInv(s, t, s');
      } else if e == Allocator.Quiet && PublishStep(s, t, s') {
        PublishKeepsInv(s, t, s');
      } else if MintStep(s, t, e, s') {
        MintKeepsInv(s, t, e, s');
      } else if TakeStep(s, t, e, s') {
        TakeKeepsInv(s, t, e, s');
      } else {
        ClearKeepsInv(s, t, e, s');
      }
    }
  }

  lemma {:induction false} RunKeepsInv(ss: seq<State>, es: seq<Allocator.Event>, i: nat)
    requires Run(ss, es) && i < |ss|
    ensures Inv(ss[i])
  {
    hide Step;
    if i == 0 {
      assert Owing(ss[0].threads, true) == {} && Owing(ss[0].threads, false) == {};
    } else {
      RunKeepsInv(ss, es, i - 1);
      assert Step(ss[i - 1], es[i - 1], ss[i]);
      StepKeepsInv(ss[i - 1], es[i - 1], ss[i]);
    }
  }

  // ---- Main results ----

  lemma LookupsAreQuiet(s: State, t: Tid, s': State)
    requires t in s.threads
    requires LookStep(s, t, s') || RefillStep(s, t, s') || ScanStep(s, t, s') || PublishStep(s, t, s')
    ensures Abs(s') == Abs(s)
  {
    hide FreeOfBlock, Read, AfterBlock;
  }

  lemma TakeRefines(s: State, t: Tid, e: Allocator.Event, s': State)
    requires t in s.threads && PcOk(s, t, s.threads[t]) && BlocksOk(s)
    requires TakeStep(s, t, e, s') || MintStep(s, t, e, s') || ClearStep(s, t, e, s')
    ensures Allocator.Step(Abs(s), e, Abs(s'))
  {
    NothingWiped(s);
    hide Outside;
  }

  /** Every step, seen from outside, is a step of the allocator. */
  lemma StepRefines(s: State, e: Allocator.Event, s': State)
    requires Inv(s) && Step(s, e, s')
    ensures Allocator.Step(Abs(s), e, Abs(s'))
  {
    hide LookStep, RefillStep, ScanStep, TakeStep, MintStep, ClearStep, PublishStep;
    if t :| t in s.threads && ThreadStep(s, t, e, s') {
      assert PcOk(s, t, s.threads[t]);
      if TakeStep(s, t, e, s') || MintStep(s, t, e, s') || ClearStep(s, t, e, s') {
        TakeRefines(s, t, e, s');
      } else {
        LookupsAreQuiet(s, t, s');
      }
    }
  }

  ghost function AbsAll(ss: seq<State>): seq<Allocator.State> {
    seq(|ss|, i requires 0 <= i < |ss| => Abs(ss[i]))
  }

  /** Every interleaving is a run of the allocator. */
  lemma RunRefines(ss: seq<State>, es: seq<Allocator.Event>)
    requires Run(ss, es)
    ensures Allocator.Run(AbsAll(ss), es)
  {
    forall i | 0 <= i < |es|
      ensures Allocator.Step(AbsAll(ss)[i], es[i], AbsAll(ss)[i + 1])
    {
      hide Step, Inv;
      RunKeepsInv(ss, es, i);
      assert Step(ss[i], es[i], ss[i + 1]);
      StepRefines(ss[i], es[i], ss[i + 1]);
    }
  }

  /** In every interleaving, with stale or repeated free-list entries and failing writes: no ID is
      returned twice without a `mark_free` that cleared its bit in between. */
  lemma NoDoubleAllocation(ss: seq<State>, es: seq<Allocator.Event>, id: nat, i: nat, j: nat)
    requires Run(ss, es) && i < j < |es|
    requires es[i] == Allocator.Alloc(id) && es[j] == Allocator.Alloc(id)
    ensures exists k :: i < k < j && es[k] == Allocator.Freed(id)
  {
    hide Run, Step;
    RunRefines(ss, es);
    Allocator.NoDoubleAllocation(AbsAll(ss), es, id, i, j);
  }

  /** Whenever no thread still owes a count, `total_used` is the number of set bits. */
  lemma TotalWhenSettled(ss: seq<State>, es: seq<Allocator.Event>, i: nat)
    requires Run(ss, es) && i < |ss|
    requires forall t :: t in ss[i].threads ==> !ss[i].threads[t].CountUp? && !ss[i].threads[t].CountDown?
    ensures ss[i].total == |ss[i].used|
  {
    RunKeepsInv(ss, es, i);
    assert Owing(ss[i].threads, true) == {} && Owing(ss[i].threads, false) == {};
  }

  ghost predicate RefillsIn(s: State, t: Tid) {
    t in s.threads && Refilling(s.threads[t])
  }

  /** Whoever holds the refill lock is refilling. */
  ghost predicate LockInUse(s: State) {
    s.refillLock.Some? ==> RefillsIn(s, s.refillLock.value)
  }

  lemma MoveLock(s: State, t: Tid, s': State)
    requires LockInUse(s) && OnlyMoved(s.threads, s'.threads, t)
    requires s'.refillLock == None || s'.refillLock == s.refillLock || s'.refillLock == Some(t)
    requires s'.refillLock == Some(t) ==> RefillsIn(s', t)
    ensures LockInUse(s')
  {
  }

  lemma LookLock(s: State, t: Tid, s': State)
    requires LockInUse(s) && t in s.threads && PcOk(s, t, s.threads[t]) && (LookStep(s, t, s') || PublishStep(s, t, s'))
    ensures LockInUse(s')
  {
    assert !Refilling(s.threads[t]) ==> s.refillLock != Some(t);
    hide LockInUse;
    MoveLock(s, t, s');
  }

  lemma CallLock(s: State, t: Tid, e: Allocator.Event, s': State)
    requires LockInUse(s) && t in s.threads && PcOk(s, t, s.threads[t])
    requires TakeStep(s, t, e, s') || MintStep(s, t, e, s') || ClearStep(s, t, e, s')
    ensures LockInUse(s')
  {
    assert !Refilling(s.threads[t]) ==> s.refillLock != Some(t);
    hide Outside, LockInUse;
    MoveLock(s, t, s');
  }

  lemma RefillLockKept(s: State, t: Tid, s': State)
    requires LockInUse(s) && t in s.threads && PcOk(s, t, s.threads[t]) && (RefillStep(s, t, s') || ScanStep(s, t, s'))
    ensures LockInUse(s')
  {
    hide FreeOfBlock, LockInUse;
    MoveLock(s, t, s');
  }

  lemma StepLock(s: State, e: Allocator.Event, s': State)
    requires LockInUse(s) && Inv(s) && Step(s, e, s')
    ensures LockInUse(s')
  {
    hide LookStep, RefillStep, ScanStep, TakeStep, MintStep, ClearStep, PublishStep, PcOk;
    if t :| t in s.threads && ThreadStep(s, t, e, s') {
      assert PcOk(s, t, s.threads[t]);
      hide Inv;
      if RefillStep(s, t, s') || ScanStep(s, t, s') {
        RefillLockKept(s, t, s');
      } else if LookStep(s, t, s') || PublishStep(s, t, s') {
        LookLock(s, t, s');
      } else {
        CallLock(s, t, e, s');
      }
    }
  }

  lemma {:induction false} RunLock(ss: seq<State>, es: seq<Allocator.Event>, i: nat)
    requires Run(ss, es) && i < |ss|
    ensures LockInUse(ss[i])
  {
    hide Step, LockInUse;
    if i > 0 {
      RunLock(ss, es, i - 1);
      RunKeepsInv(ss, es, i - 1);
      assert Step(ss[i - 1], es[i - 1], ss[i]);
      StepLock(ss[i - 1], es[i - 1], ss[i]);
    } else {
      assert LockInUse(ss[0]) by { NoLock(ss[0]); }
    }
  }

  lemma NoLock(s: State)
    requires Init(s)
    ensures LockInUse(s)
  {
  }

  /** A refill is under way if and only if the refill lock is held, whatever failed, so refills never
      overlap and none leaves the lock behind. The free list never holds an ID that was not handed
      out before. */
  lemma RefillsExclusive(ss: seq<State>, es: seq<Allocator.Event>, i: nat, t: Tid)
    requires Run(ss, es) && i < |ss|
    ensures RefillsIn(ss[i], t) <==> ss[i].refillLock == Some(t)
    ensures |ss[i].list| <= Allocator.FAST_SIZE
    ensures forall id :: id in ss[i].list ==> id < ss[i].nextId
  {
    hide Step;
    RunKeepsInv(ss, es, i);
    RunLock(ss, es, i);
    assert t in ss[i].threads ==> PcOk(ss[i], t, ss[i].threads[t]);
  }

  /** Bits are set and cleared only of IDs that were handed out before. */
  lemma MarksInRange(ss: seq<State>, es: seq<Allocator.Event>, i: nat, t: Tid)
    requires Run(ss, es) && i < |ss| && t in ss[i].threads
    ensures ss[i].threads[t].MarkUsed? || ss[i].threads[t].MarkFree? ==> ss[i].threads[t].id < ss[i].nextId
  {
    hide Step;
    RunKeepsInv(ss, es, i);
    assert PcOk(ss[i], t, ss[i].threads[t]);
  }
}
