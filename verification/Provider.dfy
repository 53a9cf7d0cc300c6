/**
 The provider over the free space map: inserts and deletes broken into their single-key store
 operations, the switch to quantized inserts behind the write barrier, the parallel backfill and
 the hand-over to quantized search. Threads interleave freely, and every store operation may fail.
 */
module Provider {
  import opened Collections
  import Allocator
  import Backfill
  import Blocks

  const U32_MAX: nat := 0xFFFF_FFFF

  type Tid = nat
  type Iid = nat
  type Eid = string
  type Vec = seq<real>
  type Code = seq<bv8>

  /** An index stores no codes, needs no training for them, or needs training first. */
  datatype Quantizer = NoQuantizer | Untrained | Ready

  /** How many vectors training needs, the (trained) quantizer, and the start point, which is
      stored under ID 0. The callers are careful if they keep deletes of one external ID apart and
      do not repeat one that could not remove its mapping. */
  datatype Config = Config(quantizer: Quantizer, required: nat, compress: Vec -> Code, start: Vec, careful: bool)

  /** The same index with careful callers. */
  function Careful(c: Config): Config {
    c.(careful := true)
  }

  /** The store, one map per term. */
  datatype Store = Store(vec: map<Iid, Vec>, quant: map<Iid, Code>, ext: map<Iid, Eid>, ints: map<Eid, Iid>)

  /** Where a running call is; each constructor names the operation that comes next. */
  datatype Pc =
    | InsAlloc(e: Eid, v: Vec)
    | InsVec(e: Eid, v: Vec, i: Iid)
    | InsQuant(e: Eid, v: Vec, i: Iid)
    | InsExt(e: Eid, v: Vec, i: Iid)
    | InsInt(e: Eid, v: Vec, i: Iid)
    | InsUndo(i: Iid)
    | DelExt(e: Eid, i: Iid)
    | DelInt(e: Eid, i: Iid)
    | DelVec(i: Iid)
    | DelQuant(i: Iid)
    | DelFree(i: Iid)

  /** A call that trains the quantizer. It visits the used IDs in increasing order, block by block:
      `bits` are the used IDs of the block it is in, once it has read that block. */
  datatype Training =
    | NotTraining
    | Visiting(bits: Option<set<Iid>>, next: Iid, end: Iid, rows: nat)
    | Visited    // has read enough vectors
    | Stuck      // has trained the quantizer but could not store its state: nobody tries again

  /** A backfill task: the next ID, and its vector once it has been read. */
  datatype Task = Running(next: Iid, read: Option<Vec>) | Done

  /** What the last of them to finish still has to do. */
  datatype Finish = Waiting | WriteStart | EnableReuse | SetFlag | Complete | NoFlag

  datatype Fill = Fill(quantOn: bool, maxId: Iid, tasks: seq<Task>, completed: nat, finish: Finish)

  /** `contents` is not stored anywhere: it is the set of vectors as the callers see it, changed
      when an insert publishes its mapping and when a delete removes it or tries to in vain. An
      external ID of the second kind is `stale` until its mapping is overwritten or removed after
      all. Nor is `missed` stored: the IDs for which the backfill could not write a missing code. */
  datatype State = State(
    alloc: Allocator.State,
    store: Store,
    training: Training,
    fill: Fill,
    threads: map<Tid, Pc>,
    contents: map<Eid, Vec>,
    stale: set<Eid>,
    missed: set<Iid>)

  /** The mappings that are not stale. */
  function Live(s: State): map<Eid, Iid> {
    s.store.ints - s.stale
  }

  function Miss(s: State, i: Iid): set<Iid> {
    if i in s.store.quant then s.missed else s.missed + {i}
  }

  /** External ID `e` has an ID in use, its own vector there, and a mapping back. */
  ghost predicate MappedIn(s: State, e: Eid)
    requires e in s.contents
  {
    && e in s.store.ints
    && var i := s.store.ints[e];
       && i in s.alloc.used && i != 0
       && i in s.store.vec && s.store.vec[i] == s.contents[e] && i in s.store.ext && s.store.ext[i] == e
  }

  /** A code, if there is one, is that of `v`, and if there is none it counts as missed. */
  ghost predicate CodedIn(c: Config, s: State, i: Iid, v: Vec) {
    if i in s.store.quant then s.store.quant[i] == c.compress(v) else i in s.missed
  }

  /** An index nobody uses yet: a new one that only has its start point, or one opened over what is
      stored already. With a quantizer that needs no more training, codes are written from the
      first insert on; IDs are reused unless training and backfill are to come. */
  ghost predicate Init(c: Config, s: State) {
    var ready := c.quantizer.Ready?;
    && s.threads == map[]
    && Allocator.WellFormed(s.alloc) && 0 in s.alloc.used && s.alloc.nextId <= U32_MAX
    && s.alloc.reuse == !c.quantizer.Untrained?
    && s.fill == Fill(ready, 0, [], 0, if ready then Complete else Waiting) && s.training == NotTraining
    && 0 in s.store.vec && s.store.vec[0] == c.start
    && s.stale <= s.store.ints.Keys && s.contents.Keys == Live(s).Keys
    && (forall e :: e in s.contents ==> MappedIn(s, e))
    && (forall e, f :: e in Live(s) && f in Live(s) && e != f ==> Live(s)[e] != Live(s)[f])
    && s.missed !! s.store.quant.Keys
    && (if !ready then s.store.quant == map[] && s.missed == {}
        else CodedIn(c, s, 0, c.start)
             && forall e :: e in s.contents && e in s.store.ints ==> CodedIn(c, s, s.store.ints[e], s.contents[e]))
  }

  /** Holds the read barrier: from the start of `next_id` to the end of the insert. */
  predicate Inserting(pc: Pc) {
    pc.InsAlloc? || pc.InsVec? || pc.InsQuant? || pc.InsExt? || pc.InsInt? || pc.InsUndo?
  }

  /** A delete of `e` that found it at `i` and has not yet removed the mapping. */
  predicate Unmapping(pc: Pc, e: Eid, i: Iid) {
    pc == DelExt(e, i) || pc == DelInt(e, i)
  }

  function At(s: State, t: Tid, pc: Pc): State {
    s.(threads := s.threads[t := pc])
  }

  function Return(s: State, t: Tid): State {
    s.(threads := s.threads - {t})
  }

  // ---- Calls start ----

  ghost predicate StartInsert(s: State, t: Tid, s': State) {
    t !in s.threads && exists e, v :: s' == At(s, t, InsAlloc(e, v))
  }

  /** A delete looks its external ID up. */
  ghost predicate LookUp(s: State, t: Tid, e: Eid, s': State) {
    t !in s.threads && e in s.store.ints && s' == At(s, t, DelExt(e, s.store.ints[e]))
  }

  /** The mapping is not stale, and no delete of the same external ID is under way that found the
      same and has not yet removed it. */
  ghost predicate SafeToDelete(s: State, e: Eid)
    requires e in s.store.ints
  {
    e !in s.stale && forall u :: u in s.threads ==> !Unmapping(s.threads[u], e, s.store.ints[e])
  }

  ghost predicate StartDelete(c: Config, s: State, t: Tid, s': State) {
    exists e :: LookUp(s, t, e, s') && (c.careful ==> SafeToDelete(s, e))
  }

  // ---- An insert ----

  /** `next_id`: the linearized step of the allocator, or an error. */
  ghost predicate AllocStep(s: State, t: Tid, s': State)
    requires t in s.threads
  {
    && s.threads[t].InsAlloc? && s'.alloc.nextId <= U32_MAX
    && (|| (exists id :: AllocOk(s, t, id, s'))
        || (Allocator.Step(s.alloc, Allocator.Quiet, s'.alloc) && s' == Return(s, t).(alloc := s'.alloc))
        || (Allocator.Step(s.alloc, Allocator.Lost, s'.alloc) && s' == Return(s, t).(alloc := s'.alloc)))
  }

  ghost predicate AllocOk(s: State, t: Tid, id: Iid, s': State)
    requires t in s.threads && s.threads[t].InsAlloc?
  {
    && Allocator.Step(s.alloc, Allocator.Alloc(id), s'.alloc)
    && s' == At(s, t, InsVec(s.threads[t].e, s.threads[t].v, id)).(alloc := s'.alloc)
  }

  ghost predicate InsertStep(c: Config, s: State, t: Tid, s': State)
    requires t in s.threads
  {
    var pc := s.threads[t];
    || ((pc.InsVec? || pc.InsQuant? || pc.InsExt? || pc.InsInt?) && s' == At(s, t, InsUndo(pc.i))) // the write failed
    || (pc.InsVec? && s' == At(s, t, if s.fill.quantOn then InsQuant(pc.e, pc.v, pc.i) else InsExt(pc.e, pc.v, pc.i))
                            .(store := s.store.(vec := s.store.vec[pc.i := pc.v])))
    || (pc.InsQuant? && s' == At(s, t, InsExt(pc.e, pc.v, pc.i))
                              .(store := s.store.(quant := s.store.quant[pc.i := c.compress(pc.v)]),
                                missed := s.missed - {pc.i}))
    || (pc.InsExt? && s' == At(s, t, InsInt(pc.e, pc.v, pc.i))
                            .(store := s.store.(ext := s.store.ext[pc.i := pc.e])))
    || (pc.InsInt? && s' == Return(s, t).(store := s.store.(ints := s.store.ints[pc.e := pc.i]),
                                          contents := s.contents[pc.e := pc.v], stale := s.stale - {pc.e}))
  }

  // ---- A delete ----

  /** The mapping stays in the store. If it is still the one that was found, it is now stale. */
  ghost predicate UnmapFails(s: State, t: Tid, e: Eid, i: Iid, s': State) {
    if e in Live(s) && Live(s)[e] == i then
      s' == At(s, t, DelVec(i)).(contents := s.contents - {e}, stale := s.stale + {e})
    else
      s' == At(s, t, DelVec(i))
  }

  ghost predicate DeleteStep(s: State, t: Tid, s': State)
    requires t in s.threads
  {
    var pc := s.threads[t];
    || (pc.DelExt? && s' == At(s, t, DelInt(pc.e, pc.i))) // failed
    || (pc.DelExt? && s' == At(s, t, DelInt(pc.e, pc.i)).(store := s.store.(ext := s.store.ext - {pc.i})))
    || (pc.DelInt? && UnmapFails(s, t, pc.e, pc.i, s'))
    || (pc.DelInt? && s' == At(s, t, DelVec(pc.i)).(store := s.store.(ints := s.store.ints - {pc.e}),
                                                    contents := s.contents - {pc.e}, stale := s.stale - {pc.e}))
    || (pc.DelVec? && s' == At(s, t, DelQuant(pc.i))) // failed
    || (pc.DelVec? && s' == At(s, t, DelQuant(pc.i)).(store := s.store.(vec := s.store.vec - {pc.i})))
    || (pc.DelQuant? && s' == At(s, t, DelFree(pc.i))) // failed
    || (pc.DelQuant? && s' == At(s, t, DelFree(pc.i)).(store := s.store.(quant := s.store.quant - {pc.i})))
  }

  /** The last step of a delete and of a failed insert: the ID is freed, or marking it fails. */
  ghost predicate FreeStep(s: State, t: Tid, s': State)
    requires t in s.threads
  {
    var pc := s.threads[t];
    && (pc.InsUndo? || pc.DelFree?)
    && (|| s' == Return(s, t)
        || s' == Return(s, t).(alloc := s.alloc.(used := s.alloc.used - {pc.i})))
  }

  // ---- Quantization ----

  /** `blocks` may be the number of blocks: they hold every used ID and are no more than IDs were
      handed out for. */
  ghost predicate BlockCount(alloc: Allocator.State, blocks: nat) {
    && 0 < blocks && (blocks - 1) * Blocks.BLOCK_IDS <= alloc.nextId
    && forall id :: id in alloc.used ==> id < blocks * Blocks.BLOCK_IDS
  }

  /** The used IDs of the block that `id` is in. */
  ghost function BlockBits(used: set<Iid>, id: Iid): set<Iid> {
    set x | x in used && x / Blocks.BLOCK_IDS == id / Blocks.BLOCK_IDS
  }

  function VisitNext(v: Training, rows: nat): Training
    requires v.Visiting?
  {
    Visiting(if (v.next + 1) % Blocks.BLOCK_IDS == 0 then None else v.bits, v.next + 1, v.end, rows)
  }

  /** The visit is over; training goes on only with enough vectors. */
  function VisitOver(c: Config, rows: nat): Training {
    if rows >= c.required then Visited else NotTraining
  }

  /** A visit begins, unless one is under way or the quantizer is trained. */
  ghost predicate VisitStarts(c: Config, s: State, v': Training) {
    && c.quantizer.Untrained? && !s.fill.quantOn && s.training.NotTraining?
    && exists blocks: nat :: BlockCount(s.alloc, blocks) && v' == Visiting(None, 0, blocks * Blocks.BLOCK_IDS, 0)
  }

  /** The visit reads the next block, fails to, or has read all. */
  ghost predicate VisitReads(c: Config, s: State, v': Training) {
    && s.training.Visiting? && s.training.bits.None?
    && (|| (s.training.next < s.training.end &&
            v' == s.training.(bits := Some(BlockBits(s.alloc.used, s.training.next))))
        || (s.training.next < s.training.end && v' == NotTraining)
        || (s.training.next >= s.training.end && v' == VisitOver(c, s.training.rows)))
  }

  /** The visit looks at the next ID. It passes over the start point and IDs that are not used,
      reads the vector of a used one, and is over if it has enough or cannot read it. */
  ghost predicate VisitLooks(c: Config, s: State, v': Training) {
    && s.training.Visiting? && s.training.bits.Some?
    && var v := s.training;
       if v.next == 0 || v.next !in v.bits.value then v' == VisitNext(v, v.rows)
       else || v' == VisitOver(c, v.rows)
            || (v.rows < c.required && v.next in s.store.vec && v' == VisitNext(v, v.rows + 1))
  }

  /** Training fails, or storing what was trained does. */
  ghost predicate TrainFails(s: State, v': Training) {
    s.training.Visited? && (v' == NotTraining || v' == Stuck)
  }

  ghost predicate VisitStep(c: Config, s: State, s': State) {
    && s' == s.(training := s'.training)
    && (|| VisitStarts(c, s, s'.training) || VisitReads(c, s, s'.training) || VisitLooks(c, s, s'.training)
        || TrainFails(s, s'.training))
  }

  /** After training: takes the write barrier, so no insert is under way. */
  ghost predicate TrainedStep(c: Config, s: State, s': State) {
    && c.quantizer.Untrained? && !s.fill.quantOn && s.training.Visited?
    && (forall t :: t in s.threads ==> !Inserting(s.threads[t]))
    && s' == s.(fill := s.fill.(quantOn := true, maxId := if s.alloc.nextId == 0 then 0 else s.alloc.nextId - 1),
                training := NotTraining)
  }

  /** Garnet starts the backfill tasks, each index once. */
  ghost predicate LaunchStep(c: Config, s: State, s': State) {
    && c.quantizer.Untrained? && s.fill.quantOn && s.fill.tasks == [] && s.fill.maxId < U32_MAX
    && exists requested: nat :: requested > 0 && s' == s.(fill := s.fill.(tasks := Launched(s.fill.maxId, requested)))
  }

  function Launched(maxId: Iid, requested: nat): seq<Task>
    requires requested > 0
  {
    var n := Backfill.TaskCount(requested, maxId);
    seq(n, k requires 0 <= k < n => Running(Backfill.StartId(maxId, n, k), None))
  }

  /** Task `k` is at an ID of its range it has not read yet. */
  ghost predicate AtUnread(s: State, k: nat) {
    && k < |s.fill.tasks| && s.fill.tasks[k].Running? && s.fill.tasks[k].read.None?
    && s.fill.tasks[k].next < Backfill.EndId(s.fill.maxId, |s.fill.tasks|, k)
  }

  ghost predicate FillRead(s: State, k: nat, s': State) {
    && AtUnread(s, k)
    && var next := s.fill.tasks[k].next;
       next in s.store.vec && s' == s.(fill := WithTask(s.fill, k, Running(next, Some(s.store.vec[next]))))
  }

  /** No vector there: deleted, or never written. */
  ghost predicate FillSkip(s: State, k: nat, s': State) {
    && AtUnread(s, k)
    && var next := s.fill.tasks[k].next;
       next !in s.store.vec && s' == s.(fill := WithTask(s.fill, k, Running(next + 1, None)))
  }

  ghost predicate FillWrite(c: Config, s: State, k: nat, s': State) {
    && k < |s.fill.tasks| && s.fill.tasks[k].Running? && s.fill.tasks[k].read.Some?
    && var task := s.fill.tasks[k];
       s' == s.(fill := WithTask(s.fill, k, Running(task.next + 1, None)),
                store := s.store.(quant := s.store.quant[task.next := c.compress(task.read.value)]),
                missed := s.missed - {task.next})
  }

  /** Reading, compressing or writing fails; task `k` goes on with the next ID. */
  ghost predicate FillMiss(s: State, k: nat, s': State) {
    && k < |s.fill.tasks| && s.fill.tasks[k].Running?
    && var next := s.fill.tasks[k].next;
       && (s.fill.tasks[k].read.Some? || (AtUnread(s, k) && next in s.store.vec))
       && s' == s.(fill := WithTask(s.fill, k, Running(next + 1, None)), missed := Miss(s, next))
  }

  /** Task `k` reads, skips, writes or misses one ID. */
  ghost predicate FillStep(c: Config, s: State, k: nat, s': State) {
    FillRead(s, k, s') || FillSkip(s, k, s') || FillWrite(c, s, k, s') || FillMiss(s, k, s')
  }

  function WithTask(fill: Fill, k: nat, task: Task): Fill
    requires k < |fill.tasks|
  {
    fill.(tasks := fill.tasks[k := task])
  }

  /** Task `k` is through and counts itself; the last one to do so finishes the backfill. */
  ghost predicate DoneStep(s: State, k: nat, s': State) {
    && k < |s.fill.tasks| && s.fill.tasks[k].Running? && s.fill.tasks[k].read.None?
    && s.fill.tasks[k].next >= Backfill.EndId(s.fill.maxId, |s.fill.tasks|, k)
    && s' == s.(fill := WithTask(s.fill, k, Done)
                        .(completed := s.fill.completed + 1,
                          finish := if s.fill.completed + 1 == |s.fill.tasks| then WriteStart else s.fill.finish))
  }

  /** Compressing or writing the start point fails, which does not stop the finishing task. */
  ghost predicate StartMiss(s: State, s': State) {
    s.fill.finish.WriteStart? && s' == s.(fill := s.fill.(finish := EnableReuse), missed := Miss(s, 0))
  }

  /** The finishing task: quantized start point, then reuse, then the flag, if that can be stored. */
  ghost predicate FinishStep(c: Config, s: State, s': State) {
    || (&& s.fill.finish.WriteStart?
        && s' == s.(fill := s.fill.(finish := EnableReuse),
                    store := s.store.(quant := s.store.quant[0 := c.compress(c.start)]),
                    missed := s.missed - {0}))
    || StartMiss(s, s')
    || (&& s.fill.finish.EnableReuse?
        && s' == s.(fill := s.fill.(finish := SetFlag), alloc := s.alloc.(reuse := true)))
    || (&& s.fill.finish.SetFlag?
        && (s' == s.(fill := s.fill.(finish := Complete)) || s' == s.(fill := s.fill.(finish := NoFlag))))
  }

  /** The index operates on quantized vectors. */
  predicate AllQuantized(s: State) {
    s.fill.finish.Complete?
  }

  ghost predicate ThreadStep(c: Config, s: State, t: Tid, s': State) {
    || StartInsert(s, t, s')
    || StartDelete(c, s, t, s')
    || (&& t in s.threads
        && (AllocStep(s, t, s') || InsertStep(c, s, t, s') || DeleteStep(s, t, s') || FreeStep(s, t, s')))
  }

  ghost predicate Step(c: Config, s: State, s': State) {
    || (exists t :: ThreadStep(c, s, t, s'))
    || VisitStep(c, s, s')
    || TrainedStep(c, s, s')
    || LaunchStep(c, s, s')
    || (exists k :: FillStep(c, s, k, s') || DoneStep(s, k, s'))
    || FinishStep(c, s, s')
  }

  /** A run with careful callers. */
  ghost predicate Run(c: Config, ss: seq<State>) {
    && c.careful && |ss| > 0
    && Init(c, ss[0])
    && forall i :: 0 <= i < |ss| - 1 ==> Step(c, ss[i], ss[i + 1])
  }
}
