/** What every interleaving of the provider keeps. */
module ProviderProofs {
  import opened Collections
  import opened Provider
  import Allocator
  import Backfill

  // ---- Ownership: every used ID has at most one holder ----

  predicate Holding(pc: Pc) {
    !pc.InsAlloc?
  }

  ghost predicate HoldersOk(alloc: Allocator.State, threads: map<Tid, Pc>) {
    forall t :: t in threads && Holding(threads[t]) ==> threads[t].i in alloc.used && threads[t].i != 0
  }

  ghost predicate HoldersApart(threads: map<Tid, Pc>) {
    forall t, u :: t in threads && u in threads && t != u && Holding(threads[t]) && Holding(threads[u]) ==>
      threads[t].i != threads[u].i
  }

  ghost predicate MappedOk(alloc: Allocator.State, ints: map<Eid, Iid>) {
    forall e :: e in ints ==> ints[e] in alloc.used && ints[e] != 0
  }

  ghost predicate MappedApart(ints: map<Eid, Iid>) {
    forall e, f :: e in ints && f in ints && e != f ==> ints[e] != ints[f]
  }

  /** The only thread that may hold a mapped ID is a delete about to unmap it. */
  ghost predicate MappedUnheld(ints: map<Eid, Iid>, threads: map<Tid, Pc>) {
    forall e, t :: e in ints && t in threads && Holding(threads[t]) && threads[t].i == ints[e] ==>
      Unmapping(threads[t], e, ints[e])
  }

  ghost predicate Owned(s: State) {
    && Allocator.WellFormed(s.alloc) && 0 in s.alloc.used
    && HoldersOk(s.alloc, s.threads)
    && HoldersApart(s.threads)
    && MappedOk(s.alloc, Live(s))
    && MappedApart(Live(s))
    && MappedUnheld(Live(s), s.threads)
  }

  lemma StartOwned(c: Config, s: State, t: Tid, s': State)
    requires Owned(s) && c.careful && (StartInsert(s, t, s') || StartDelete(c, s, t, s'))
    ensures Owned(s')
  {
    if StartDelete(c, s, t, s') {
      var e :| LookUp(s, t, e, s') && SafeToDelete(s, e);
      assert e in Live(s) && Live(s)[e] == s.store.ints[e];
      FoundOwned(s, t, e, s');
    }
  }

  lemma FoundOwned(s: State, t: Tid, e: Eid, s': State)
    requires Owned(s) && t !in s.threads && e in Live(s) && s' == At(s, t, DelExt(e, Live(s)[e]))
    requires forall u :: u in s.threads ==> !Unmapping(s.threads[u], e, Live(s)[e])
    ensures Owned(s')
  {
    assert Live(s') == Live(s);
    hide Live;
  }

  lemma AllocOwned(s: State, t: Tid, s': State)
    requires Owned(s) && t in s.threads && AllocStep(s, t, s')
    ensures Owned(s')
  {
    hide MappedApart;
  }

  /** What one step of an insert does to the ownership of IDs. */
  lemma InsertAt(c: Config, s: State, t: Tid, s': State)
    requires t in s.threads && InsertStep(c, s, t, s')
    ensures OnlyMoved(s.threads, s'.threads, t) && s'.alloc == s.alloc && s'.fill == s.fill
    ensures Holding(s.threads[t]) && Inserting(s.threads[t])
    ensures t in s'.threads ==> Holding(s'.threads[t]) && s'.threads[t].i == s.threads[t].i && Inserting(s'.threads[t])
    ensures || Live(s') == Live(s)
            || (&& t !in s'.threads && s.threads[t].InsInt?
                && Live(s') == Live(s)[s.threads[t].e := s.threads[t].i])
    ensures s.stale <= s.store.ints.Keys ==> s'.stale <= s'.store.ints.Keys
  {
    var pc := s.threads[t];
    if pc.InsInt? {
      assert s.store.ints[pc.e := pc.i] - (s.stale - {pc.e}) == Live(s)[pc.e := pc.i];
    }
  }

  lemma InsertHolders(c: Config, s: State, t: Tid, s': State)
    requires HoldersOk(s.alloc, s.threads) && HoldersApart(s.threads)
    requires t in s.threads && InsertStep(c, s, t, s')
    ensures HoldersOk(s'.alloc, s'.threads) && HoldersApart(s'.threads)
  {
    InsertAt(c, s, t, s');
    hide InsertStep;
  }

  lemma InsertMapped(c: Config, s: State, t: Tid, s': State)
    requires Owned(s) && t in s.threads && InsertStep(c, s, t, s')
    ensures MappedOk(s'.alloc, Live(s')) && MappedApart(Live(s'))
  {
    InsertAt(c, s, t, s');
    hide InsertStep;
    hide HoldersApart;
  }

  lemma InsertUnheld(c: Config, s: State, t: Tid, s': State, e: Eid, u: Tid)
    requires HoldersApart(s.threads) && MappedUnheld(Live(s), s.threads) && t in s.threads && InsertStep(c, s, t, s')
    requires e in Live(s') && u in s'.threads && Holding(s'.threads[u]) && s'.threads[u].i == Live(s')[e]
    ensures Unmapping(s'.threads[u], e, Live(s')[e])
  {
    InsertAt(c, s, t, s');
    hide InsertStep;
  }

  lemma InsertOwned(c: Config, s: State, t: Tid, s': State)
    requires Owned(s) && t in s.threads && InsertStep(c, s, t, s')
    ensures Owned(s')
  {
    InsertHolders(c, s, t, s');
    InsertMapped(c, s, t, s');
    forall e, u | e in Live(s') && u in s'.threads && Holding(s'.threads[u]) && s'.threads[u].i == Live(s')[e]
      ensures Unmapping(s'.threads[u], e, Live(s')[e])
    {
      InsertUnheld(c, s, t, s', e, u);
    }
    hide HoldersOk, HoldersApart, MappedOk, MappedApart, Unmapping;
  }

  /** What one step of a delete does: it touches its own ID only, and stops holding a mapping once
      it has removed it or failed to. */
  lemma DeleteAt(s: State, t: Tid, s': State)
    requires t in s.threads && DeleteStep(s, t, s')
    ensures s' == s.(threads := s'.threads, store := s'.store, contents := s'.contents, stale := s'.stale)
    ensures OnlyMoved(s.threads, s'.threads, t) && t in s'.threads && Holding(s.threads[t]) && Holding(s'.threads[t])
    ensures s'.threads[t].i == s.threads[t].i && !Inserting(s'.threads[t])
    ensures s'.store.vec == s.store.vec || s'.store.vec == s.store.vec - {s.threads[t].i}
    ensures s'.store.vec != s.store.vec ==> s.threads[t].DelVec?
    ensures s'.store.quant == s.store.quant || s'.store.quant == s.store.quant - {s.threads[t].i}
    ensures s'.store.quant != s.store.quant ==> s.threads[t].DelQuant?
    ensures s'.store.ext == s.store.ext || s'.store.ext == s.store.ext - {s.threads[t].i}
    ensures s.threads[t].DelExt? ==> s'.threads[t] == DelInt(s.threads[t].e, s.threads[t].i)
    ensures !s.threads[t].DelExt? ==> s'.store.ext == s.store.ext && !s'.threads[t].DelInt? && !s'.threads[t].DelExt?
    ensures if s.threads[t].DelInt? then Unmapped(s, s', s.threads[t].e, s.threads[t].i)
            else && s'.store.ints == s.store.ints && Live(s') == Live(s)
                 && s'.contents == s.contents && s'.stale == s.stale
  {
    if s.threads[t].DelInt? {
      UnmapAt(s, t, s.threads[t].e, s.threads[t].i, s');
    }
    hide Unmapped, UnmapFails;
  }

  lemma UnmapAt(s: State, t: Tid, e: Eid, i: Iid, s': State)
    requires t in s.threads && s.threads[t] == DelInt(e, i) && DeleteStep(s, t, s')
    ensures Unmapped(s, s', e, i)
  {
    assert s.store.ints - {e} - (s.stale - {e}) == Live(s) - {e};
    assert s.store.ints - (s.stale + {e}) == Live(s) - {e};
  }

  ghost predicate Unmapped(s: State, s': State, e: Eid, i: Iid) {
    && (e in Live(s') ==> Live(s')[e] != i)
    && (s.stale <= s.store.ints.Keys ==> s'.stale <= s'.store.ints.Keys)
    && (|| (Live(s') == Live(s) && s'.contents == s.contents)
        || (Live(s') == Live(s) - {e} && s'.contents == s.contents - {e}))
  }

  /** A delete only ever removes mappings. */
  lemma DeleteInts(s: State, t: Tid, s': State)
    requires t in s.threads && DeleteStep(s, t, s')
    ensures forall e :: e in s'.store.ints ==> e in s.store.ints && s'.store.ints[e] == s.store.ints[e]
  {
    hide Live;
  }

  lemma DeleteHolders(s: State, t: Tid, s': State)
    requires HoldersOk(s.alloc, s.threads) && HoldersApart(s.threads) && t in s.threads && DeleteStep(s, t, s')
    ensures HoldersOk(s'.alloc, s'.threads) && HoldersApart(s'.threads)
  {
    DeleteAt(s, t, s');
    hide DeleteStep, Inserting, Live, Unmapped;
  }

  lemma DeleteOwned(s: State, t: Tid, s': State)
    requires Owned(s) && t in s.threads && DeleteStep(s, t, s')
    ensures Owned(s')
  {
    DeleteHolders(s, t, s');
    DeleteAt(s, t, s');
    hide DeleteStep, Inserting, Live, HoldersOk, HoldersApart;
  }

  lemma FreeOwned(s: State, t: Tid, s': State)
    requires Owned(s) && t in s.threads && FreeStep(s, t, s')
    ensures Owned(s')
  {
  }

  // ---- Data: what is mapped is what was inserted ----

  ghost predicate VectorsOk(live: map<Eid, Iid>, store: Store, contents: map<Eid, Vec>) {
    && contents.Keys == live.Keys
    && forall e :: e in live ==> live[e] in store.vec && store.vec[live[e]] == contents[e]
  }

  ghost predicate BeingUnmapped(threads: map<Tid, Pc>, e: Eid, i: Iid) {
    exists t :: t in threads && threads[t] == DelInt(e, i)
  }

  ghost predicate BackOk(live: map<Eid, Iid>, store: Store, threads: map<Tid, Pc>, e: Eid)
    requires e in live
  {
    || BeingUnmapped(threads, e, live[e])
    || (live[e] in store.ext && store.ext[live[e]] == e)
  }

  ghost predicate BackMapOk(live: map<Eid, Iid>, store: Store, threads: map<Tid, Pc>) {
    forall e :: e in live ==> BackOk(live, store, threads, e)
  }

  /** What an insert has written so far is still there. */
  ghost predicate WrittenOk(store: Store, pc: Pc) {
    && (pc.InsQuant? || pc.InsExt? || pc.InsInt? ==> pc.i in store.vec && store.vec[pc.i] == pc.v)
    && (pc.InsInt? ==> pc.i in store.ext && store.ext[pc.i] == pc.e)
  }

  ghost predicate InsertsOk(store: Store, threads: map<Tid, Pc>) {
    forall t :: t in threads ==> WrittenOk(store, threads[t])
  }

  ghost predicate Data(s: State) {
    && VectorsOk(Live(s), s.store, s.contents)
    && BackMapOk(Live(s), s.store, s.threads)
    && InsertsOk(s.store, s.threads)
  }

  /** A thread's step neither ends nor disturbs another thread's unmapping. */
  lemma UnmappingStays(a: map<Tid, Pc>, b: map<Tid, Pc>, t: Tid, e: Eid, i: Iid)
    requires OnlyMoved(a, b, t) && BeingUnmapped(a, e, i)
    requires t in a ==> a[t] != DelInt(e, i)
    ensures BeingUnmapped(b, e, i)
  {
    var u :| u in a && a[u] == DelInt(e, i);
    assert u in b && b[u] == DelInt(e, i);
  }

  /** A step that leaves the mapping of `e` alone. */
  lemma BackKept(s: State, t: Tid, s': State, e: Eid)
    requires OnlyMoved(s.threads, s'.threads, t)
    requires e in Live(s) && e in Live(s') && Live(s)[e] == Live(s')[e]
    requires t in s.threads ==> s.threads[t] != DelInt(e, Live(s)[e])
    requires Live(s)[e] in s.store.ext ==>
               Live(s)[e] in s'.store.ext && s'.store.ext[Live(s)[e]] == s.store.ext[Live(s)[e]]
    requires BackOk(Live(s), s.store, s.threads, e)
    ensures BackOk(Live(s'), s'.store, s'.threads, e)
  {
    if BeingUnmapped(s.threads, e, Live(s)[e]) {
      UnmappingStays(s.threads, s'.threads, t, e, Live(s)[e]);
    }
  }

  /** Calls that start and allocator steps leave the store alone. */
  lemma StartBack(s: State, t: Tid, s': State)
    requires BackMapOk(Live(s), s.store, s.threads) && OnlyMoved(s.threads, s'.threads, t)
    requires s'.store == s.store && s'.stale == s.stale
    requires t in s.threads ==> !s.threads[t].DelInt?
    ensures BackMapOk(Live(s'), s'.store, s'.threads)
  {
    hide BackOk;
    forall e | e in Live(s')
      ensures BackOk(Live(s'), s'.store, s'.threads, e)
    {
      BackKept(s, t, s', e);
    }
  }

  lemma InsertBack(c: Config, s: State, t: Tid, s': State, e: Eid)
    requires Owned(s) && Data(s) && t in s.threads && InsertStep(c, s, t, s') && e in Live(s')
    ensures BackOk(Live(s'), s'.store, s'.threads, e)
  {
    assert WrittenOk(s.store, s.threads[t]);
    if s.threads[t].InsInt? && e == s.threads[t].e && Live(s')[e] == s.threads[t].i {
    } else {
      BackKept(s, t, s', e);
    }
  }

  lemma DeleteBack(s: State, t: Tid, s': State, e: Eid)
    requires Owned(s) && Data(s) && t in s.threads && DeleteStep(s, t, s') && e in Live(s')
    ensures BackOk(Live(s'), s'.store, s'.threads, e)
  {
    DeleteAt(s, t, s');
    hide DeleteStep, Inserting;
    if s.threads[t] == DelExt(e, Live(s)[e]) {
      assert s'.threads[t] == DelInt(e, Live(s)[e]);
    } else {
      BackKept(s, t, s', e);
    }
  }

  lemma UnchangedData(s: State, t: Tid, s': State)
    requires Data(s) && OnlyMoved(s.threads, s'.threads, t)
    requires s'.store == s.store && s'.contents == s.contents && s'.stale == s.stale
    requires t in s.threads ==> !s.threads[t].DelInt?
    requires t in s'.threads ==> WrittenOk(s'.store, s'.threads[t])
    ensures Data(s')
  {
    hide VectorsOk, BackMapOk, WrittenOk;
    StartBack(s, t, s');
  }

  /** Calls that start, allocations and frees. */
  lemma QuietData(c: Config, s: State, t: Tid, s': State)
    requires Data(s)
    requires || StartInsert(s, t, s') || StartDelete(c, s, t, s')
             || (t in s.threads && (AllocStep(s, t, s') || FreeStep(s, t, s')))
    ensures Data(s')
  {
    hide Data;
    assert OnlyMoved(s.threads, s'.threads, t);
    UnchangedData(s, t, s');
  }

  lemma InsertWritten(c: Config, s: State, t: Tid, s': State, u: Tid)
    requires HoldersApart(s.threads) && InsertsOk(s.store, s.threads)
    requires t in s.threads && InsertStep(c, s, t, s') && u in s'.threads
    ensures WrittenOk(s'.store, s'.threads[u])
  {
    assert WrittenOk(s.store, s.threads[t]);
    if u != t {
      assert WrittenOk(s.store, s.threads[u]);
    }
  }

  lemma InsertData(c: Config, s: State, t: Tid, s': State)
    requires Owned(s) && Data(s) && t in s.threads && InsertStep(c, s, t, s')
    ensures Data(s')
  {
    hide BackOk, WrittenOk, InsertStep;
    forall u | u in s'.threads
      ensures WrittenOk(s'.store, s'.threads[u])
    {
      InsertWritten(c, s, t, s', u);
    }
    forall e | e in Live(s')
      ensures BackOk(Live(s'), s'.store, s'.threads, e)
    {
      InsertBack(c, s, t, s', e);
    }
    InsertVectors(c, s, t, s');
  }

  lemma InsertVectors(c: Config, s: State, t: Tid, s': State)
    requires MappedUnheld(Live(s), s.threads) && VectorsOk(Live(s), s.store, s.contents)
    requires InsertsOk(s.store, s.threads)
    requires t in s.threads && InsertStep(c, s, t, s')
    ensures VectorsOk(Live(s'), s'.store, s'.contents)
  {
    assert WrittenOk(s.store, s.threads[t]);
    InsertAt(c, s, t, s');
    hide InsertsOk;
    if s.threads[t].InsInt? && t !in s'.threads {
      assert Live(s') == Live(s)[s.threads[t].e := s.threads[t].i] by { InsertMaps(c, s, t, s'); }
    }
    hide Live;
  }

  lemma InsertMaps(c: Config, s: State, t: Tid, s': State)
    requires t in s.threads && InsertStep(c, s, t, s') && s.threads[t].InsInt? && t !in s'.threads
    ensures Live(s') == Live(s)[s.threads[t].e := s.threads[t].i]
  {
    var pc := s.threads[t];
    assert s.store.ints[pc.e := pc.i] - (s.stale - {pc.e}) == Live(s)[pc.e := pc.i];
  }

  lemma DeleteWritten(s: State, t: Tid, s': State, u: Tid)
    requires HoldersApart(s.threads) && InsertsOk(s.store, s.threads)
    requires t in s.threads && DeleteStep(s, t, s') && u in s'.threads
    ensures WrittenOk(s'.store, s'.threads[u])
  {
    DeleteAt(s, t, s');
    hide DeleteStep, Inserting;
    if u != t {
      assert WrittenOk(s.store, s.threads[u]);
    }
  }

  lemma DeleteVectors(s: State, t: Tid, s': State)
    requires MappedUnheld(Live(s), s.threads) && VectorsOk(Live(s), s.store, s.contents)
    requires t in s.threads && DeleteStep(s, t, s')
    ensures VectorsOk(Live(s'), s'.store, s'.contents)
  {
    DeleteAt(s, t, s');
    hide DeleteStep, Inserting;
  }

  lemma DeleteData(s: State, t: Tid, s': State)
    requires Owned(s) && Data(s) && t in s.threads && DeleteStep(s, t, s')
    ensures Data(s')
  {
    hide BackOk, WrittenOk, DeleteStep;
    forall u | u in s'.threads
      ensures WrittenOk(s'.store, s'.threads[u])
    {
      DeleteWritten(s, t, s', u);
    }
    forall e | e in Live(s')
      ensures BackOk(Live(s'), s'.store, s'.threads, e)
    {
      DeleteBack(s, t, s', e);
    }
    DeleteVectors(s, t, s');
  }

  // ---- Quantization ----

  ghost predicate AllDone(tasks: seq<Task>) {
    forall k :: 0 <= k < |tasks| ==> tasks[k].Done?
  }

  ghost function CountDone(tasks: seq<Task>): nat {
    if tasks == [] then 0
    else CountDone(tasks[..|tasks| - 1]) + if tasks[|tasks| - 1].Done? then 1 else 0
  }

  lemma {:induction false} CountDoneFull(tasks: seq<Task>)
    ensures CountDone(tasks) <= |tasks|
    ensures CountDone(tasks) == |tasks| <==> AllDone(tasks)
  {
    if tasks != [] {
      var n := |tasks| - 1;
      CountDoneFull(tasks[..n]);
      assert AllDone(tasks) <==> AllDone(tasks[..n]) && tasks[n].Done?;
    }
  }

  lemma {:induction false} CountDoneUpdate(tasks: seq<Task>, k: nat, task: Task)
    requires k < |tasks| && tasks[k].Running?
    ensures CountDone(tasks[k := task]) == CountDone(tasks) + if task.Done? then 1 else 0
  {
    var n := |tasks| - 1;
    if k < n {
      CountDoneUpdate(tasks[..n], k, task);
      assert tasks[k := task][..n] == tasks[..n][k := task];
    } else {
      assert tasks[k := task][..n] == tasks[..n];
    }
  }

  lemma {:induction false} CountDoneNone(tasks: seq<Task>)
    requires forall k :: 0 <= k < |tasks| ==> tasks[k].Running?
    ensures CountDone(tasks) == 0
  {
    if tasks != [] {
      CountDoneNone(tasks[..|tasks| - 1]);
    }
  }

  /** The finishing task has come to the flag. */
  predicate AtFlag(finish: Finish) {
    finish.SetFlag? || finish.Complete? || finish.NoFlag?
  }

  /** Where the switch to codes stands. Without training there is nothing to switch. */
  ghost predicate PhaseOk(c: Config, alloc: Allocator.State, fill: Fill) {
    && (fill.quantOn ==> fill.maxId < alloc.nextId) && alloc.nextId <= U32_MAX
    && match c.quantizer
       case NoQuantizer => alloc.reuse && !fill.quantOn && fill.tasks == [] && fill.finish == Waiting
       case Ready => alloc.reuse && fill.quantOn && fill.maxId == 0 && fill.tasks == [] && fill.finish == Complete
       case Untrained =>
         && (fill.tasks != [] ==> fill.quantOn && Backfill.Sensible(fill.maxId, |fill.tasks|))
         && (fill.finish != Waiting <==> fill.tasks != [] && AllDone(fill.tasks))
         && (alloc.reuse <==> AtFlag(fill.finish))
         && fill.completed == CountDone(fill.tasks)
  }

  ghost predicate TaskOk(fill: Fill, k: nat)
    requires k < |fill.tasks|
  {
    var task := fill.tasks[k];
    task.Running? ==> && Backfill.StartId(fill.maxId, |fill.tasks|, k) <= task.next
                      && (task.read.Some? ==> task.next < Backfill.EndId(fill.maxId, |fill.tasks|, k))
  }

  ghost predicate TasksOk(fill: Fill) {
    forall k :: 0 <= k < |fill.tasks| ==> TaskOk(fill, k)
  }

  /** Task `k` has dealt with ID `i`. */
  ghost predicate Past(fill: Fill, k: nat, i: Iid)
    requires k < |fill.tasks|
  {
    && Backfill.InTask(fill.maxId, |fill.tasks|, k, i)
    && (fill.tasks[k].Done? || i < fill.tasks[k].next)
  }

  /** ID `i` needs no backfill, or some task has dealt with it. */
  ghost predicate Filled(fill: Fill, i: Iid) {
    i > fill.maxId || exists k :: 0 <= k < |fill.tasks| && Past(fill, k, i)
  }

  ghost predicate HasCode(c: Config, store: Store, i: Iid, v: Vec) {
    i in store.quant && store.quant[i] == c.compress(v)
  }

  /** A code, if there is one, is the vector's own, and once it is due there is one unless it was
      missed. */
  ghost predicate CodeOk(c: Config, live: map<Eid, Iid>, store: Store, fill: Fill, missed: set<Iid>,
                         contents: map<Eid, Vec>, e: Eid)
    requires e in live && e in contents
  {
    var i := live[e];
    && (i in store.quant ==> store.quant[i] == c.compress(contents[e]))
    && (fill.quantOn && Filled(fill, i) ==> i in store.quant || i in missed)
  }

  ghost predicate CodesOk(c: Config, live: map<Eid, Iid>, store: Store, fill: Fill, missed: set<Iid>,
                          contents: map<Eid, Vec>) {
    forall e :: e in live && e in contents ==> CodeOk(c, live, store, fill, missed, contents, e)
  }

  /** Until reuse is on, inserts work on IDs the backfill does not touch, and an insert that is
      past its quantized write has its code in place. */
  ghost predicate InsertCodeOk(c: Config, alloc: Allocator.State, store: Store, fill: Fill, pc: Pc) {
    if !fill.quantOn then !pc.InsQuant? else
      && ((pc.InsVec? || pc.InsQuant? || pc.InsExt? || pc.InsInt?) && !alloc.reuse ==> pc.i > fill.maxId)
      && (pc.InsExt? || pc.InsInt? ==> HasCode(c, store, pc.i, pc.v))
  }

  ghost predicate InsertCodesOk(c: Config, alloc: Allocator.State, store: Store, fill: Fill, threads: map<Tid, Pc>) {
    forall t :: t in threads ==> InsertCodeOk(c, alloc, store, fill, threads[t])
  }

  /** A vector a task has read is still the one its ID is mapped for, if it is mapped. */
  ghost predicate ReadOk(ints: map<Eid, Iid>, contents: map<Eid, Vec>, task: Task) {
    task.Running? && task.read.Some? ==>
      forall e :: e in ints && e in contents && ints[e] == task.next ==> contents[e] == task.read.value
  }

  ghost predicate ReadsOk(ints: map<Eid, Iid>, contents: map<Eid, Vec>, tasks: seq<Task>) {
    forall k :: 0 <= k < |tasks| ==> ReadOk(ints, contents, tasks[k])
  }

  ghost predicate StartReadsOk(c: Config, tasks: seq<Task>) {
    forall k :: 0 <= k < |tasks| && tasks[k].Running? && tasks[k].read.Some? && tasks[k].next == 0 ==>
      tasks[k].read.value == c.start
  }

  ghost predicate StartPointOk(c: Config, store: Store, fill: Fill, missed: set<Iid>) {
    && 0 in store.vec && store.vec[0] == c.start && StartReadsOk(c, fill.tasks)
    && (0 in store.quant ==> store.quant[0] == c.compress(c.start))
    && (fill.finish.EnableReuse? || AtFlag(fill.finish) ==> 0 in store.quant || 0 in missed)
    && (!fill.quantOn ==> store.quant == map[])
  }

  ghost predicate Coded(c: Config, s: State) {
    && PhaseOk(c, s.alloc, s.fill)
    && TasksOk(s.fill)
    && CodesOk(c, Live(s), s.store, s.fill, s.missed, s.contents)
    && InsertCodesOk(c, s.alloc, s.store, s.fill, s.threads)
    && ReadsOk(Live(s), s.contents, s.fill.tasks)
    && StartPointOk(c, s.store, s.fill, s.missed)
  }

  /** A running task has an ID within 0..=maxId when it has read one, and reuse is still off. */
  lemma RunningTask(c: Config, alloc: Allocator.State, fill: Fill, k: nat)
    requires PhaseOk(c, alloc, fill) && TasksOk(fill) && k < |fill.tasks| && fill.tasks[k].Running?
    ensures c.quantizer.Untrained? && !alloc.reuse && fill.finish == Waiting && fill.quantOn
    ensures Backfill.Sensible(fill.maxId, |fill.tasks|)
    ensures fill.tasks[k].read.Some? ==>
              Backfill.InTask(fill.maxId, |fill.tasks|, k, fill.tasks[k].next) && fill.tasks[k].next <= fill.maxId
  {
    assert TaskOk(fill, k);
    if fill.tasks[k].read.Some? {
      Backfill.InRange(fill.maxId, |fill.tasks|, k, fill.tasks[k].next);
    }
  }

  lemma UnchangedCoded(c: Config, s: State, t: Tid, s': State)
    requires Coded(c, s) && OnlyMoved(s.threads, s'.threads, t)
    requires s'.store == s.store && s'.contents == s.contents && s'.stale == s.stale
    requires s'.fill == s.fill && s'.missed == s.missed
    requires s.alloc.nextId <= s'.alloc.nextId <= U32_MAX && s'.alloc.reuse == s.alloc.reuse
    requires t in s'.threads ==> InsertCodeOk(c, s'.alloc, s'.store, s'.fill, s'.threads[t])
    ensures Coded(c, s')
  {
    hide CodesOk, ReadsOk, TasksOk, StartPointOk, HasCode, AllDone, CountDone;
    forall u | u in s'.threads && u != t
      ensures InsertCodeOk(c, s'.alloc, s'.store, s'.fill, s'.threads[u])
    {
      assert InsertCodeOk(c, s.alloc, s.store, s.fill, s.threads[u]);
    }
  }

  lemma StartCoded(c: Config, s: State, t: Tid, s': State)
    requires Coded(c, s) && (StartInsert(s, t, s') || StartDelete(c, s, t, s'))
    ensures Coded(c, s')
  {
    assert s.alloc.nextId <= U32_MAX;
    hide Coded, HasCode;
    UnchangedCoded(c, s, t, s');
  }

  /** While reuse is off, an allocated ID is new and thus above the backfill range. */
  lemma AllocCoded(c: Config, s: State, t: Tid, s': State)
    requires Coded(c, s) && t in s.threads && AllocStep(s, t, s')
    ensures Coded(c, s')
  {
    assert s.fill.quantOn ==> s.fill.maxId < s.alloc.nextId;
    hide Coded, HasCode;
    UnchangedCoded(c, s, t, s');
  }

  lemma FreeCoded(c: Config, s: State, t: Tid, s': State)
    requires Coded(c, s) && t in s.threads && FreeStep(s, t, s')
    ensures Coded(c, s')
  {
    assert s.alloc.nextId <= U32_MAX;
    hide Coded, HasCode;
    UnchangedCoded(c, s, t, s');
  }

  lemma InsertCode(c: Config, s: State, t: Tid, s': State, e: Eid)
    requires Owned(s) && CodesOk(c, Live(s), s.store, s.fill, s.missed, s.contents)
    requires InsertCodesOk(c, s.alloc, s.store, s.fill, s.threads)
    requires t in s.threads && InsertStep(c, s, t, s') && e in Live(s') && e in s'.contents
    requires VectorsOk(Live(s), s.store, s.contents) && (!s.fill.quantOn ==> s.store.quant == map[])
    ensures CodeOk(c, Live(s'), s'.store, s'.fill, s'.missed, s'.contents, e)
  {
    assert InsertCodeOk(c, s.alloc, s.store, s.fill, s.threads[t]);
    hide Filled;
    if e in Live(s) {
      assert CodeOk(c, Live(s), s.store, s.fill, s.missed, s.contents, e);
    }
  }

  lemma InsertInsertCode(c: Config, s: State, t: Tid, s': State, u: Tid)
    requires HoldersApart(s.threads) && InsertCodesOk(c, s.alloc, s.store, s.fill, s.threads)
    requires t in s.threads && InsertStep(c, s, t, s') && u in s'.threads
    ensures InsertCodeOk(c, s'.alloc, s'.store, s'.fill, s'.threads[u])
  {
    assert InsertCodeOk(c, s.alloc, s.store, s.fill, s.threads[t]);
    if u != t {
      assert InsertCodeOk(c, s.alloc, s.store, s.fill, s.threads[u]);
    }
  }

  lemma InsertRead(c: Config, s: State, t: Tid, s': State, k: nat)
    requires Coded(c, s) && VectorsOk(Live(s), s.store, s.contents)
    requires t in s.threads && InsertStep(c, s, t, s') && k < |s.fill.tasks|
    ensures ReadOk(Live(s'), s'.contents, s.fill.tasks[k])
  {
    assert ReadOk(Live(s), s.contents, s.fill.tasks[k]);
    assert InsertCodeOk(c, s.alloc, s.store, s.fill, s.threads[t]);
    if s.fill.tasks[k].Running? {
      RunningTask(c, s.alloc, s.fill, k);
    }
    hide PhaseOk, TasksOk, CodesOk, ReadsOk, InsertCodesOk, StartPointOk, HasCode;
  }

  lemma InsertStartPoint(c: Config, s: State, t: Tid, s': State)
    requires HoldersOk(s.alloc, s.threads) && InsertCodesOk(c, s.alloc, s.store, s.fill, s.threads)
    requires StartPointOk(c, s.store, s.fill, s.missed) && t in s.threads && InsertStep(c, s, t, s')
    ensures StartPointOk(c, s'.store, s'.fill, s'.missed)
  {
    assert InsertCodeOk(c, s.alloc, s.store, s.fill, s.threads[t]) && Holding(s.threads[t]);
    hide StartReadsOk;
  }

  lemma InsertCoded(c: Config, s: State, t: Tid, s': State)
    requires Owned(s) && Data(s) && Coded(c, s) && t in s.threads && InsertStep(c, s, t, s')
    ensures Coded(c, s')
  {
    InsertAt(c, s, t, s');
    InsertStartPoint(c, s, t, s');
    hide InsertStep;
    forall e | e in Live(s') && e in s'.contents
      ensures CodeOk(c, Live(s'), s'.store, s'.fill, s'.missed, s'.contents, e)
    {
      InsertCode(c, s, t, s', e);
    }
    forall u | u in s'.threads
      ensures InsertCodeOk(c, s'.alloc, s'.store, s'.fill, s'.threads[u])
    {
      InsertInsertCode(c, s, t, s', u);
    }
    forall k | 0 <= k < |s'.fill.tasks|
      ensures ReadOk(Live(s'), s'.contents, s'.fill.tasks[k])
    {
      InsertRead(c, s, t, s', k);
    }
    hide CodeOk, InsertCodeOk, ReadOk, PhaseOk, TasksOk, StartPointOk, Data;
  }

  lemma DeleteCode(c: Config, s: State, t: Tid, s': State, e: Eid)
    requires Owned(s) && CodesOk(c, Live(s), s.store, s.fill, s.missed, s.contents)
    requires VectorsOk(Live(s), s.store, s.contents)
    requires t in s.threads && DeleteStep(s, t, s') && e in Live(s') && e in s'.contents
    ensures CodeOk(c, Live(s'), s'.store, s'.fill, s'.missed, s'.contents, e)
  {
    DeleteAt(s, t, s');
    hide DeleteStep, Inserting;
    hide Filled;
    assert CodeOk(c, Live(s), s.store, s.fill, s.missed, s.contents, e);
  }

  lemma DeleteInsertCode(c: Config, s: State, t: Tid, s': State, u: Tid)
    requires HoldersApart(s.threads) && InsertCodesOk(c, s.alloc, s.store, s.fill, s.threads)
    requires t in s.threads && DeleteStep(s, t, s') && u in s'.threads
    ensures InsertCodeOk(c, s'.alloc, s'.store, s'.fill, s'.threads[u])
  {
    DeleteAt(s, t, s');
    hide DeleteStep, Inserting;
    if u != t {
      assert InsertCodeOk(c, s.alloc, s.store, s.fill, s.threads[u]);
    }
  }

  lemma DeleteStartPoint(c: Config, s: State, t: Tid, s': State)
    requires HoldersOk(s.alloc, s.threads) && StartPointOk(c, s.store, s.fill, s.missed)
    requires t in s.threads && DeleteStep(s, t, s')
    ensures StartPointOk(c, s'.store, s'.fill, s'.missed)
  {
    DeleteAt(s, t, s');
    hide DeleteStep, Inserting, StartReadsOk, Unmapped;
  }

  lemma DeleteRead(s: State, t: Tid, s': State, task: Task)
    requires ReadOk(Live(s), s.contents, task) && t in s.threads && DeleteStep(s, t, s')
    ensures ReadOk(Live(s'), s'.contents, task)
  {
    DeleteAt(s, t, s');
    hide DeleteStep, Inserting, Live;
  }

  lemma DeleteCoded(c: Config, s: State, t: Tid, s': State)
    requires Owned(s) && Data(s) && Coded(c, s) && t in s.threads && DeleteStep(s, t, s')
    ensures Coded(c, s')
  {
    DeleteAt(s, t, s');
    DeleteStartPoint(c, s, t, s');
    forall e | e in Live(s') && e in s'.contents
      ensures CodeOk(c, Live(s'), s'.store, s'.fill, s'.missed, s'.contents, e)
    {
      DeleteCode(c, s, t, s', e);
    }
    forall u | u in s'.threads
      ensures InsertCodeOk(c, s'.alloc, s'.store, s'.fill, s'.threads[u])
    {
      DeleteInsertCode(c, s, t, s', u);
    }
    forall k | 0 <= k < |s'.fill.tasks|
      ensures ReadOk(Live(s'), s'.contents, s'.fill.tasks[k])
    {
      DeleteRead(s, t, s', s.fill.tasks[k]);
    }
    hide CodeOk, InsertCodeOk, ReadOk, PhaseOk, TasksOk, StartPointOk, Data, DeleteStep, Live, Unmapped, Inserting;
  }

  /** A visit changes nothing but its own record. */
  lemma VisitOnly(c: Config, s: State, s': State)
    requires VisitStep(c, s, s')
    ensures s' == s.(training := s'.training)
  {
  }

  lemma VisitCoded(c: Config, s: State, s': State)
    requires Coded(c, s) && VisitStep(c, s, s')
    ensures Coded(c, s')
  {
    VisitOnly(c, s, s');
    assert Live(s') == Live(s);
    hide VisitStep, Live, PhaseOk, TasksOk, CodesOk, InsertCodesOk, ReadsOk, StartPointOk;
  }

  lemma TrainedCoded(c: Config, s: State, s': State)
    requires Owned(s) && Coded(c, s) && TrainedStep(c, s, s')
    ensures Coded(c, s')
  {
    forall e | e in Live(s') && e in s'.contents
      ensures CodeOk(c, Live(s'), s'.store, s'.fill, s'.missed, s'.contents, e)
    {
      assert Live(s')[e] in s.alloc.used;
    }
    hide HasCode, TaskOk;
  }

  lemma LaunchCoded(c: Config, s: State, s': State)
    requires Coded(c, s) && LaunchStep(c, s, s')
    ensures Coded(c, s')
  {
    CountDoneNone(s'.fill.tasks);
    CountDoneNone(s.fill.tasks);
    forall e | e in Live(s') && e in s'.contents
      ensures CodeOk(c, Live(s'), s'.store, s'.fill, s'.missed, s'.contents, e)
    {
      assert CodeOk(c, Live(s), s.store, s.fill, s.missed, s.contents, e);
    }
    forall t | t in s'.threads
      ensures InsertCodeOk(c, s'.alloc, s'.store, s'.fill, s'.threads[t])
    {
      assert InsertCodeOk(c, s.alloc, s.store, s.fill, s.threads[t]);
    }
    hide HasCode, Backfill.StartId, Backfill.EndId;
  }

  /** Moving one task on fills at most the ID it was at. */
  lemma FilledGrows(fill: Fill, k: nat, task: Task, i: Iid)
    requires k < |fill.tasks| && fill.tasks[k].Running?
    requires if task.Running? then task.next <= fill.tasks[k].next + 1
             else fill.tasks[k].next >= Backfill.EndId(fill.maxId, |fill.tasks|, k)
    requires Filled(WithTask(fill, k, task), i)
    ensures Filled(fill, i) || (task.Running? && i == fill.tasks[k].next < task.next)
  {
    hide Backfill.StartId, Backfill.EndId;
    var fill' := WithTask(fill, k, task);
    if i <= fill.maxId {
      var j :| 0 <= j < |fill'.tasks| && Past(fill', j, i);
      if j != k {
        assert Past(fill, j, i);
      } else if !(task.Running? && i == fill.tasks[k].next < task.next) {
        assert Past(fill, k, i);
      }
    }
  }

  lemma FillCode(c: Config, s: State, k: nat, s': State, e: Eid)
    requires VectorsOk(Live(s), s.store, s.contents) && FillStep(c, s, k, s') && e in Live(s)
    requires CodeOk(c, Live(s), s.store, s.fill, s.missed, s.contents, e)
    requires ReadOk(Live(s), s.contents, s.fill.tasks[k])
    ensures CodeOk(c, Live(s'), s'.store, s'.fill, s'.missed, s'.contents, e)
  {
    hide Filled, FillRead, FillSkip, FillWrite;
    FillAt(c, s, k, s');
    if Filled(s'.fill, Live(s')[e]) {
      FilledGrows(s.fill, k, s'.fill.tasks[k], Live(s)[e]);
    }
  }

  /** What one step of a task does to its own record and to the codes. */
  lemma FillAt(c: Config, s: State, k: nat, s': State)
    requires FillStep(c, s, k, s')
    ensures s' == s.(fill := s'.fill, store := s'.store, missed := s'.missed)
    ensures s'.store == s.store.(quant := s'.store.quant)
    ensures k < |s.fill.tasks| && s.fill.tasks[k].Running?
    ensures |s'.fill.tasks| == |s.fill.tasks| && s'.fill == WithTask(s.fill, k, s'.fill.tasks[k])
    ensures s'.fill.tasks[k].Running? && s.fill.tasks[k].next <= s'.fill.tasks[k].next <= s.fill.tasks[k].next + 1
    ensures s'.store.quant == s.store.quant
            || (&& s.fill.tasks[k].read.Some?
                && s'.store.quant == s.store.quant[s.fill.tasks[k].next := c.compress(s.fill.tasks[k].read.value)])
    ensures forall i :: i in s.missed ==> i in s'.missed || i in s'.store.quant
    ensures s'.fill.tasks[k].read.Some? ==>
              var i := s.fill.tasks[k].next;
              && i in s.store.vec && s'.fill.tasks[k] == Running(i, Some(s.store.vec[i]))
              && i < Backfill.EndId(s.fill.maxId, |s.fill.tasks|, k)
    ensures s'.fill.tasks[k].next > s.fill.tasks[k].next ==>
              var i := s.fill.tasks[k].next; i !in s.store.vec || i in s'.store.quant || i in s'.missed
  {
  }

  lemma FillInsertCode(c: Config, s: State, k: nat, s': State, t: Tid)
    requires Coded(c, s) && FillStep(c, s, k, s') && t in s.threads
    ensures InsertCodeOk(c, s'.alloc, s'.store, s'.fill, s'.threads[t])
  {
    RunningTask(c, s.alloc, s.fill, k);
    assert InsertCodeOk(c, s.alloc, s.store, s.fill, s.threads[t]);
    hide PhaseOk, TasksOk, CodesOk, InsertCodesOk, ReadsOk, StartPointOk, Backfill.EndId, Backfill.StartId;
  }

  lemma FillPhase(c: Config, s: State, k: nat, s': State)
    requires Coded(c, s) && FillStep(c, s, k, s')
    ensures PhaseOk(c, s'.alloc, s'.fill) && StartPointOk(c, s'.store, s'.fill, s'.missed) && TasksOk(s'.fill)
  {
    FillAt(c, s, k, s');
    RunningTask(c, s.alloc, s.fill, k);
    CountDoneUpdate(s.fill.tasks, k, s'.fill.tasks[k]);
    assert TaskOk(s.fill, k);
    hide FillStep, HasCode, CodesOk, InsertCodesOk, ReadsOk, AllDone, CountDone, Backfill.EndId, Backfill.StartId;
    forall j | 0 <= j < |s'.fill.tasks|
      ensures TaskOk(s'.fill, j)
    {
      assert TaskOk(s.fill, j);
    }
  }

  lemma FillCoded(c: Config, s: State, k: nat, s': State)
    requires VectorsOk(Live(s), s.store, s.contents) && Coded(c, s) && FillStep(c, s, k, s')
    ensures Coded(c, s')
  {
    FillAt(c, s, k, s');
    hide FillStep;
    FillPhase(c, s, k, s');
    forall e | e in Live(s') && e in s'.contents
      ensures CodeOk(c, Live(s'), s'.store, s'.fill, s'.missed, s'.contents, e)
    {
      assert CodeOk(c, Live(s), s.store, s.fill, s.missed, s.contents, e);
      assert ReadOk(Live(s), s.contents, s.fill.tasks[k]);
      FillCode(c, s, k, s', e);
    }
    forall t | t in s'.threads
      ensures InsertCodeOk(c, s'.alloc, s'.store, s'.fill, s'.threads[t])
    {
      FillInsertCode(c, s, k, s', t);
    }
    forall j | 0 <= j < |s'.fill.tasks|
      ensures ReadOk(Live(s'), s'.contents, s'.fill.tasks[j])
    {
      assert ReadOk(Live(s), s.contents, s.fill.tasks[j]);
    }
    hide CodeOk, InsertCodeOk, ReadOk, PhaseOk, TasksOk, StartPointOk;
  }

  lemma DonePhase(c: Config, s: State, k: nat, s': State)
    requires Coded(c, s) && DoneStep(s, k, s')
    ensures PhaseOk(c, s'.alloc, s'.fill) && StartPointOk(c, s'.store, s'.fill, s'.missed) && TasksOk(s'.fill)
  {
    RunningTask(c, s.alloc, s.fill, k);
    CountDoneUpdate(s.fill.tasks, k, Done);
    CountDoneFull(s'.fill.tasks);
    hide HasCode, CodesOk, InsertCodesOk, ReadsOk, AllDone, CountDone, Backfill.EndId, Backfill.StartId;
    forall j | 0 <= j < |s'.fill.tasks|
      ensures TaskOk(s'.fill, j)
    {
      assert TaskOk(s.fill, j);
    }
  }

  lemma DoneCoded(c: Config, s: State, k: nat, s': State)
    requires VectorsOk(Live(s), s.store, s.contents) && Coded(c, s) && DoneStep(s, k, s')
    ensures Coded(c, s')
  {
    DonePhase(c, s, k, s');
    hide PhaseOk, TasksOk, StartPointOk, HasCode, Backfill.EndId, Past;
    forall e | e in Live(s') && e in s'.contents
      ensures CodeOk(c, Live(s'), s'.store, s'.fill, s'.missed, s'.contents, e)
    {
      assert CodeOk(c, Live(s), s.store, s.fill, s.missed, s.contents, e);
      if Filled(s'.fill, Live(s')[e]) {
        assert Filled(WithTask(s.fill, k, Done), Live(s')[e]) by { DoneFilled(s, k, s', Live(s')[e]); }
        FilledGrows(s.fill, k, Done, Live(s')[e]);
      }
    }
    forall t | t in s'.threads
      ensures InsertCodeOk(c, s'.alloc, s'.store, s'.fill, s'.threads[t])
    {
      assert InsertCodeOk(c, s.alloc, s.store, s.fill, s.threads[t]);
    }
    forall j | 0 <= j < |s'.fill.tasks|
      ensures ReadOk(Live(s'), s'.contents, s'.fill.tasks[j])
    {
      assert ReadOk(Live(s), s.contents, s.fill.tasks[j]);
    }
  }

  /** The counter and the finishing state play no part in what is filled. */
  lemma DoneFilled(s: State, k: nat, s': State, i: Iid)
    requires DoneStep(s, k, s') && Filled(s'.fill, i)
    ensures Filled(WithTask(s.fill, k, Done), i)
  {
    if i <= s.fill.maxId {
      var j :| 0 <= j < |s'.fill.tasks| && Past(s'.fill, j, i);
      assert Past(WithTask(s.fill, k, Done), j, i);
    }
  }

  lemma SameTasksFilled(fill: Fill, fill': Fill, i: Iid)
    requires fill'.tasks == fill.tasks && fill'.maxId == fill.maxId && Filled(fill', i)
    ensures Filled(fill, i)
  {
    if i <= fill.maxId {
      var j :| 0 <= j < |fill'.tasks| && Past(fill', j, i);
      assert Past(fill, j, i);
    }
  }

  lemma FinishPhase(c: Config, s: State, s': State)
    requires Coded(c, s) && FinishStep(c, s, s')
    ensures PhaseOk(c, s'.alloc, s'.fill) && StartPointOk(c, s'.store, s'.fill, s'.missed) && TasksOk(s'.fill)
  {
    hide HasCode, CodesOk, InsertCodesOk, ReadsOk, StartReadsOk, AllDone, CountDone, Backfill.EndId, Backfill.StartId;
    forall j | 0 <= j < |s'.fill.tasks|
      ensures TaskOk(s'.fill, j)
    {
      assert TaskOk(s.fill, j);
    }
  }

  /** The finishing task touches only the code of the start point. */
  lemma FinishMoves(c: Config, s: State, s': State)
    requires FinishStep(c, s, s')
    ensures s' == s.(fill := s.fill.(finish := s'.fill.finish), alloc := s.alloc.(reuse := s'.alloc.reuse),
                     store := s.store.(quant := s'.store.quant), missed := s'.missed)
    ensures forall i :: i != 0 ==> (i in s'.store.quant <==> i in s.store.quant) && (i in s'.missed <==> i in s.missed)
    ensures forall i :: i != 0 && i in s.store.quant ==> s'.store.quant[i] == s.store.quant[i]
  {
  }

  lemma FinishCoded(c: Config, s: State, s': State)
    requires Owned(s) && Coded(c, s) && FinishStep(c, s, s')
    ensures Coded(c, s')
  {
    FinishPhase(c, s, s');
    FinishMoves(c, s, s');
    assert s.fill.quantOn && s'.fill.quantOn;
    hide Filled, PhaseOk, TasksOk, StartPointOk, FinishStep;
    forall e | e in Live(s') && e in s'.contents
      ensures CodeOk(c, Live(s'), s'.store, s'.fill, s'.missed, s'.contents, e)
    {
      assert CodeOk(c, Live(s), s.store, s.fill, s.missed, s.contents, e);
      if Filled(s'.fill, Live(s')[e]) {
        SameTasksFilled(s.fill, s'.fill, Live(s')[e]);
      }
    }
    forall t | t in s'.threads
      ensures InsertCodeOk(c, s'.alloc, s'.store, s'.fill, s'.threads[t])
    {
      assert InsertCodeOk(c, s.alloc, s.store, s.fill, s.threads[t]);
    }
    hide CodeOk, InsertCodeOk;
  }

  // ---- Every reachable state ----

  ghost predicate Inv(c: Config, s: State) {
    c.careful && Owned(s) && Data(s) && Coded(c, s)
  }

  lemma InitInv(c: Config, s: State)
    requires Init(c, s) && c.careful
    ensures Inv(c, s)
  {
  }

  lemma ThreadStepInv(c: Config, s: State, t: Tid, s': State)
    requires Inv(c, s) && ThreadStep(c, s, t, s')
    ensures Inv(c, s')
  {
    hide Owned, Data, Coded, StartInsert, StartDelete, AllocStep, InsertStep, DeleteStep, FreeStep;
    if StartInsert(s, t, s') || StartDelete(c, s, t, s') {
      StartOwned(c, s, t, s');
      QuietData(c, s, t, s');
      StartCoded(c, s, t, s');
    } else if AllocStep(s, t, s') {
      AllocOwned(s, t, s');
      QuietData(c, s, t, s');
      AllocCoded(c, s, t, s');
    } else if InsertStep(c, s, t, s') {
      InsertOwned(c, s, t, s');
      InsertData(c, s, t, s');
      InsertCoded(c, s, t, s');
    } else if DeleteStep(s, t, s') {
      DeleteOwned(s, t, s');
      DeleteData(s, t, s');
      DeleteCoded(c, s, t, s');
    } else {
      FreeOwned(s, t, s');
      QuietData(c, s, t, s');
      FreeCoded(c, s, t, s');
    }
  }

  /** The quantization steps touch neither the mappings nor the vectors. */
  lemma BackgroundKept(c: Config, s: State, s': State)
    requires Owned(s) && Data(s)
    requires s'.store.(quant := s.store.quant) == s.store && s'.threads == s.threads && s'.contents == s.contents
    requires s'.alloc.used == s.alloc.used && s'.alloc.nextId == s.alloc.nextId && s'.stale == s.stale
    ensures Owned(s') && Data(s')
  {
    hide HoldersApart, MappedApart, MappedUnheld;
  }

  ghost predicate BackgroundStep(c: Config, s: State, k: nat, s': State) {
    || VisitStep(c, s, s') || TrainedStep(c, s, s') || LaunchStep(c, s, s') || FillStep(c, s, k, s')
    || DoneStep(s, k, s') || FinishStep(c, s, s')
  }

  lemma BackgroundFrame(c: Config, s: State, k: nat, s': State)
    requires BackgroundStep(c, s, k, s')
    ensures s'.store.(quant := s.store.quant) == s.store && s'.threads == s.threads && s'.contents == s.contents
    ensures s'.alloc.used == s.alloc.used && s'.alloc.nextId == s.alloc.nextId && s'.stale == s.stale
  {
    hide VisitStep, FillStep, Launched, WithTask;
    if FillStep(c, s, k, s') {
      FillAt(c, s, k, s');
    } else if VisitStep(c, s, s') {
      VisitOnly(c, s, s');
    }
  }

  lemma BackgroundStepInv(c: Config, s: State, k: nat, s': State)
    requires Inv(c, s) && BackgroundStep(c, s, k, s')
    ensures Inv(c, s')
  {
    assert VectorsOk(Live(s), s.store, s.contents);
    hide Owned, Data, Coded;
    hide VisitStep, TrainedStep, LaunchStep, FillStep, DoneStep, FinishStep;
    BackgroundFrame(c, s, k, s');
    BackgroundKept(c, s, s');
    if VisitStep(c, s, s') {
      VisitCoded(c, s, s');
    } else if TrainedStep(c, s, s') {
      TrainedCoded(c, s, s');
    } else if LaunchStep(c, s, s') {
      LaunchCoded(c, s, s');
    } else if FillStep(c, s, k, s') {
      FillCoded(c, s, k, s');
    } else if DoneStep(s, k, s') {
      DoneCoded(c, s, k, s');
    } else {
      FinishCoded(c, s, s');
    }
  }

  /** A step of no thread is one of the background. */
  lemma StepBackground(c: Config, s: State, s': State) returns (k: nat)
    requires Step(c, s, s') && forall t :: !ThreadStep(c, s, t, s')
    ensures BackgroundStep(c, s, k, s')
  {
    hide ThreadStep, VisitStep, TrainedStep, LaunchStep, FillStep, DoneStep, FinishStep;
    if j :| FillStep(c, s, j, s') || DoneStep(s, j, s') {
      k := j;
    } else {
      k := 0;
    }
  }

  lemma StepInv(c: Config, s: State, s': State)
    requires Inv(c, s) && Step(c, s, s')
    ensures Inv(c, s')
  {
    hide Inv, ThreadStep, VisitStep, TrainedStep, LaunchStep, FillStep, DoneStep, FinishStep;
    if t :| ThreadStep(c, s, t, s') {
      ThreadStepInv(c, s, t, s');
    } else {
      var k := StepBackground(c, s, s');
      BackgroundStepInv(c, s, k, s');
    }
  }

  lemma {:induction false} RunInv(c: Config, ss: seq<State>, i: nat)
    requires Run(c, ss) && i < |ss|
    ensures Inv(c, ss[i])
  {
    hide Inv, Init, Step;
    if i == 0 {
      InitInv(c, ss[0]);
    } else {
      RunInv(c, ss, i - 1);
      assert Step(c, ss[i - 1], ss[i]);
      StepInv(c, ss[i - 1], ss[i]);
    }
  }

  // ---- Main results ----

  /** In every reachable state the store implements the callers' view: a lookup of an external ID
      finds something exactly if it is in the contents or a delete failed to unmap it and nobody
      inserted it since. In the first case the ID found is in use and its own, holds its own
      vector, and maps back to it unless a delete of it is between its first two steps. */
  lemma MappingTheorem(c: Config, ss: seq<State>, n: nat, e: Eid)
    requires Run(c, ss) && n < |ss|
    ensures var s := ss[n];
            && (e in s.store.ints <==> e in s.contents || e in s.stale)
            && !(e in s.contents && e in s.stale)
            && (e in s.contents ==>
                  var i := s.store.ints[e];
                  && i in s.alloc.used && i != 0
                  && (forall f :: f in s.contents && f in s.store.ints && f != e ==> s.store.ints[f] != i)
                  && i in s.store.vec && s.store.vec[i] == s.contents[e]
                  && ((forall t :: t in s.threads ==> s.threads[t] != DelInt(e, i)) ==>
                        i in s.store.ext && s.store.ext[i] == e))
  {
    RunInv(c, ss, n);
    RunStale(c, ss, n);
    var s := ss[n];
    hide Run, Coded;
    if e in Live(s) {
      assert BackOk(Live(s), s.store, s.threads, e);
    }
  }

  lemma StepStale(c: Config, s: State, s': State)
    requires Step(c, s, s') && s.stale <= s.store.ints.Keys
    ensures s'.stale <= s'.store.ints.Keys
  {
    hide ThreadStep, VisitStep, TrainedStep, LaunchStep, FillStep, DoneStep, FinishStep;
    if t :| ThreadStep(c, s, t, s') {
      ThreadStale(c, s, t, s');
    } else {
      var k := StepBackground(c, s, s');
      BackgroundFrame(c, s, k, s');
    }
  }

  lemma ThreadStale(c: Config, s: State, t: Tid, s': State)
    requires ThreadStep(c, s, t, s') && s.stale <= s.store.ints.Keys
    ensures s'.stale <= s'.store.ints.Keys
  {
    hide InsertStep, DeleteStep;
    if t in s.threads && DeleteStep(s, t, s') {
      DeleteAt(s, t, s');
    } else if t in s.threads && InsertStep(c, s, t, s') {
      InsertAt(c, s, t, s');
    }
  }

  lemma {:induction false} RunStale(c: Config, ss: seq<State>, i: nat)
    requires Run(c, ss) && i < |ss|
    ensures ss[i].stale <= ss[i].store.ints.Keys
  {
    hide Step;
    if i > 0 {
      RunStale(c, ss, i - 1);
      assert Step(c, ss[i - 1], ss[i]);
      StepStale(c, ss[i - 1], ss[i]);
    }
  }

  /** A delete of `e` tries to remove the mapping and the store fails it. */
  ghost predicate FailsToUnmap(s: State, s': State, e: Eid) {
    exists t, i :: t in s.threads && s.threads[t] == DelInt(e, i) && UnmapFails(s, t, e, i, s')
  }

  lemma ThreadBecomesStale(c: Config, s: State, t: Tid, s': State, e: Eid)
    requires ThreadStep(c, s, t, s') && e in s'.stale && e !in s.stale
    ensures FailsToUnmap(s, s', e)
  {
    hide Live;
    assert t in s.threads && s.threads[t].DelInt?;
  }

  lemma BecomesStale(c: Config, s: State, s': State, e: Eid)
    requires Step(c, s, s') && e in s'.stale && e !in s.stale
    ensures FailsToUnmap(s, s', e)
  {
    hide ThreadStep, VisitStep, TrainedStep, LaunchStep, FillStep, DoneStep, FinishStep;
    if t :| ThreadStep(c, s, t, s') {
      ThreadBecomesStale(c, s, t, s', e);
    } else {
      var k := StepBackground(c, s, s');
      BackgroundFrame(c, s, k, s');
    }
  }

  lemma {:induction false} NeverStale(c: Config, ss: seq<State>, n: nat, e: Eid)
    requires Run(c, ss) && n < |ss| && e !in ss[0].stale
    requires forall j :: 0 <= j < n ==> !FailsToUnmap(ss[j], ss[j + 1], e)
    ensures e !in ss[n].stale
  {
    hide Step, FailsToUnmap;
    if n > 0 {
      NeverStale(c, ss, n - 1, e);
      assert Step(c, ss[n - 1], ss[n]);
      if e in ss[n].stale {
        BecomesStale(c, ss[n - 1], ss[n], e);
      }
    }
  }

  /** As long as no removal of its mapping failed, an external ID is found exactly if it has a
      vector. */
  lemma FoundIfPresent(c: Config, ss: seq<State>, n: nat, e: Eid)
    requires Run(c, ss) && n < |ss| && e !in ss[0].stale
    requires forall j :: 0 <= j < n ==> !FailsToUnmap(ss[j], ss[j + 1], e)
    ensures e in ss[n].store.ints <==> e in ss[n].contents
  {
    hide Run, FailsToUnmap;
    MappingTheorem(c, ss, n, e);
    NeverStale(c, ss, n, e);
  }

  /** The ID a running insert or delete works on is its alone: no other call works on it, and
      nothing is mapped to it but what a delete is about to unmap. So no step of a delete touches
      a later owner's data. */
  lemma HolderIsAlone(c: Config, ss: seq<State>, n: nat, t: Tid)
    requires Run(c, ss) && n < |ss| && t in ss[n].threads && Holding(ss[n].threads[t])
    ensures var s := ss[n];
            var i := s.threads[t].i;
            && i in s.alloc.used
            && (forall u :: u in s.threads && u != t && Holding(s.threads[u]) ==> s.threads[u].i != i)
            && (forall e :: e in s.contents && e in s.store.ints && s.store.ints[e] == i ==>
                  Unmapping(s.threads[t], e, i))
  {
    RunInv(c, ss, n);
  }

  /** Once the index goes quantized, in every interleaving that led there and in every state
      after: a mapped external ID has the code of its own vector if and only if the backfill did
      not miss its ID, and otherwise it has none. The same holds for the start point. */
  lemma QuantizedTheorem(c: Config, ss: seq<State>, n: nat, e: Eid)
    requires Run(c, ss) && n < |ss| && AllQuantized(ss[n])
    ensures var s := ss[n];
            e in s.contents ==>
              && e in s.store.ints
              && (s.store.ints[e] !in s.missed <==> HasCode(c, s.store, s.store.ints[e], s.contents[e]))
              && (s.store.ints[e] in s.missed <==> s.store.ints[e] !in s.store.quant)
    ensures 0 in ss[n].store.vec && (0 !in ss[n].missed <==> HasCode(c, ss[n].store, 0, ss[n].store.vec[0]))
  {
    RunInv(c, ss, n);
    RunMissed(c, ss, n);
    var s := ss[n];
    assert MappedOk(s.alloc, Live(s));
    hide Run, Owned;
    if e in s.contents {
      assert CodeOk(c, Live(s), s.store, s.fill, s.missed, s.contents, e);
      if Live(s)[e] <= s.fill.maxId {
        EverythingFilled(c, s, Live(s)[e]);
      }
    }
  }

  /** If the index was opened without a missing code, and no read, compression or write of the
      backfill failed, everything has its code. */
  lemma AllCodedWithoutFailure(c: Config, ss: seq<State>, n: nat, e: Eid)
    requires Run(c, ss) && n < |ss| && AllQuantized(ss[n]) && e in ss[n].contents
    requires ss[0].missed == {} && forall j :: 0 <= j < n ==> !Misses(ss[j], ss[j + 1])
    ensures e in ss[n].store.ints && HasCode(c, ss[n].store, ss[n].store.ints[e], ss[n].contents[e])
    ensures HasCode(c, ss[n].store, 0, c.start)
  {
    RunInv(c, ss, n);
    hide Run, AllQuantized;
    QuantizedTheorem(c, ss, n, e);
    NothingMissed(c, ss, n);
  }

  /** A step in which the backfill fails on some ID. */
  ghost predicate Misses(s: State, s': State) {
    StartMiss(s, s') || exists k :: FillMiss(s, k, s')
  }

  lemma StepMissed(c: Config, s: State, s': State)
    requires Step(c, s, s') && s.missed !! s.store.quant.Keys
    ensures s'.missed !! s'.store.quant.Keys
    ensures s'.missed <= s.missed || Misses(s, s')
  {
    hide ThreadStep, VisitStep, TrainedStep, LaunchStep, FillStep, DoneStep, FinishStep;
    if t :| ThreadStep(c, s, t, s') {
      ThreadMissed(c, s, t, s');
    } else {
      var k := StepBackground(c, s, s');
      BackgroundMissed(c, s, k, s');
    }
  }

  lemma ThreadMissed(c: Config, s: State, t: Tid, s': State)
    requires ThreadStep(c, s, t, s') && s.missed !! s.store.quant.Keys
    ensures s'.missed !! s'.store.quant.Keys && s'.missed <= s.missed
  {
    hide DeleteStep;
    if t in s.threads && DeleteStep(s, t, s') {
      DeleteAt(s, t, s');
    }
  }

  lemma FillMissed(c: Config, s: State, k: nat, s': State)
    requires FillStep(c, s, k, s') && s.missed !! s.store.quant.Keys
    ensures s'.missed !! s'.store.quant.Keys
    ensures s'.missed <= s.missed || FillMiss(s, k, s')
  {
    hide WithTask, AtUnread;
  }

  lemma BackgroundMissed(c: Config, s: State, k: nat, s': State)
    requires BackgroundStep(c, s, k, s') && s.missed !! s.store.quant.Keys
    ensures s'.missed !! s'.store.quant.Keys
    ensures s'.missed <= s.missed || Misses(s, s')
  {
    hide VisitStep, FillStep, FillMiss, Launched, WithTask;
    if FillStep(c, s, k, s') {
      FillMissed(c, s, k, s');
    } else if VisitStep(c, s, s') {
      VisitOnly(c, s, s');
    }
  }

  /** A missed ID has no code. */
  lemma {:induction false} RunMissed(c: Config, ss: seq<State>, i: nat)
    requires Run(c, ss) && i < |ss|
    ensures ss[i].missed !! ss[i].store.quant.Keys
  {
    hide Step;
    if i > 0 {
      RunMissed(c, ss, i - 1);
      assert Step(c, ss[i - 1], ss[i]);
      StepMissed(c, ss[i - 1], ss[i]);
    }
  }

  lemma {:induction false} NothingMissed(c: Config, ss: seq<State>, i: nat)
    requires Run(c, ss) && i < |ss|
    requires forall j :: 0 <= j < i ==> !Misses(ss[j], ss[j + 1])
    ensures ss[i].missed <= ss[0].missed
  {
    hide Step, Misses;
    if i > 0 {
      NothingMissed(c, ss, i - 1);
      RunMissed(c, ss, i - 1);
      assert Step(c, ss[i - 1], ss[i]);
      StepMissed(c, ss[i - 1], ss[i]);
    }
  }

  lemma EverythingFilled(c: Config, s: State, i: Iid)
    requires PhaseOk(c, s.alloc, s.fill) && AllQuantized(s) && i != 0 && i <= s.fill.maxId
    ensures Filled(s.fill, i)
  {
    Backfill.Covered(s.fill.maxId, |s.fill.tasks|, i);
    assert Past(s.fill, Backfill.TaskOf(s.fill.maxId, |s.fill.tasks|, i), i);
  }

  /** No ID is reused before the last backfill task is done. */
  lemma NoEarlyReuse(c: Config, ss: seq<State>, n: nat, k: nat)
    requires Run(c, ss) && n < |ss| && k < |ss[n].fill.tasks|
    ensures ss[n].fill.tasks[k].Running? ==> !ss[n].alloc.reuse && !AllQuantized(ss[n])
  {
    RunInv(c, ss, n);
    if ss[n].fill.tasks[k].Running? {
      RunningTask(c, ss[n].alloc, ss[n].fill, k);
    }
  }

  /** Task `k` counts itself and sees that it was the last. */
  ghost predicate ObservesCompletion(s: State, k: nat, s': State) {
    DoneStep(s, k, s') && s.fill.completed + 1 == |s.fill.tasks|
  }

  /** Some task does so. */
  ghost predicate Completes(s: State, s': State) {
    exists k :: ObservesCompletion(s, k, s')
  }

  ghost predicate CompletedAt(ss: seq<State>, i: nat) {
    i + 1 < |ss| && Completes(ss[i], ss[i + 1])
  }

  lemma {:induction false} FinishStays(c: Config, ss: seq<State>, i: nat, j: nat)
    requires Run(c, ss) && i <= j < |ss| && ss[i].fill.finish != Waiting
    ensures ss[j].fill.finish != Waiting
  {
    hide Step, Init;
    if i < j {
      FinishStays(c, ss, i, j - 1);
      assert Step(c, ss[j - 1], ss[j]);
      StepKeepsFinish(c, ss[j - 1], ss[j]);
    }
  }

  lemma StepKeepsFinish(c: Config, s: State, s': State)
    requires Step(c, s, s') && s.fill.finish != Waiting
    ensures s'.fill.finish != Waiting
  {
    hide ThreadStep, VisitStep, FillStep, Launched, Backfill.StartId, Backfill.EndId;
    if t :| ThreadStep(c, s, t, s') {
      ThreadFill(c, s, t, s');
    } else if VisitStep(c, s, s') {
      VisitOnly(c, s, s');
    } else if k :| FillStep(c, s, k, s') {
      FillAt(c, s, k, s');
    }
  }

  lemma ThreadFill(c: Config, s: State, t: Tid, s': State)
    requires ThreadStep(c, s, t, s')
    ensures s'.fill == s.fill
  {
    hide DeleteStep;
    if t in s.threads && DeleteStep(s, t, s') {
      DeleteAt(s, t, s');
    }
  }

  lemma StartsFinish(c: Config, s: State, s': State) returns (k: nat)
    requires Step(c, s, s') && s.fill.finish == Waiting && s'.fill.finish != Waiting
    ensures ObservesCompletion(s, k, s')
  {
    hide ThreadStep, VisitStep, FillStep, DoneStep, Launched;
    if t :| ThreadStep(c, s, t, s') {
      ThreadFill(c, s, t, s');
    } else if VisitStep(c, s, s') {
      VisitOnly(c, s, s');
    } else if j :| FillStep(c, s, j, s') || DoneStep(s, j, s') {
      k := j;
      if FillStep(c, s, j, s') {
        FillAt(c, s, j, s');
      } else {
        DoneFinish(s, j, s');
      }
    }
  }

  lemma DoneFinish(s: State, k: nat, s': State)
    requires DoneStep(s, k, s') && s.fill.finish == Waiting && s'.fill.finish != Waiting
    ensures s.fill.completed + 1 == |s.fill.tasks|
  {
    hide Backfill.EndId;
  }

  lemma {:induction false} SomeTaskFinished(c: Config, ss: seq<State>, n: nat) returns (i: nat, k: nat)
    requires Run(c, ss) && c.quantizer.Untrained? && n < |ss| && ss[n].fill.finish != Waiting
    ensures i < n && ObservesCompletion(ss[i], k, ss[i + 1])
  {
    hide Step, ObservesCompletion;
    if n == 0 {
      assert false;
    } else if ss[n - 1].fill.finish != Waiting {
      i, k := SomeTaskFinished(c, ss, n - 1);
    } else {
      assert Step(c, ss[n - 1], ss[n]);
      i := n - 1;
      k := StartsFinish(c, ss[n - 1], ss[n]);
    }
  }

  /** In any finishing order exactly one task sees that it was the last: at most one ever does, and
      once every task has counted itself one has. */
  lemma OneTaskFinishes(c: Config, ss: seq<State>, n: nat)
    requires Run(c, ss) && n < |ss|
    ensures forall i: nat, j: nat :: CompletedAt(ss, i) && CompletedAt(ss, j) ==> i == j
    ensures ss[n].fill.tasks != [] && AllDone(ss[n].fill.tasks) ==> exists i: nat :: i < n && CompletedAt(ss, i)
  {
    hide Step, Init, ObservesCompletion;
    forall i: nat, j: nat | CompletedAt(ss, i) && CompletedAt(ss, j)
      ensures i == j
    {
      var k :| ObservesCompletion(ss[i], k, ss[i + 1]);
      var m :| ObservesCompletion(ss[j], m, ss[j + 1]);
      OneAtMost(c, ss, i, j, k, m);
    }
    if ss[n].fill.tasks != [] && AllDone(ss[n].fill.tasks) {
      RunInv(c, ss, n);
      var i, k := SomeTaskFinished(c, ss, n);
      assert CompletedAt(ss, i);
    }
  }

  lemma OneAtMost(c: Config, ss: seq<State>, i: nat, j: nat, k: nat, m: nat)
    requires Run(c, ss) && i < |ss| - 1 && j < |ss| - 1
    requires ObservesCompletion(ss[i], k, ss[i + 1]) && ObservesCompletion(ss[j], m, ss[j + 1])
    ensures i == j
  {
    hide Step, Init;
    RunInv(c, ss, i);
    RunInv(c, ss, j);
    RunningTask(c, ss[i].alloc, ss[i].fill, k);
    RunningTask(c, ss[j].alloc, ss[j].fill, m);
    if i < j {
      FinishStays(c, ss, i + 1, j);
    } else if j < i {
      FinishStays(c, ss, j + 1, i);
    }
  }
}
