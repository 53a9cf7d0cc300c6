/**
 As long as no ID is reused, deletes may look up what they like: they may overlap, be repeated, and
 follow stale mappings, and no vector is lost or mixed up. It is reuse that makes them unsafe, be it
 later or before the index was opened: a stale mapping it is opened with must lead to no vector that
 is there, and to no ID that is still to be handed out.
 */
module WithoutReuse {
  import opened Collections
  import opened Provider
  import opened ProviderProofs
  import opened Schedules
  import Calls
  import TowardsReuse
  import TrainingBlocked

  /** No ID that can still be handed out. */
  predicate HandedOut(s: State, i: Iid) {
    i < s.alloc.nextId || i >= U32_MAX
  }

  /** Stale mappings lead to no vector that is there, and never will. */
  ghost predicate StaleHarmless(s: State) {
    forall e :: e in s.stale && e in s.store.ints ==>
      HandedOut(s, s.store.ints[e]) && forall f :: f in Live(s) ==> Live(s)[f] != s.store.ints[e]
  }

  // ---- Invariant ----

  /** Only IDs that were handed out are worked on or mapped. */
  ghost predicate AllHandedOut(s: State) {
    && (forall t :: t in s.threads && Holding(s.threads[t]) ==> HandedOut(s, s.threads[t].i))
    && (forall e :: e in s.store.ints ==> HandedOut(s, s.store.ints[e]))
  }

  /** An insert's ID is its own. */
  ghost predicate OwnId(s: State, t: Tid)
    requires t in s.threads && Holding(s.threads[t])
  {
    && (forall u :: u in s.threads && u != t && Holding(s.threads[u]) ==> s.threads[u].i != s.threads[t].i)
    && (forall e :: e in s.store.ints ==> s.store.ints[e] != s.threads[t].i)
  }

  ghost predicate InsertsOwn(s: State) {
    forall t :: t in s.threads && Holding(s.threads[t]) && Inserting(s.threads[t]) ==> OwnId(s, t)
  }

  /** Nothing else is mapped to the ID of a mapping in force. */
  ghost predicate OneToOne(s: State) {
    forall e, f :: e in s.store.ints && f in Live(s) && e != f ==> s.store.ints[e] != Live(s)[f]
  }

  /** A delete of `e` works on the ID of nobody else, and once it is past the mapping of nobody at
      all. */
  ghost predicate DeleteOk(s: State, pc: Pc) {
    && (pc.DelExt? || pc.DelInt? ==> forall f :: f in Live(s) && Live(s)[f] == pc.i ==> f == pc.e)
    && (pc.DelVec? || pc.DelQuant? || pc.DelFree? ==> forall f :: f in Live(s) ==> Live(s)[f] != pc.i)
  }

  ghost predicate DeletesOk(s: State) {
    forall t :: t in s.threads ==> DeleteOk(s, s.threads[t])
  }

  ghost predicate Clean(s: State) {
    && !s.alloc.reuse
    && AllHandedOut(s) && InsertsOwn(s) && OneToOne(s) && DeletesOk(s)
    && VectorsOk(Live(s), s.store, s.contents) && InsertsOk(s.store, s.threads)
  }

  // ---- Calls start ----

  lemma FindClean(s: State, t: Tid, e: Eid, s': State)
    requires Clean(s) && LookUp(s, t, e, s')
    ensures Clean(s')
  {
    assert Live(s') == Live(s);
    forall u | u in s'.threads && Holding(s'.threads[u]) && Inserting(s'.threads[u])
      ensures OwnId(s', u)
    {
      assert OwnId(s, u);
    }
    forall u | u in s'.threads
      ensures DeleteOk(s', s'.threads[u])
    {
      if u != t {
        assert DeleteOk(s, s.threads[u]);
      }
    }
    hide Live, InsertsOwn, DeletesOk;
    assert InsertsOk(s'.store, s'.threads);
  }

  lemma DeleteStarts(c: Config, s: State, t: Tid, s': State)
    requires Clean(s) && StartDelete(c, s, t, s')
    ensures Clean(s')
  {
    hide Clean, SafeToDelete;
    var e :| LookUp(s, t, e, s') && (c.careful ==> SafeToDelete(s, e));
    FindClean(s, t, e, s');
  }

  lemma StartClean(s: State, t: Tid, s': State)
    requires Clean(s) && StartInsert(s, t, s')
    ensures Clean(s')
  {
    assert Live(s') == Live(s);
    forall u | u in s'.threads && Holding(s'.threads[u]) && Inserting(s'.threads[u])
      ensures OwnId(s', u)
    {
      assert OwnId(s, u);
    }
    forall u | u in s'.threads
      ensures DeleteOk(s', s'.threads[u])
    {
      if u != t {
        assert DeleteOk(s, s.threads[u]);
      }
    }
    hide Live;
  }

  /** A new ID comes from above. */
  lemma AllocMoves(s: State, t: Tid, s': State)
    requires !s.alloc.reuse && t in s.threads && AllocStep(s, t, s')
    ensures s' == s.(alloc := s'.alloc, threads := s'.threads) && !s'.alloc.reuse
    ensures s.alloc.nextId <= s'.alloc.nextId && OnlyMoved(s.threads, s'.threads, t)
    ensures t in s'.threads ==> s'.threads[t].InsVec? && s.alloc.nextId <= s'.threads[t].i < s'.alloc.nextId <= U32_MAX
  {
  }

  /** It is nobody else's. */
  lemma AllocClean(s: State, t: Tid, s': State)
    requires Clean(s) && t in s.threads && AllocStep(s, t, s')
    ensures Clean(s')
  {
    AllocMoves(s, t, s');
    hide AllocStep;
    assert Live(s') == Live(s);
    forall u | u in s'.threads && Holding(s'.threads[u]) && Inserting(s'.threads[u])
      ensures OwnId(s', u)
    {
      if u != t {
        assert OwnId(s, u);
      }
    }
    forall u | u in s'.threads
      ensures DeleteOk(s', s'.threads[u])
    {
      if u != t {
        assert DeleteOk(s, s.threads[u]);
      }
    }
    hide Live;
  }

  // ---- Inserts ----

  lemma InsertIds(c: Config, s: State, t: Tid, s': State)
    requires Clean(s) && t in s.threads && InsertStep(c, s, t, s')
    ensures AllHandedOut(s') && InsertsOwn(s')
  {
    assert OwnId(s, t);
    hide Live;
    forall u | u in s'.threads && Holding(s'.threads[u]) && Inserting(s'.threads[u])
      ensures OwnId(s', u)
    {
      assert OwnId(s, u);
    }
  }

  /** A mapping is published to an ID that nothing is mapped to. */
  lemma InsertOneToOne(c: Config, s: State, t: Tid, s': State)
    requires Clean(s) && t in s.threads && InsertStep(c, s, t, s')
    ensures OneToOne(s')
  {
    assert OwnId(s, t);
    if s.threads[t].InsInt? && t !in s'.threads {
      InsertMaps(c, s, t, s');
      assert forall f :: f in Live(s) ==> f in s.store.ints && Live(s)[f] == s.store.ints[f];
    } else {
      assert s'.store.ints == s.store.ints && Live(s') == Live(s);
    }
    hide Live, OwnId, InsertsOwn, DeletesOk, AllHandedOut;
  }

  lemma InsertDeletes(c: Config, s: State, t: Tid, s': State)
    requires Clean(s) && t in s.threads && InsertStep(c, s, t, s')
    ensures DeletesOk(s')
  {
    InsertAt(c, s, t, s');
    assert OwnId(s, t);
    forall u | u in s'.threads
      ensures DeleteOk(s', s'.threads[u])
    {
      if u != t {
        assert DeleteOk(s, s.threads[u]);
      }
    }
  }

  lemma InsertVectorsKept(c: Config, s: State, t: Tid, s': State)
    requires Clean(s) && t in s.threads && InsertStep(c, s, t, s')
    ensures VectorsOk(Live(s'), s'.store, s'.contents)
  {
    assert OwnId(s, t) && WrittenOk(s.store, s.threads[t]);
    hide InsertsOwn, DeletesOk, OneToOne, AllHandedOut, InsertsOk;
    if s.threads[t].InsInt? && t !in s'.threads {
      InsertPublishes(c, s, t, s');
    } else {
      assert Live(s') == Live(s);
      assert forall e :: e in Live(s) ==> Live(s)[e] != s.threads[t].i;
      hide Live, OwnId;
    }
  }

  lemma InsertPublishes(c: Config, s: State, t: Tid, s': State)
    requires t in s.threads && InsertStep(c, s, t, s') && s.threads[t].InsInt? && t !in s'.threads
    requires VectorsOk(Live(s), s.store, s.contents) && WrittenOk(s.store, s.threads[t])
    ensures VectorsOk(Live(s'), s'.store, s'.contents)
  {
    InsertMaps(c, s, t, s');
    hide Live;
  }

  lemma InsertWritesKept(c: Config, s: State, t: Tid, s': State, u: Tid)
    requires Clean(s) && t in s.threads && InsertStep(c, s, t, s') && u in s'.threads
    ensures WrittenOk(s'.store, s'.threads[u])
  {
    assert OwnId(s, t) && WrittenOk(s.store, s.threads[t]);
    hide Live, DeletesOk, InsertsOwn;
    if u != t {
      assert WrittenOk(s.store, s.threads[u]);
    }
  }

  lemma InsertClean(c: Config, s: State, t: Tid, s': State)
    requires Clean(s) && t in s.threads && InsertStep(c, s, t, s')
    ensures Clean(s')
  {
    InsertAt(c, s, t, s');
    InsertIds(c, s, t, s');
    InsertOneToOne(c, s, t, s');
    InsertDeletes(c, s, t, s');
    InsertVectorsKept(c, s, t, s');
    forall u | u in s'.threads
      ensures WrittenOk(s'.store, s'.threads[u])
    {
      InsertWritesKept(c, s, t, s', u);
    }
    hide Live, InsertStep, AllHandedOut, InsertsOwn, OneToOne, DeletesOk, VectorsOk, WrittenOk;
  }

  // ---- Deletes ----

  lemma DeleteIds(s: State, t: Tid, s': State)
    requires Clean(s) && t in s.threads && DeleteStep(s, t, s')
    ensures AllHandedOut(s') && InsertsOwn(s') && OneToOne(s')
  {
    DeleteInts(s, t, s');
    DeleteAt(s, t, s');
    hide DeleteStep, Live, Unmapped, DeletesOk;
    forall u | u in s'.threads && Holding(s'.threads[u]) && Inserting(s'.threads[u])
      ensures OwnId(s', u)
    {
      assert OwnId(s, u);
    }
  }

  /** And mappings in force stay so, or are dropped. */
  lemma DeleteLive(s: State, t: Tid, s': State)
    requires t in s.threads && DeleteStep(s, t, s')
    ensures forall e :: e in Live(s') ==> e in Live(s) && Live(s')[e] == Live(s)[e]
  {
    DeleteAt(s, t, s');
    hide DeleteStep, Live;
  }

  lemma DeleteDeletes(s: State, t: Tid, s': State)
    requires Clean(s) && t in s.threads && DeleteStep(s, t, s')
    ensures DeletesOk(s')
  {
    DeleteInts(s, t, s');
    DeleteLive(s, t, s');
    DeleteAt(s, t, s');
    forall u | u in s'.threads
      ensures DeleteOk(s', s'.threads[u])
    {
      if u == t {
        DeleteOwn(s, t, s');
      } else {
        assert DeleteOk(s, s.threads[u]);
        hide Live, DeleteStep, Unmapped;
      }
    }
  }

  lemma DeleteOwn(s: State, t: Tid, s': State)
    requires Clean(s) && t in s.threads && DeleteStep(s, t, s') && t in s'.threads
    ensures DeleteOk(s', s'.threads[t])
  {
    assert DeleteOk(s, s.threads[t]);
    DeleteInts(s, t, s');
    DeleteLive(s, t, s');
    DeleteAt(s, t, s');
    assert forall f :: f in Live(s) ==> f in s.store.ints && Live(s)[f] == s.store.ints[f];
    hide Live, DeletesOk, InsertsOwn;
  }

  lemma DeleteVectorsKept(s: State, t: Tid, s': State)
    requires Clean(s) && t in s.threads && DeleteStep(s, t, s')
    ensures VectorsOk(Live(s'), s'.store, s'.contents)
  {
    assert DeleteOk(s, s.threads[t]);
    DeleteAt(s, t, s');
    hide Live, DeleteStep, DeletesOk, InsertsOwn;
  }

  lemma DeleteWritesKept(s: State, t: Tid, s': State, u: Tid)
    requires Clean(s) && t in s.threads && DeleteStep(s, t, s') && u in s'.threads
    ensures WrittenOk(s'.store, s'.threads[u])
  {
    DeleteAt(s, t, s');
    if u != t {
      assert WrittenOk(s.store, s.threads[u]);
      if Inserting(s.threads[u]) && Holding(s.threads[u]) {
        assert OwnId(s, u);
      }
    }
    hide Live, DeleteStep, Unmapped, DeletesOk, InsertsOwn;
  }

  lemma DeleteClean(s: State, t: Tid, s': State)
    requires Clean(s) && t in s.threads && DeleteStep(s, t, s')
    ensures Clean(s')
  {
    DeleteAt(s, t, s');
    DeleteIds(s, t, s');
    DeleteDeletes(s, t, s');
    DeleteVectorsKept(s, t, s');
    forall u | u in s'.threads
      ensures WrittenOk(s'.store, s'.threads[u])
    {
      DeleteWritesKept(s, t, s', u);
    }
    hide Live, DeleteStep, AllHandedOut, InsertsOwn, OneToOne, DeletesOk, VectorsOk, WrittenOk, Unmapped;
  }

  lemma FreeClean(s: State, t: Tid, s': State)
    requires Clean(s) && t in s.threads && FreeStep(s, t, s')
    ensures Clean(s')
  {
    assert Live(s') == Live(s);
    forall u | u in s'.threads && Holding(s'.threads[u]) && Inserting(s'.threads[u])
      ensures OwnId(s', u)
    {
      assert OwnId(s, u);
    }
    forall u | u in s'.threads
      ensures DeleteOk(s', s'.threads[u])
    {
      assert DeleteOk(s, s.threads[u]);
    }
    hide Live;
  }

  // ---- Every step ----

  lemma BackgroundClean(c: Config, s: State, k: nat, s': State)
    requires Clean(s) && BackgroundStep(c, s, k, s') && !s'.alloc.reuse
    ensures Clean(s')
  {
    BackgroundFrame(c, s, k, s');
    hide BackgroundStep;
    assert Live(s') == Live(s);
    forall u | u in s'.threads && Holding(s'.threads[u]) && Inserting(s'.threads[u])
      ensures OwnId(s', u)
    {
      assert OwnId(s, u);
    }
    forall u | u in s'.threads
      ensures DeleteOk(s', s'.threads[u])
    {
      assert DeleteOk(s, s.threads[u]);
    }
    hide Live, OwnId, DeleteOk;
  }

  lemma ThreadClean(c: Config, s: State, t: Tid, s': State)
    requires Clean(s) && ThreadStep(c, s, t, s')
    ensures Clean(s')
  {
    hide Clean, StartInsert, StartDelete, AllocStep, InsertStep, DeleteStep, FreeStep;
    if StartInsert(s, t, s') {
      StartClean(s, t, s');
    } else if StartDelete(c, s, t, s') {
      DeleteStarts(c, s, t, s');
    } else if AllocStep(s, t, s') {
      AllocClean(s, t, s');
    } else if InsertStep(c, s, t, s') {
      InsertClean(c, s, t, s');
    } else if DeleteStep(s, t, s') {
      DeleteClean(s, t, s');
    } else {
      FreeClean(s, t, s');
    }
  }

  lemma StepClean(c: Config, s: State, s': State)
    requires Clean(s) && Step(c, s, s') && !s'.alloc.reuse
    ensures Clean(s')
  {
    hide Clean, ThreadStep, VisitStep, TrainedStep, LaunchStep, FillStep, DoneStep, FinishStep;
    if t :| ThreadStep(c, s, t, s') {
      ThreadClean(c, s, t, s');
    } else {
      var k := StepBackground(c, s, s');
      BackgroundClean(c, s, k, s');
    }
  }

  lemma ReuseStays(c: Config, s: State, s': State)
    requires Step(c, s, s') && s.alloc.reuse
    ensures s'.alloc.reuse
  {
    hide StartDelete, InsertStep, DeleteStep, VisitStep, FillStep, Launched, WithTask;
    if t :| ThreadStep(c, s, t, s') {
      if StartDelete(c, s, t, s') {
        TrainingBlocked.StartMoves(c, s, t, s');
      } else if t in s.threads && DeleteStep(s, t, s') {
        DeleteAt(s, t, s');
      } else if t in s.threads && InsertStep(c, s, t, s') {
        InsertAt(c, s, t, s');
      }
    } else if k :| FillStep(c, s, k, s') {
      FillAt(c, s, k, s');
    } else if VisitStep(c, s, s') {
      VisitOnly(c, s, s');
    }
  }

  lemma {:induction false} StepsClean(c: Config, ss: seq<State>, n: nat)
    requires n < |ss| && Clean(ss[0]) && !ss[n].alloc.reuse
    requires forall i :: 0 <= i < |ss| - 1 ==> Step(c, ss[i], ss[i + 1])
    ensures Clean(ss[n])
  {
    hide Step, Clean;
    if n > 0 {
      assert Step(c, ss[n - 1], ss[n]);
      if ss[n - 1].alloc.reuse {
        ReuseStays(c, ss[n - 1], ss[n]);
      }
      StepsClean(c, ss, n - 1);
      StepClean(c, ss[n - 1], ss[n]);
    }
  }

  lemma InitClean(c: Config, s: State)
    requires Init(c, s) && StaleHarmless(s) && !s.alloc.reuse
    ensures Clean(s)
  {
    forall e | e in s.store.ints
      ensures HandedOut(s, s.store.ints[e])
      ensures forall f :: f in Live(s) && e != f ==> s.store.ints[e] != Live(s)[f]
    {
      if e !in s.stale {
        assert e in Live(s) && Live(s)[e] == s.store.ints[e];
        assert MappedIn(s, e);
      }
    }
    assert VectorsOk(Live(s), s.store, s.contents);
  }

  /** Every external ID of the contents is mapped, to an ID of its own that holds its own vector. */
  ghost predicate NothingLost(s: State) {
    forall e :: e in s.contents ==>
      && e in s.store.ints && s.store.ints[e] in s.store.vec && s.store.vec[s.store.ints[e]] == s.contents[e]
      && forall f :: f in s.store.ints && f != e ==> s.store.ints[f] != s.store.ints[e]
  }

  lemma CleanLosesNothing(s: State)
    requires Clean(s)
    ensures NothingLost(s)
  {
    forall e | e in s.contents
      ensures && e in s.store.ints && s.store.ints[e] in s.store.vec && s.store.vec[s.store.ints[e]] == s.contents[e]
              && forall f :: f in s.store.ints && f != e ==> s.store.ints[f] != s.store.ints[e]
    {
      assert e in Live(s);
    }
  }

  /** As long as no ID is reused, whatever deletes look up and whenever, nothing is lost of an index
      that was opened with harmless stale mappings. */
  lemma NothingLostWithoutReuse(c: Config, s: State, s': State)
    requires Init(c, s) && StaleHarmless(s) && Leads(c, s, s') && !s'.alloc.reuse
    ensures NothingLost(s')
  {
    hide Step, Init, Clean, NothingLost, StaleHarmless;
    var ss: seq<State> :|
      && |ss| > 0 && ss[0] == s && ss[|ss| - 1] == s'
      && forall i :: 0 <= i < |ss| - 1 ==> Step(c, ss[i], ss[i + 1]);
    var n := |ss| - 1;
    if s.alloc.reuse {
      ReuseRemains(c, ss, n);
    }
    InitClean(c, s);
    StepsClean(c, ss, n);
    CleanLosesNothing(s');
  }

  lemma {:induction false} ReuseRemains(c: Config, ss: seq<State>, n: nat)
    requires n < |ss| && ss[0].alloc.reuse && forall i :: 0 <= i < |ss| - 1 ==> Step(c, ss[i], ss[i + 1])
    ensures ss[n].alloc.reuse
  {
    hide Step;
    if n > 0 {
      ReuseRemains(c, ss, n - 1);
      assert Step(c, ss[n - 1], ss[n]);
      ReuseStays(c, ss[n - 1], ss[n]);
    }
  }

  // ---- Harmful stale mappings ----

  /** The vector of external ID `f` is gone. */
  predicate Loses(s: State, f: Eid) {
    f in s.contents && f in s.store.ints && s.store.ints[f] !in s.store.vec
  }

  /** A repeated delete of `e` wipes out the vector of `f`, which is mapped to the same ID. */
  lemma RepeatLoses(c: Config, s0: State, s: State, e: Eid, f: Eid) returns (s': State)
    requires Leads(c, s0, s) && !c.careful && e != f && e in s.store.ints && f in s.store.ints
    requires s.store.ints[e] == s.store.ints[f] && f in s.contents
    ensures Leads(c, s0, s') && Loses(s', f) && s'.alloc == s.alloc
  {
    hide Leads, SafeToDelete;
    var t := TowardsReuse.NewThread(s.threads.Keys);
    var i := s.store.ints[e];
    var s1 := At(s, t, DelExt(e, i));
    assert LookUp(s, t, e, s1);
    assert StartDelete(c, s, t, s1);
    LeadsOn(c, s0, t, s, s1);
    s' := Calls.DeletesVector(c, s0, s1, t, e, i);
  }

  /** Inserts go on until one of them gets the ID that `e` is mapped to. */
  lemma MintsInto(c: Config, s: State, e: Eid) returns (f: Eid, s': State)
    requires Init(c, s) && !s.alloc.reuse && e in s.store.ints && e in s.stale && !HandedOut(s, s.store.ints[e])
    ensures Leads(c, s, s') && !s'.alloc.reuse && e != f && e in s'.store.ints && f in s'.store.ints
    ensures s'.store.ints[e] == s'.store.ints[f] && f in s'.contents
  {
    LeadsHere(c, s);
    hide Leads;
    var i := s.store.ints[e];
    assert !s.fill.quantOn;
    hide Init;
    var s1 := TowardsReuse.AddsMore(c, s, s, i - s.alloc.nextId);
    f := TowardsReuse.NewName(s1.store.ints.Keys);
    var t := TowardsReuse.NewThread(s1.threads.Keys);
    s' := Calls.Inserts(c, s, s1, t, f, c.start, i, s1.alloc.(used := s1.alloc.used + {i}, nextId := i + 1));
  }

  /** The index opened again over what is stored, with the ID space cut to the highest used ID. */
  ghost predicate OpenedAgain(s: State, s': State) {
    && s'.store == s.store && s'.stale == s.stale && s'.contents == s.contents && s'.alloc.used == s.alloc.used
    && s'.alloc.nextId > 0 && s'.alloc.nextId - 1 in s.alloc.used
  }

  /** This is how such a mapping comes about: a delete fails to remove it and frees its ID, which was
      the highest, before the index is opened again. */
  lemma StaleAboveAfterOpening(c: Config, e: Eid, v: Vec)
    requires c.quantizer.Untrained?
    ensures exists s, s' ::
              && Init(c, TowardsReuse.Fresh(c)) && Leads(c, TowardsReuse.Fresh(c), s)
              && OpenedAgain(s, s') && Init(c, s') && !StaleHarmless(s')
  {
    var s0 := TowardsReuse.Fresh(c);
    LeadsHere(c, s0);
    hide Leads;
    var s := Calls.Inserts(c, s0, s0, 0, e, v, 1, s0.alloc.(used := {0} + {1}, nextId := 2));
    assert e in Live(s) && Live(s)[e] == 1 && s.threads == map[];
    var s1 := At(s, 0, DelExt(e, 1));
    assert LookUp(s, 0, e, s1);
    assert StartDelete(c, s, 0, s1);
    LeadsOn(c, s0, 0, s, s1);
    var s2 := Calls.DeletesInVain(c, s0, s1, 0, e, 1);
    var s3 := s0.(store := s2.store, stale := s2.stale, contents := s2.contents);
    assert OpenedAgain(s2, s3);
    assert Init(c, s3);
    assert e in s3.stale && !HandedOut(s3, s3.store.ints[e]);
  }

  /** With callers that may repeat deletes, a vector of an index that is opened and does not reuse
      IDs can be lost before it does, if and only if a stale mapping leads to a vector or to an ID
      that is still to be handed out. */
  lemma LostIffStaleHarms(c: Config, s: State)
    requires Init(c, s) && !c.careful && !s.alloc.reuse
    ensures (exists s', f :: Leads(c, s, s') && !s'.alloc.reuse && Loses(s', f)) <==> !StaleHarmless(s)
  {
    if StaleHarmless(s) {
      forall s', f | Leads(c, s, s') && !s'.alloc.reuse
        ensures !Loses(s', f)
      {
        NothingLostWithoutReuse(c, s, s');
      }
    } else {
      var e :| e in s.stale && e in s.store.ints &&
               !(HandedOut(s, s.store.ints[e]) && forall f :: f in Live(s) ==> Live(s)[f] != s.store.ints[e]);
      if f :| f in Live(s) && Live(s)[f] == s.store.ints[e] {
        LeadsHere(c, s);
        hide Leads;
        var s' := RepeatLoses(c, s, s, e, f);
      } else {
        hide Leads;
        var f, s1 := MintsInto(c, s, e);
        var s' := RepeatLoses(c, s, s1, e, f);
      }
    }
  }
}
