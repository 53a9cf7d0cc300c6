/**
 Running calls brought to rest so that no used ID is without a vector but for leaked ones: inserts
 write their vectors and then fail short of giving their IDs back, calls whose ID has no vector free
 it, and if callers repeat deletes then so do those whose mapping is stale. Mappings in force stay as
 they are, and so do deletes whose vector is still there.
 */
module Settling {
  import opened Collections
  import opened Provider
  import opened ProviderProofs
  import opened Schedules
  import opened TrainingBlocked
  import Allocator

  /** A delete that has not unmapped yet and whose vector is there. */
  predicate Paused(s: State, pc: Pc) {
    (pc.DelExt? || pc.DelInt?) && pc.i in s.store.vec
  }

  predicate Settled(s: State, pc: Pc) {
    && !pc.InsAlloc? && (Inserting(pc) ==> pc.InsUndo? && pc.i in s.store.vec)
    && (pc.i in s.alloc.used ==> pc.i in s.store.vec)
  }

  ghost function Unsettled(s: State): set<Tid> {
    set t | t in s.threads && !Settled(s, s.threads[t])
  }

  ghost predicate LiveHasVector(s: State) {
    forall e :: e in Live(s) ==> Live(s)[e] in s.store.vec
  }

  /** Nobody else works on the ID of an insert. */
  ghost predicate InsertsAlone(threads: map<Tid, Pc>) {
    forall t, u :: t in threads && u in threads && t != u && threads[t].InsVec? && Holding(threads[u]) ==>
      threads[t].i != threads[u].i
  }

  /** The only mappings that are dropped are stale ones to IDs that are free now. */
  ghost predicate DropsStale(s: State, s': State) {
    && s'.stale <= s.stale && Live(s') == Live(s)
    && (forall e :: e in s'.store.ints ==> e in s.store.ints && s'.store.ints[e] == s.store.ints[e])
    && (forall e :: e in s.store.ints && e !in s'.store.ints ==> s.store.ints[e] !in s'.alloc.used)
  }

  /** What settling leaves alone, and what it does not lose. */
  ghost predicate Settles(s: State, s': State) {
    && s' == s.(threads := s'.threads, alloc := s.alloc.(used := s'.alloc.used), stale := s'.stale,
                store := s.store.(vec := s'.store.vec, ext := s'.store.ext, ints := s'.store.ints))
    && s'.alloc.used <= s.alloc.used && s.store.vec.Keys <= s'.store.vec.Keys && DropsStale(s, s')
    && s'.threads.Keys <= s.threads.Keys
    && (forall j :: j in s.alloc.used && Potential(s, j) ==> j in s'.alloc.used)
    && (forall j :: Potential(s, j) ==> Potential(s', j))
    && (forall j :: j in s'.alloc.used && Held(s.threads, j) ==> Held(s'.threads, j))
    && (forall t :: t in s.threads && Paused(s, s.threads[t]) ==> t in s'.threads && s'.threads[t] == s.threads[t])
  }

  lemma SettlesOn(s: State, s1: State, s2: State)
    requires Settles(s, s1) && Settles(s1, s2)
    ensures Settles(s, s2)
  {
    hide Potential, Held, Live;
    forall t | t in s.threads && Paused(s, s.threads[t])
      ensures t in s2.threads && s2.threads[t] == s.threads[t]
    {
      assert t in s1.threads && s1.threads[t] == s.threads[t] && Paused(s1, s1.threads[t]);
    }
  }

  // ---- One call ----

  /** Thread `t` failed to get an ID, has its vector written and waits to be undone, or has freed
      its ID, which had no vector. */
  ghost predicate OneSettled(s: State, t: Tid, s': State)
    requires t in s.threads
  {
    var pc := s.threads[t];
    || (pc.InsAlloc? && s' == Return(s, t))
    || (&& Inserting(pc) && !pc.InsAlloc? && pc.i in s'.store.vec
        && s' == At(s, t, InsUndo(pc.i)).(store := s.store.(vec := s'.store.vec))
        && (s'.store.vec == s.store.vec || (pc.InsVec? && s'.store.vec == s.store.vec[pc.i := pc.v])))
    || (&& !pc.InsAlloc? && !pc.InsVec? && pc.i !in s.store.vec
        && s' == Return(s, t).(alloc := s.alloc.(used := s.alloc.used - {pc.i})))
  }

  lemma InsertSettles(c: Config, s0: State, s: State, t: Tid) returns (s': State)
    requires Leads(c, s0, s) && t in s.threads && Inserting(s.threads[t]) && !s.threads[t].InsUndo?
    requires s.alloc.nextId <= U32_MAX && !s.fill.quantOn && (s.threads[t].InsAlloc? || s.threads[t].InsVec?)
    ensures Leads(c, s0, s') && OneSettled(s, t, s')
  {
    hide Leads;
    var pc := s.threads[t];
    if pc.InsAlloc? {
      s' := Return(s, t);
      assert AllocStep(s, t, s');
      LeadsOn(c, s0, t, s, s');
    } else {
      var s1 := At(s, t, InsExt(pc.e, pc.v, pc.i)).(store := s.store.(vec := s.store.vec[pc.i := pc.v]));
      assert InsertStep(c, s, t, s1);
      LeadsOn(c, s0, t, s, s1);
      s' := At(s1, t, InsUndo(pc.i));
      assert InsertStep(c, s1, t, s');
      LeadsOn(c, s0, t, s1, s');
      assert s'.threads == s.threads[t := InsUndo(pc.i)];
    }
  }

  lemma UndoSettles(c: Config, s0: State, s: State, t: Tid) returns (s': State)
    requires Leads(c, s0, s) && t in s.threads && Inserting(s.threads[t])
    requires !s.threads[t].InsAlloc? && !s.threads[t].InsVec? && !Settled(s, s.threads[t])
    ensures Leads(c, s0, s') && OneSettled(s, t, s')
  {
    hide Leads;
    var pc := s.threads[t];
    var s1 := At(s, t, InsUndo(pc.i));
    if pc.InsUndo? {
      assert s1.threads == s.threads;
    } else {
      assert InsertStep(c, s, t, s1);
      LeadsOn(c, s0, t, s, s1);
    }
    if pc.i in s.store.vec {
      s' := s1;
    } else {
      s' := Return(s1, t).(alloc := s1.alloc.(used := s1.alloc.used - {pc.i}));
      assert FreeStep(s1, t, s');
      LeadsOn(c, s0, t, s1, s');
      assert s'.threads == s.threads - {t};
    }
  }

  /** A delete of an ID without a vector comes to its end; its mapping is no longer in force. */
  lemma DeleteSettles(c: Config, s0: State, s: State, t: Tid) returns (s': State)
    requires Leads(c, s0, s) && t in s.threads && !Inserting(s.threads[t]) && s.threads[t].i !in s.store.vec
    requires LiveHasVector(s)
    ensures Leads(c, s0, s') && OneSettled(s, t, s')
  {
    var i := s.threads[t].i;
    assert forall e :: e in Live(s) ==> Live(s)[e] != i;
    var s1 := DeletesToVec(c, s0, s, t);
    hide Leads, Live;
    var s2 := At(s, t, DelFree(i));
    DeletesToFree(c, s0, s1, t, i);
    assert At(s1, t, DelFree(i)) == s2;
    s' := Return(s2, t).(alloc := s2.alloc.(used := s2.alloc.used - {i}));
    assert FreeStep(s2, t, s');
    LeadsOn(c, s0, t, s2, s');
    assert s'.threads == s.threads - {t};
  }

  lemma DeletesToVec(c: Config, s0: State, s: State, t: Tid) returns (s': State)
    requires Leads(c, s0, s) && t in s.threads && !Inserting(s.threads[t])
    requires forall e :: e in Live(s) ==> Live(s)[e] != s.threads[t].i
    ensures Leads(c, s0, s') && t in s'.threads && s' == At(s, t, s'.threads[t])
    ensures s'.threads[t].DelVec? || s'.threads[t].DelQuant? || s'.threads[t].DelFree?
    ensures s'.threads[t].i == s.threads[t].i
  {
    hide Leads;
    var pc := s.threads[t];
    s' := s;
    assert s == At(s, t, pc);
    if pc.DelExt? {
      s' := At(s, t, DelInt(pc.e, pc.i));
      assert DeleteStep(s, t, s');
      LeadsOn(c, s0, t, s, s');
    }
    if pc.DelExt? || pc.DelInt? {
      var s1 := s';
      s' := At(s1, t, DelVec(pc.i));
      assert Live(s1) == Live(s);
      assert UnmapFails(s1, t, pc.e, pc.i, s');
      LeadsOn(c, s0, t, s1, s');
      assert s'.threads == s.threads[t := DelVec(pc.i)];
    }
  }

  lemma DeletesToFree(c: Config, s0: State, s: State, t: Tid, i: Iid)
    requires Leads(c, s0, s) && t in s.threads
    requires s.threads[t] == DelVec(i) || s.threads[t] == DelQuant(i) || s.threads[t] == DelFree(i)
    ensures Leads(c, s0, At(s, t, DelFree(i)))
  {
    hide Leads;
    var s1 := s;
    if s.threads[t].DelVec? {
      s1 := At(s, t, DelQuant(i));
      assert DeleteStep(s, t, s1);
      LeadsOn(c, s0, t, s, s1);
    }
    var s2 := At(s1, t, DelFree(i));
    if s1.threads[t].DelQuant? {
      assert DeleteStep(s1, t, s2);
      LeadsOn(c, s0, t, s1, s2);
    } else {
      assert s2.threads == s.threads;
    }
    assert s2.threads == s.threads[t := DelFree(i)];
  }

  lemma SettlesOne(c: Config, s0: State, s: State, t: Tid) returns (s': State)
    requires Leads(c, s0, s) && t in Unsettled(s) && LiveHasVector(s)
    requires s.alloc.nextId <= U32_MAX && !s.fill.quantOn
    ensures Leads(c, s0, s') && OneSettled(s, t, s')
  {
    hide Leads, OneSettled, LiveHasVector;
    var pc := s.threads[t];
    if pc.InsAlloc? || pc.InsVec? {
      s' := InsertSettles(c, s0, s, t);
    } else if Inserting(pc) {
      s' := UndoSettles(c, s0, s, t);
    } else {
      s' := DeleteSettles(c, s0, s, t);
    }
  }

  // ---- What it keeps ----

  lemma OneSettledPotential(s: State, t: Tid, s': State, j: Iid)
    requires t in s.threads && OneSettled(s, t, s') && InsertsAlone(s.threads) && Potential(s, j)
    ensures (j in s.alloc.used ==> j in s'.alloc.used) && Potential(s', j)
  {
    if j !in s.store.vec {
      var u :| u in s.threads && s.threads[u].InsVec? && s.threads[u].i == j;
      assert u != t ==> u in s'.threads && s'.threads[u] == s.threads[u];
    }
  }

  lemma OneSettledHeld(s: State, t: Tid, s': State, j: Iid)
    requires t in s.threads && OneSettled(s, t, s') && j in s'.alloc.used && Held(s.threads, j)
    ensures Held(s'.threads, j)
  {
    var u :| u in s.threads && Holding(s.threads[u]) && s.threads[u].i == j;
    assert u in s'.threads && Holding(s'.threads[u]) && s'.threads[u].i == j;
  }

  lemma OneSettles(s: State, t: Tid, s': State)
    requires t in s.threads && !Settled(s, s.threads[t]) && OneSettled(s, t, s') && InsertsAlone(s.threads)
    ensures Settles(s, s')
  {
    forall j | Potential(s, j)
      ensures (j in s.alloc.used ==> j in s'.alloc.used) && Potential(s', j)
    {
      OneSettledPotential(s, t, s', j);
    }
    assert Live(s') == Live(s);
    forall j | j in s'.alloc.used && Held(s.threads, j)
      ensures Held(s'.threads, j)
    {
      OneSettledHeld(s, t, s', j);
    }
    hide Potential, Held, InsertsAlone, Live;
  }

  lemma OneLeft(s: State, t: Tid, s': State)
    requires t in s.threads && !Settled(s, s.threads[t]) && OneSettled(s, t, s')
    ensures |Unsettled(s')| < |Unsettled(s)|
  {
    assert Unsettled(s') <= Unsettled(s) - {t};
    SubsetSize(Unsettled(s'), Unsettled(s) - {t});
  }

  lemma StillAlone(s: State, t: Tid, s': State)
    requires t in s.threads && OneSettled(s, t, s') && InsertsAlone(s.threads) && LiveHasVector(s)
    ensures InsertsAlone(s'.threads) && LiveHasVector(s')
  {
    assert Live(s') == Live(s);
    hide Live;
  }

  lemma {:induction false} AllSettle(c: Config, s0: State, s: State) returns (s': State)
    requires Leads(c, s0, s) && LiveHasVector(s) && InsertsAlone(s.threads)
    requires s.alloc.nextId <= U32_MAX && !s.fill.quantOn
    ensures Leads(c, s0, s') && Settles(s, s') && Unsettled(s') == {}
    decreases |Unsettled(s)|
  {
    hide Leads, OneSettled, Settles, LiveHasVector, InsertsAlone;
    if Unsettled(s) == {} {
      s' := s;
      SettlesHere(s);
    } else {
      var t :| t in Unsettled(s);
      var s1 := SettlesOne(c, s0, s, t);
      OneSettles(s, t, s1);
      OneLeft(s, t, s1);
      StillAlone(s, t, s1);
      SettledFrame(s, s1);
      s' := AllSettle(c, s0, s1);
      SettlesOn(s, s1, s');
    }
  }

  lemma SettlesHere(s: State)
    ensures Settles(s, s)
  {
  }

  lemma SettledFrame(s: State, s': State)
    requires Settles(s, s')
    ensures s'.alloc.nextId == s.alloc.nextId && s'.fill == s.fill && s'.training == s.training
  {
  }

  // ---- Repeated deletes ----

  /** Stale mappings to used IDs that have no vector. */
  ghost function Stranded(s: State): set<Eid> {
    set e | e in s.stale && e in s.store.ints && s.store.ints[e] in s.alloc.used && s.store.ints[e] !in s.store.vec
  }

  /** The delete of `e` is repeated, and frees the ID. */
  ghost predicate Repeated(s: State, e: Eid, s': State) {
    && e in Stranded(s)
    && s' == s.(store := s.store.(ints := s.store.ints - {e}, ext := s.store.ext - {s.store.ints[e]}),
                stale := s.stale - {e}, alloc := s.alloc.(used := s.alloc.used - {s.store.ints[e]}))
  }

  lemma RepeatLeads(c: Config, s0: State, s: State, t: Tid, e: Eid) returns (s': State)
    requires Leads(c, s0, s) && !c.careful && t !in s.threads && e in Stranded(s) && e !in s.contents
    ensures Leads(c, s0, s') && Repeated(s, e, s')
  {
    hide Leads, SafeToDelete;
    var i := s.store.ints[e];
    var s1 := At(s, t, DelExt(e, i));
    assert LookUp(s, t, e, s1);
    assert StartDelete(c, s, t, s1);
    LeadsOn(c, s0, t, s, s1);
    var s2 := At(s1, t, DelInt(e, i)).(store := s1.store.(ext := s1.store.ext - {i}));
    assert DeleteStep(s1, t, s2);
    LeadsOn(c, s0, t, s1, s2);
    var s3 := At(s2, t, DelVec(i)).(store := s2.store.(ints := s2.store.ints - {e}),
                                    contents := s2.contents - {e}, stale := s2.stale - {e});
    assert DeleteStep(s2, t, s3);
    LeadsOn(c, s0, t, s2, s3);
    assert s.contents - {e} == s.contents;
    s' := RepeatEnds(c, s0, s3, t, i);
    assert s'.threads == s.threads;
  }

  lemma RepeatEnds(c: Config, s0: State, s: State, t: Tid, i: Iid) returns (s': State)
    requires Leads(c, s0, s) && t in s.threads && s.threads[t] == DelVec(i)
    ensures Leads(c, s0, s') && s' == Return(s, t).(alloc := s.alloc.(used := s.alloc.used - {i}))
  {
    hide Leads;
    DeletesToFree(c, s0, s, t, i);
    var s1 := At(s, t, DelFree(i));
    s' := Return(s1, t).(alloc := s1.alloc.(used := s1.alloc.used - {i}));
    assert FreeStep(s1, t, s');
    LeadsOn(c, s0, t, s1, s');
    assert s'.threads == s.threads - {t};
  }

  lemma RepeatSettles(s: State, e: Eid, s': State)
    requires Repeated(s, e, s') && Unsettled(s) == {}
    ensures Settles(s, s') && Unsettled(s') == {} && |Stranded(s')| < |Stranded(s)|
  {
    AllAtRest(s);
    assert Live(s') == Live(s);
    assert Stranded(s') <= Stranded(s) - {e};
    SubsetSize(Stranded(s'), Stranded(s) - {e});
    hide Live, Stranded;
    var i := s.store.ints[e];
    assert !Potential(s, i);
    forall j
      ensures Potential(s', j) <==> Potential(s, j)
    {
    }
    hide Potential, Held;
    assert forall t :: t in s'.threads ==> Settled(s', s'.threads[t]);
  }

  lemma AllAtRest(s: State)
    requires Unsettled(s) == {}
    ensures forall t :: t in s.threads ==> Settled(s, s.threads[t])
  {
    forall t | t in s.threads
      ensures Settled(s, s.threads[t])
    {
      assert t !in Unsettled(s);
    }
  }

  lemma {:induction false} RepeatAll(c: Config, s0: State, s: State, t: Tid) returns (s': State)
    requires Leads(c, s0, s) && !c.careful && t !in s.threads && Unsettled(s) == {} && s.contents.Keys !! s.stale
    ensures Leads(c, s0, s') && Settles(s, s') && Unsettled(s') == {} && Stranded(s') == {}
    decreases |Stranded(s)|
  {
    hide Leads, Settles;
    if Stranded(s) == {} {
      s' := s;
      SettlesHere(s);
    } else {
      var e :| e in Stranded(s);
      var s1 := RepeatLeads(c, s0, s, t, e);
      RepeatSettles(s, e, s1);
      s' := RepeatAll(c, s0, s1, t);
      SettlesOn(s, s1, s');
    }
  }

  /** At rest, with no delete left to repeat if callers do that. */
  ghost predicate Rested(c: Config, s: State) {
    Unsettled(s) == {} && (!c.careful ==> Stranded(s) == {})
  }

  lemma AllRest(c: Config, s0: State, s: State, t: Tid) returns (s': State)
    requires Leads(c, s0, s) && LiveHasVector(s) && InsertsAlone(s.threads) && t !in s.threads
    requires s.alloc.nextId <= U32_MAX && !s.fill.quantOn && s.contents.Keys !! s.stale
    ensures Leads(c, s0, s') && Settles(s, s') && Rested(c, s')
  {
    hide Leads, Unsettled, Stranded;
    s' := AllSettle(c, s0, s);
    if !c.careful {
      var s1 := s';
      assert s1.contents == s.contents && s1.stale <= s.stale && t !in s1.threads;
      hide Settles;
      s' := RepeatAll(c, s0, s1, t);
      SettlesOn(s, s1, s');
    }
  }

  // ---- Only leaked IDs are left without a vector ----

  lemma RestedIsLeaked(c: Config, s: State, s': State, i: Iid)
    requires Settles(s, s') && Rested(c, s') && LiveHasVector(s) && Allocator.WellFormed(s.alloc)
    requires i in s'.alloc.used && 0 < i && i !in s'.store.vec
    ensures Leaked(c, s, i)
  {
    hide Potential;
    AllAtRest(s');
    assert !Held(s'.threads, i);
    assert !Held(s.threads, i);
    hide Held;
    assert forall e :: e in Live(s) ==> Live(s)[e] != i;
    if !c.careful {
      forall e | e in s.store.ints
        ensures s.store.ints[e] != i
      {
        NotStranded(s, s', e, i);
      }
    }
    hide Settles;
  }

  lemma NotStranded(s: State, s': State, e: Eid, i: Iid)
    requires DropsStale(s, s') && Stranded(s') == {} && e in s.store.ints
    requires i in s'.alloc.used && i !in s'.store.vec && forall f :: f in Live(s) ==> Live(s)[f] != i
    ensures s.store.ints[e] != i
  {
    assert e !in Stranded(s');
    assert e in s'.store.ints && e !in s'.stale ==> e in Live(s') && Live(s')[e] == s.store.ints[e];
  }

  lemma RestedPotential(c: Config, s: State, s': State, j: Iid)
    requires Settles(s, s') && Rested(c, s') && Potential(s, j)
    ensures j in s'.store.vec && (j in s.alloc.used ==> j in s'.alloc.used)
  {
    AllAtRest(s');
    assert Potential(s', j);
  }

  /** The used IDs below `n`, but for the start point, that have a vector. */
  ghost function Readable(s: State, n: Iid): set<Iid> {
    set j | j in s.alloc.used && 0 < j < n && j in s.store.vec
  }

  /** A visit finds enough vectors below every used ID that has none. */
  ghost predicate Visitable(c: Config, s: State) {
    forall i :: i in s.alloc.used && 0 < i && i !in s.store.vec ==> |Readable(s, i)| >= c.required
  }

  /** A trainable index is ready for a visit once it has come to rest. */
  lemma RestedVisitable(c: Config, s: State, s': State)
    requires Settles(s, s') && Rested(c, s') && LiveHasVector(s) && Allocator.WellFormed(s.alloc)
    requires Trainable(c, s)
    ensures Visitable(c, s')
  {
    hide Settles, Rested, LiveHasVector, Leaked;
    forall i | i in s'.alloc.used && 0 < i && i !in s'.store.vec
      ensures |Readable(s', i)| >= c.required
    {
      RestedIsLeaked(c, s, s', i);
      RestedReadable(c, s, s', i);
    }
  }

  lemma RestedReadable(c: Config, s: State, s': State, n: Iid)
    requires Settles(s, s') && Rested(c, s')
    ensures |Promising(s, n)| <= |Readable(s', n)|
  {
    hide Settles, Rested;
    forall j | j in Promising(s, n)
      ensures j in Readable(s', n)
    {
      RestedPotential(c, s, s', j);
    }
    SubsetSize(Promising(s, n), Readable(s', n));
  }
}
