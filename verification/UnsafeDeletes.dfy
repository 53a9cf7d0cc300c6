/**
 Why a delete must be the only one of its external ID until it has unmapped it, and why a mapping
 it could not remove must not be used. Schedules in which the slower of two deletes wipes out the
 vector of the next owner of the internal ID, in which a stale mapping leads to that owner, and in
 which the repeated delete wipes out its vector. They exist from every reachable state from which
 IDs can come to be reused, and need no more than that one careless call.
 */
module UnsafeDeletes {
  import opened Calls
  import opened Provider
  import opened Schedules
  import opened TowardsReuse
  import opened TrainingBlocked
  import ProviderProofs
  import Settling

  /** An insert of `f` gets the free ID `i`. */
  lemma Reuses(c: Config, s0: State, s: State, t: Tid, f: Eid, v: Vec, i: Iid) returns (s': State)
    requires Leads(c, s0, s) && s.alloc.reuse && i < s.alloc.nextId <= U32_MAX && i !in s.alloc.used && t !in s.threads
    ensures Leads(c, s0, s') && s'.threads == s.threads
    ensures Mappings(s') == (s.store.ints[f := i], s.stale - {f}, s.contents[f := v])
  {
    hide Leads;
    s' := Inserts(c, s0, s, t, f, v, i, s.alloc.(used := s.alloc.used + {i}));
  }

  /** No insert works on ID `i`. */
  ghost predicate InsertsElsewhere(s: State, i: Iid) {
    forall t :: t in s.threads && ProviderProofs.Holding(s.threads[t]) && Inserting(s.threads[t]) ==>
      s.threads[t].i != i
  }

  lemma Reached(c: Config, ss: seq<State>, n: nat, e: Eid)
    requires Run(Careful(c), ss) && n < |ss| && e in ss[n].contents
    ensures Sound(c, ss[n]) && e in Live(ss[n]) && Live(ss[n])[e] < ss[n].alloc.nextId
    ensures InsertsElsewhere(ss[n], Live(ss[n])[e])
  {
    ReachableSound(c, ss, n);
    ProviderProofs.RunInv(Careful(c), ss, n);
    var s := ss[n];
    hide Run, Sound;
    assert ProviderProofs.Owned(s) && ProviderProofs.Data(s);
    assert ProviderProofs.MappedOk(s.alloc, Live(s)) && ProviderProofs.VectorsOk(Live(s), s.store, s.contents);
    assert ProviderProofs.MappedUnheld(Live(s), s.threads);
  }

  // ---- Two deletes ----

  /** The state in which deletes `t` and `u` have looked `e` up one after the other. */
  function BothFound(s: State, t: Tid, u: Tid, e: Eid): State
    requires e in s.store.ints
  {
    At(At(s, t, DelExt(e, s.store.ints[e])), u, DelExt(e, s.store.ints[e]))
  }

  /** One more delete of a mapping in force bars nothing. */
  lemma FoundSound(c: Config, s: State, t: Tid, e: Eid)
    requires Sound(c, s) && CanReuse(c, s) && t !in s.threads && e in Live(s)
    requires InsertsElsewhere(s, Live(s)[e])
    ensures var s' := At(s, t, DelExt(e, Live(s)[e])); Sound(c, s') && CanReuse(c, s')
  {
    var s' := At(s, t, DelExt(e, Live(s)[e]));
    assert Live(s') == Live(s);
    if MayTrain(c, s) {
      FoundMayTrain(c, s, t, e);
    }
    hide Live, MayTrain, ProviderProofs.PhaseOk;
  }

  lemma FoundMayTrain(c: Config, s: State, t: Tid, e: Eid)
    requires t !in s.threads && e in Live(s) && MayTrain(c, s)
    ensures MayTrain(c, At(s, t, DelExt(e, Live(s)[e])))
  {
    var s' := At(s, t, DelExt(e, Live(s)[e]));
    forall j
      ensures (Potential(s', j) <==> Potential(s, j)) && (Leaked(c, s', j) ==> Leaked(c, s, j))
    {
      FoundPotential(s, t, e, s', j);
      FoundLeaked(c, s, t, e, s', j);
    }
    hide Potential, Leaked, Live;
    forall i
      ensures Promising(s', i) == Promising(s, i)
    {
    }
    if VisitMaySucceed(c, s) {
      forall o
        ensures Prospects(s', o) == Prospects(s, o)
      {
      }
    }
  }

  lemma FoundPotential(s: State, t: Tid, e: Eid, s': State, j: Iid)
    requires t !in s.threads && e in Live(s) && s' == At(s, t, DelExt(e, Live(s)[e]))
    ensures Potential(s', j) <==> Potential(s, j)
  {
    hide Live;
    if Potential(s, j) && j !in s.store.vec {
      var u :| u in s.threads && s.threads[u].InsVec? && s.threads[u].i == j;
      assert u in s'.threads && s'.threads[u].InsVec? && s'.threads[u].i == j;
    }
  }

  lemma FoundLeaked(c: Config, s: State, t: Tid, e: Eid, s': State, i: Iid)
    requires t !in s.threads && e in Live(s) && s' == At(s, t, DelExt(e, Live(s)[e]))
    ensures Leaked(c, s', i) ==> Leaked(c, s, i)
  {
    assert Followed(c, s') == Followed(c, s);
    hide Live, Followed;
    if Held(s.threads, i) {
      var u :| u in s.threads && ProviderProofs.Holding(s.threads[u]) && s.threads[u].i == i;
      assert u in s'.threads && ProviderProofs.Holding(s'.threads[u]) && s'.threads[u].i == i;
    }
  }

  /** Once both have found it and IDs are reused: `t` finishes, `w` inserts `f` under the freed ID,
      and then `u` goes on. */
  lemma SlowDelete(c: Config, s: State, t: Tid, u: Tid, w: Tid, e: Eid, i: Iid, f: Eid, v: Vec) returns (s': State)
    requires Sound(c, s) && CanReuse(c, s) && i < s.alloc.nextId && i in s.store.vec
    requires t != u && t in s.threads && u in s.threads && s.threads[t] == DelExt(e, i) == s.threads[u]
    requires w !in s.threads && f != e
    ensures Leads(c, s, s') && f in s'.contents && s'.contents[f] == v
    ensures f in s'.store.ints && s'.store.ints[f] !in s'.store.vec
  {
    LeadsHere(c, s);
    hide Leads, Sound, CanReuse;
    var s1 := ReuseComes(c, s, s);
    assert Settling.Paused(s, s.threads[t]) && Settling.Paused(s, s.threads[u]);
    assert t in s1.threads && s1.threads[t] == DelExt(e, i) && u in s1.threads && s1.threads[u] == DelExt(e, i);
    assert w !in s1.threads && s1.alloc.nextId <= U32_MAX && i < s1.alloc.nextId;
    hide Keeps;
    var s2 := DeletesVector(c, s, s1, t, e, i);
    var s3 := DeletesRest(c, s, s2, t, i);
    var s4 := Reuses(c, s, s3, w, f, v, i);
    s' := DeletesVector(c, s, s4, u, e, i);
  }

  /** In every reachable state from which IDs can come to be reused, and for every external ID `e`
      with a vector: if two deletes both look `e` up, then for every other external ID `f` and vector
      `v` there is a schedule after which `f` was inserted with `v`, is mapped, and its vector is
      gone. */
  lemma OverlapLosesVector(c: Config, ss: seq<State>, n: nat, t: Tid, u: Tid, w: Tid, e: Eid, f: Eid, v: Vec)
    requires Run(Careful(c), ss) && n < |ss| && e in ss[n].contents && CanReuse(c, ss[n])
    requires t !in ss[n].threads && u !in ss[n].threads && w !in ss[n].threads
    requires t != u && u != w && w != t && f != e
    ensures e in ss[n].store.ints
    ensures exists s1 :: LookUp(ss[n], t, e, s1) && LookUp(s1, u, e, BothFound(ss[n], t, u, e))
    ensures exists s' ::
              && Leads(c, BothFound(ss[n], t, u, e), s')
              && f in s'.contents && s'.contents[f] == v
              && f in s'.store.ints && s'.store.ints[f] !in s'.store.vec
  {
    Reached(c, ss, n, e);
    var s := ss[n];
    assert Live(s)[e] in s.store.vec;
    var i := s.store.ints[e];
    var s1 := At(s, t, DelExt(e, i));
    assert LookUp(s, t, e, s1) && Live(s1) == Live(s);
    hide Run, Leads, Sound, CanReuse;
    FoundSound(c, s, t, e);
    FoundSound(c, s1, u, e);
    var s' := SlowDelete(c, BothFound(s, t, u, e), t, u, w, e, i, f, v);
  }

  // ---- Stale mappings ----

  /** Some delete of `e` is under way, or `t` starts one. */
  lemma SomeDelete(c: Config, s0: State, s: State, t: Tid, e: Eid) returns (d: Tid, s': State)
    requires Leads(c, s0, s) && t !in s.threads && e in Live(s)
    ensures Leads(c, s0, s') && Apart(s, s') && Mappings(s') == Mappings(s)
    ensures d in s'.threads && Unmapping(s'.threads[d], e, Live(s)[e]) && (t in s'.threads ==> d == t)
  {
    hide Leads;
    var i := s.store.ints[e];
    if u :| u in s.threads && Unmapping(s.threads[u], e, i) {
      d, s' := u, s;
    } else {
      d, s' := t, At(s, t, DelExt(e, i));
      assert LookUp(s, t, e, s');
      assert StartDelete(c, s, t, s');
      LeadsOn(c, s0, t, s, s');
    }
  }

  /** Once IDs are reused: a delete of `e` fails to remove the mapping, and an insert of `f` gets the
      freed ID. */
  lemma StaleReused(c: Config, s: State, t: Tid, e: Eid, f: Eid, v: Vec) returns (s': State)
    requires Sound(c, s) && CanReuse(c, s) && t !in s.threads && f != e
    requires e in Live(s) && Live(s)[e] < s.alloc.nextId
    ensures Leads(c, s, s') && t !in s'.threads
    ensures f in s'.contents && s'.contents[f] == v && e !in s'.contents && e in s'.stale
    ensures e in s'.store.ints && f in s'.store.ints && s'.store.ints[e] == s'.store.ints[f]
  {
    LeadsHere(c, s);
    hide Leads, Sound, CanReuse;
    var i := Live(s)[e];
    var s1 := ReuseComes(c, s, s);
    assert e in Live(s1) && Live(s1)[e] == i && t !in s1.threads && i < s1.alloc.nextId <= U32_MAX;
    hide Keeps;
    var d, s2 := SomeDelete(c, s, s1, t, e);
    assert e in Live(s2) && Live(s2)[e] == i;
    hide Live;
    var s3 := DeletesInVain(c, s, s2, d, e, i);
    s' := Reuses(c, s, s3, t, f, v, i);
  }

  /** In every such state, every external ID `e` with a vector can come to be looked up as the vector
      of any other `f`: a delete of `e` fails to remove the mapping, and `f` gets the freed ID. */
  lemma FailedUnmapAliases(c: Config, ss: seq<State>, n: nat, t: Tid, e: Eid, f: Eid, v: Vec)
    requires Run(Careful(c), ss) && n < |ss| && e in ss[n].contents && CanReuse(c, ss[n])
    requires t !in ss[n].threads && f != e
    ensures exists s' ::
              && Leads(c, ss[n], s') && f in s'.contents && s'.contents[f] == v && e !in s'.contents
              && e in s'.store.ints && f in s'.store.ints && s'.store.ints[e] == s'.store.ints[f]
  {
    Reached(c, ss, n, e);
    hide Run, Leads, Sound, CanReuse;
    var s' := StaleReused(c, ss[n], t, e, f, v);
  }

  /** And if the caller then repeats the delete that returned an error, it wipes out the vector of
      `f`. */
  lemma RepeatedDeleteLosesVector(c: Config, ss: seq<State>, n: nat, t: Tid, e: Eid, f: Eid, v: Vec)
    requires Run(Careful(c), ss) && n < |ss| && e in ss[n].contents && CanReuse(c, ss[n])
    requires t !in ss[n].threads && f != e
    ensures exists s1, s2, s3 ::
              && Leads(c, ss[n], s1) && e in s1.stale && LookUp(s1, t, e, s2) && Leads(c, s2, s3)
              && f in s3.contents && s3.contents[f] == v
              && f in s3.store.ints && s3.store.ints[f] !in s3.store.vec
  {
    Reached(c, ss, n, e);
    hide Run, Sound, CanReuse;
    var s1 := StaleReused(c, ss[n], t, e, f, v);
    var i := s1.store.ints[e];
    var s2 := At(s1, t, DelExt(e, i));
    LeadsHere(c, s2);
    hide Leads;
    var s3 := DeletesVector(c, s2, s2, t, e, i);
    assert LookUp(s1, t, e, s2);
  }
}
