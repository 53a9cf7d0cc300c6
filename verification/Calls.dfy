/** Whole inserts and deletes of the provider as schedules, one call at a time. */
module Calls {
  import opened Provider
  import opened Schedules
  import Allocator

  /** The mappings, those among them that are stale, and the vectors as the callers see them. */
  function Mappings(s: State): (map<Eid, Iid>, set<Eid>, map<Eid, Vec>) {
    (s.store.ints, s.stale, s.contents)
  }

  /** Allocator, training and backfill have not moved. */
  predicate Apart(s: State, s': State) {
    s'.alloc == s.alloc && s'.training == s.training && s'.fill == s.fill
  }

  // ---- Deletes ----

  /** A delete that has unmapped removes the vector. */
  lemma RemovesVector(c: Config, s0: State, s: State, t: Tid, i: Iid) returns (s': State)
    requires Leads(c, s0, s) && t in s.threads && s.threads[t] == DelVec(i)
    ensures Leads(c, s0, s') && Apart(s, s') && Mappings(s') == Mappings(s)
    ensures s'.threads == s.threads[t := DelQuant(i)] && s'.store == s.store.(vec := s.store.vec - {i})
    ensures s'.missed == s.missed
  {
    hide Leads;
    s' := At(s, t, DelQuant(i)).(store := s.store.(vec := s.store.vec - {i}));
    assert DeleteStep(s, t, s');
    LeadsOn(c, s0, t, s, s');
  }

  /** A delete removes the back map, the mapping and the vector. */
  lemma DeletesVector(c: Config, s0: State, s: State, t: Tid, e: Eid, i: Iid) returns (s': State)
    requires Leads(c, s0, s) && t in s.threads && s.threads[t] == DelExt(e, i)
    ensures Leads(c, s0, s') && Apart(s, s') && s'.threads == s.threads[t := DelQuant(i)] && i !in s'.store.vec
    ensures Mappings(s') == (s.store.ints - {e}, s.stale - {e}, s.contents - {e}) && s'.missed == s.missed
    ensures s'.store == Store(s.store.vec - {i}, s.store.quant, s.store.ext - {i}, s.store.ints - {e})
  {
    hide Leads;
    var s1 := At(s, t, DelInt(e, i)).(store := s.store.(ext := s.store.ext - {i}));
    assert DeleteStep(s, t, s1);
    LeadsOn(c, s0, t, s, s1);
    var s2 := At(s1, t, DelVec(i)).(store := s1.store.(ints := s1.store.ints - {e}),
                                    contents := s1.contents - {e}, stale := s1.stale - {e});
    assert DeleteStep(s1, t, s2);
    LeadsOn(c, s0, t, s1, s2);
    s' := RemovesVector(c, s0, s2, t, i);
  }

  /** And then the code, and frees the ID. */
  lemma DeletesRest(c: Config, s0: State, s: State, t: Tid, i: Iid) returns (s': State)
    requires Leads(c, s0, s) && t in s.threads && s.threads[t] == DelQuant(i)
    ensures Leads(c, s0, s') && s'.training == s.training && s'.fill == s.fill && s'.threads == s.threads - {t}
    ensures Mappings(s') == Mappings(s) && s'.alloc == s.alloc.(used := s.alloc.used - {i})
    ensures s'.store == s.store.(quant := s.store.quant - {i}) && s'.missed == s.missed
  {
    hide Leads;
    var s1 := At(s, t, DelFree(i)).(store := s.store.(quant := s.store.quant - {i}));
    assert DeleteStep(s, t, s1);
    LeadsOn(c, s0, t, s, s1);
    s' := Return(s1, t).(alloc := s1.alloc.(used := s1.alloc.used - {i}));
    assert FreeStep(s1, t, s');
    LeadsOn(c, s0, t, s1, s');
  }

  /** A delete that fails to unmap `e`, to its end. */
  lemma DeletesInVain(c: Config, s0: State, s: State, t: Tid, e: Eid, i: Iid) returns (s': State)
    requires Leads(c, s0, s) && t in s.threads && Unmapping(s.threads[t], e, i) && e in Live(s) && Live(s)[e] == i
    ensures Leads(c, s0, s') && s'.fill == s.fill && s'.threads == s.threads - {t}
    ensures s'.alloc == s.alloc.(used := s.alloc.used - {i})
    ensures Mappings(s') == (s.store.ints, s.stale + {e}, s.contents - {e})
    ensures s'.store.vec == s.store.vec - {i} && s'.store.quant == s.store.quant - {i}
  {
    hide Leads;
    var s1 := At(s, t, DelInt(e, i));
    if s.threads[t] == DelExt(e, i) {
      assert DeleteStep(s, t, s1);
      LeadsOn(c, s0, t, s, s1);
    } else {
      assert s.threads[t := DelInt(e, i)] == s.threads;
    }
    var s2 := At(s1, t, DelVec(i)).(contents := s1.contents - {e}, stale := s1.stale + {e});
    assert UnmapFails(s1, t, e, i, s2);
    LeadsOn(c, s0, t, s1, s2);
    var s3 := RemovesVector(c, s0, s2, t, i);
    s' := DeletesRest(c, s0, s3, t, i);
  }

  /** A whole delete of `e`: nothing of it stays, and the ID is free. */
  lemma Deletes(c: Config, s0: State, s: State, t: Tid, e: Eid) returns (s': State)
    requires Leads(c, s0, s) && t !in s.threads && e in s.store.ints && (c.careful ==> SafeToDelete(s, e))
    ensures Leads(c, s0, s')
    ensures var i := s.store.ints[e];
            s' == s.(alloc := s.alloc.(used := s.alloc.used - {i}),
                     store := Store(s.store.vec - {i}, s.store.quant - {i}, s.store.ext - {i}, s.store.ints - {e}),
                     contents := s.contents - {e}, stale := s.stale - {e})
  {
    hide Leads, SafeToDelete;
    var i := s.store.ints[e];
    var s1 := At(s, t, DelExt(e, i));
    assert LookUp(s, t, e, s1);
    assert StartDelete(c, s, t, s1);
    LeadsOn(c, s0, t, s, s1);
    var s2 := DeletesVector(c, s0, s1, t, e, i);
    s' := DeletesRest(c, s0, s2, t, i);
    assert s'.threads == s.threads;
  }

  // ---- Inserts ----

  /** The codes after an insert: its own is written if codes are. */
  function WithCode(c: Config, s: State, i: Iid, v: Vec): map<Iid, Code> {
    if s.fill.quantOn then s.store.quant[i := c.compress(v)] else s.store.quant
  }

  /** An insert that has its ID writes the vector, and the code if codes are written. */
  lemma InsertsVector(c: Config, s0: State, s: State, t: Tid, f: Eid, v: Vec, i: Iid) returns (s': State)
    requires Leads(c, s0, s) && t in s.threads && s.threads[t] == InsVec(f, v, i)
    ensures Leads(c, s0, s') && Apart(s, s') && Mappings(s') == Mappings(s)
    ensures s'.threads == s.threads[t := InsExt(f, v, i)] && s'.store.vec == s.store.vec[i := v]
    ensures s'.store == s.store.(vec := s.store.vec[i := v], quant := WithCode(c, s, i, v))
    ensures s'.missed == if s.fill.quantOn then s.missed - {i} else s.missed
  {
    hide Leads;
    s' := At(s, t, if s.fill.quantOn then InsQuant(f, v, i) else InsExt(f, v, i))
          .(store := s.store.(vec := s.store.vec[i := v]));
    assert InsertStep(c, s, t, s');
    LeadsOn(c, s0, t, s, s');
    if s.fill.quantOn {
      var s1 := s';
      s' := At(s1, t, InsExt(f, v, i))
            .(store := s1.store.(quant := s1.store.quant[i := c.compress(v)]), missed := s1.missed - {i});
      assert InsertStep(c, s1, t, s');
      LeadsOn(c, s0, t, s1, s');
    }
  }

  /** And then its mappings. */
  lemma InsertsMappings(c: Config, s0: State, s: State, t: Tid, f: Eid, v: Vec, i: Iid) returns (s': State)
    requires Leads(c, s0, s) && t in s.threads && s.threads[t] == InsExt(f, v, i)
    ensures Leads(c, s0, s') && Apart(s, s') && s'.threads == s.threads - {t}
    ensures Mappings(s') == (s.store.ints[f := i], s.stale - {f}, s.contents[f := v])
    ensures s'.store == s.store.(ext := s.store.ext[i := f], ints := s.store.ints[f := i]) && s'.missed == s.missed
  {
    hide Leads;
    var s1 := At(s, t, InsInt(f, v, i)).(store := s.store.(ext := s.store.ext[i := f]));
    assert InsertStep(c, s, t, s1);
    LeadsOn(c, s0, t, s, s1);
    s' := Return(s1, t).(store := s1.store.(ints := s1.store.ints[f := i]), contents := s1.contents[f := v],
                         stale := s1.stale - {f});
    assert InsertStep(c, s1, t, s');
    LeadsOn(c, s0, t, s1, s');
  }

  /** A whole insert of `f`, which gets ID `i`. */
  lemma Inserts(c: Config, s0: State, s: State, t: Tid, f: Eid, v: Vec, i: Iid, alloc: Allocator.State)
    returns (s': State)
    requires Leads(c, s0, s) && t !in s.threads && alloc.nextId <= U32_MAX
    requires Allocator.Step(s.alloc, Allocator.Alloc(i), alloc)
    ensures Leads(c, s0, s') && s'.threads == s.threads
    ensures s'.alloc == alloc && s'.training == s.training && s'.fill == s.fill
    ensures s'.store == Store(s.store.vec[i := v], WithCode(c, s, i, v), s.store.ext[i := f], s.store.ints[f := i])
    ensures Mappings(s') == (s.store.ints[f := i], s.stale - {f}, s.contents[f := v])
    ensures s'.missed == if s.fill.quantOn then s.missed - {i} else s.missed
  {
    hide Leads;
    var s1 := At(s, t, InsAlloc(f, v));
    assert StartInsert(s, t, s1);
    LeadsOn(c, s0, t, s, s1);
    var s2 := At(s1, t, InsVec(f, v, i)).(alloc := alloc);
    assert AllocOk(s1, t, i, s2);
    hide Allocator.Step;
    LeadsOn(c, s0, t, s1, s2);
    var s3 := InsertsVector(c, s0, s2, t, f, v, i);
    s' := InsertsMappings(c, s0, s3, t, f, v, i);
    assert s'.threads == s.threads;
  }

  /** Nothing is stored about ID `i`. */
  predicate Blank(store: Store, i: Iid) {
    i !in store.vec && i !in store.quant && i !in store.ext
  }

  /** An insert's entries, taken out again. */
  lemma Undone(store: Store, codes: map<Iid, Code>, i: Iid, f: Eid, v: Vec)
    requires Blank(store, i) && f !in store.ints && codes - {i} == store.quant
    ensures Store(store.vec[i := v] - {i}, codes - {i}, store.ext[i := f] - {i}, store.ints[f := i] - {f}) == store
  {
    assert store.vec[i := v] - {i} == store.vec;
    assert store.ext[i := f] - {i} == store.ext;
    assert store.ints[f := i] - {f} == store.ints;
  }

  lemma AllocUndone(a: Allocator.State, i: Iid, a': Allocator.State)
    requires Allocator.WellFormed(a) && Allocator.Step(a, Allocator.Alloc(i), a')
    ensures a'.(used := a'.used - {i}) == a.(nextId := a'.nextId)
  {
    assert a.used + {i} - {i} == a.used;
  }

  /** Inserting a new external ID and deleting it again leaves everything as it was, but for the ID
      space, which has grown if the ID was new. */
  lemma InsertThenDelete(c: Config, s: State, t: Tid, f: Eid, v: Vec, i: Iid, alloc: Allocator.State)
    returns (s1: State, s': State)
    requires t !in s.threads && alloc.nextId <= U32_MAX && Allocator.Step(s.alloc, Allocator.Alloc(i), alloc)
    requires Allocator.WellFormed(s.alloc) && Blank(s.store, i) && i !in s.missed
    requires f !in s.store.ints && f !in s.contents && f !in s.stale
    requires forall u :: u in s.threads ==> !Unmapping(s.threads[u], f, i)
    ensures Leads(c, s, s1) && f in s1.store.ints && s1.store.ints[f] == i && i in s1.store.vec && s1.store.vec[i] == v
    ensures Leads(c, s, s') && s' == s.(alloc := s.alloc.(nextId := alloc.nextId))
  {
    LeadsHere(c, s);
    assert WithCode(c, s, i, v) - {i} == s.store.quant;
    Undone(s.store, WithCode(c, s, i, v), i, f, v);
    AllocUndone(s.alloc, i, alloc);
    assert s.contents[f := v] - {f} == s.contents && s.stale - {f} == s.stale && s.missed - {i} == s.missed;
    hide Leads, WithCode, Blank, Allocator.Step, Allocator.WellFormed;
    s1 := Inserts(c, s, s, t, f, v, i, alloc);
    s' := Deletes(c, s, s1, t, f);
  }

  /** An insert loses the new ID it takes. */
  lemma LosesId(c: Config, s0: State, s: State, t: Tid) returns (s': State)
    requires Leads(c, s0, s) && t !in s.threads && s.alloc.nextId < U32_MAX
    ensures Leads(c, s0, s') && s' == s.(alloc := s.alloc.(nextId := s.alloc.nextId + 1))
  {
    hide Leads;
    var s1 := At(s, t, InsAlloc("", []));
    assert StartInsert(s, t, s1);
    LeadsOn(c, s0, t, s, s1);
    s' := Return(s1, t).(alloc := s.alloc.(nextId := s.alloc.nextId + 1));
    assert AllocStep(s1, t, s');
    LeadsOn(c, s0, t, s1, s');
    assert s'.threads == s.threads;
  }

  /** Inserts that fail to mark their new ID use up the ID space, from every state, with nothing to
      show for it. */
  lemma {:induction false} IdSpaceLost(c: Config, s0: State, s: State, t: Tid, n: Iid)
    requires Leads(c, s0, s) && t !in s.threads && s.alloc.nextId <= n <= U32_MAX
    ensures Leads(c, s0, s.(alloc := s.alloc.(nextId := n)))
    decreases n
  {
    hide Leads;
    if n > s.alloc.nextId {
      IdSpaceLost(c, s0, s, t, n - 1);
      var s1 := s.(alloc := s.alloc.(nextId := n - 1));
      var s2 := LosesId(c, s0, s1, t);
    }
  }
}
