/**
 A backfill that fails to write codes goes on, and the index goes quantized all the same, with
 vectors that have no code.
 */
module MissedCode {
  import opened HandOver
  import opened Provider
  import opened ProviderProofs
  import opened Schedules
  import opened TowardsReuse
  import Allocator
  import Calls
  import TrainingBlocked

  /** From every reachable state from which an index without codes can come to be quantized, careful
      callers or not: a schedule after which it is, every vector there was is still there, and none
      of them has a code. */
  lemma CodesLost(c: Config, ss: seq<State>, n: nat)
    requires Run(Careful(c), ss) && n < |ss| && !ss[n].fill.quantOn && CanHandOver(c, ss[n])
    ensures exists s' :: && Leads(c, ss[n], s') && AllQuantized(s') && s'.store.quant == map[]
                         && forall e :: e in ss[n].contents ==> e in s'.contents && s'.contents[e] == ss[n].contents[e]
  {
    var s := ss[n];
    ReachableSound(c, ss, n);
    RunInv(Careful(c), ss, n);
    assert s.store.quant == map[] by { NoCodesYet(Careful(c), s); }
    LeadsHere(c, s);
    hide Run, Leads, Sound, Inv, CanHandOver, Live;
    var s' := HandsOver(c, s, s);
  }

  lemma NoCodesYet(c: Config, s: State)
    requires Inv(c, s) && !s.fill.quantOn
    ensures s.store.quant == map[]
  {
    assert StartPointOk(c, s.store, s.fill, s.missed);
  }

  /** One insert into a new index. */
  lemma InsertsFirst(c: Config, e: Eid, v: Vec) returns (s: State)
    requires c.quantizer.Untrained?
    ensures Init(c, Fresh(c)) && Leads(c, Fresh(c), s) && s.contents == map[e := v] && s.alloc.nextId == 2
    ensures !s.fill.quantOn && (c.required < U32_MAX ==> CanHandOver(c, s))
  {
    LeadsHere(c, Fresh(c));
    hide Leads;
    s := Calls.Inserts(c, Fresh(c), Fresh(c), 0, e, v, 1, Allocator.State({0} + {1}, 2, false));
    assert TrainingBlocked.Promising(s, 2) == {1};
    assert c.required < U32_MAX ==> TrainingBlocked.Trainable(c, s);
  }

  /** Such a run for every index that needs training, however many vectors it needs, and for every
      vector. */
  lemma CodeLost(c: Config, e: Eid, v: Vec)
    requires c.quantizer.Untrained? && c.required < U32_MAX
    ensures exists ss: seq<State> ::
              && Run(Careful(c), ss)
              && var s := ss[|ss| - 1];
                 && AllQuantized(s) && e in s.contents && s.contents[e] == v
                 && e in s.store.ints && s.store.ints[e] !in s.store.quant
  {
    var d := Careful(c);
    var s := InsertsFirst(d, e, v);
    hide Leads, Init, CanHandOver;
    OnRun(d, Fresh(d), s);
    var ss :| Run(d, ss) && ss[|ss| - 1] == s;
    var n := |ss| - 1;
    ReachableSound(d, ss, n);
    RunInv(d, ss, n);
    NoCodesYet(d, s);
    MappingTheorem(d, ss, n, e);
    hide Run, Inv, Sound;
    var s' := HandsOver(d, Fresh(d), s);
    OnRun(d, Fresh(d), s');
  }
}
