/**
 When IDs come to be reused. Before the quantizer is trained this takes a visit that finds enough
 vectors: running calls are brought to rest, more vectors are inserted, the visit succeeds, and the
 backfill runs to its end. It can be done from every reachable state but those where it is barred.
 */
module TowardsReuse {
  import opened BackfillRuns
  import opened Calls
  import opened Collections
  import opened Provider
  import opened ProviderProofs
  import opened Schedules
  import opened Settling
  import opened TrainingBlocked
  import opened TrainingVisits
  import Allocator
  import Blocks

  /** What the way to reuse leaves alone: mappings in force, vectors, codes, and deletes that have
      not unmapped yet. Free IDs stay free, and only more IDs are handed out. */
  ghost predicate Keeps(s: State, s': State) {
    && s.alloc.nextId <= s'.alloc.nextId <= U32_MAX
    && (forall id :: id in s'.alloc.used && id < s.alloc.nextId ==> id in s.alloc.used)
    && s.store.vec.Keys <= s'.store.vec.Keys && s'.store.quant == s.store.quant
    && (forall e :: e in Live(s) ==> e in Live(s') && Live(s')[e] == Live(s)[e])
    && (forall e :: e in s.contents ==> e in s'.contents && s'.contents[e] == s.contents[e])
    && s'.stale <= s.stale
    && (forall t :: t in s.threads && Paused(s, s.threads[t]) ==> t in s'.threads && s'.threads[t] == s.threads[t])
    && s'.threads.Keys <= s.threads.Keys
  }

  lemma KeepsOn(s: State, s1: State, s2: State)
    requires Keeps(s, s1) && Keeps(s1, s2)
    ensures Keeps(s, s2)
  {
    hide Live;
    forall t | t in s.threads && Paused(s, s.threads[t])
      ensures t in s2.threads && s2.threads[t] == s.threads[t]
    {
      assert t in s1.threads && s1.threads[t] == s.threads[t] && Paused(s1, s1.threads[t]);
    }
    hide Paused;
  }

  lemma SettlesKeeps(s: State, s': State)
    requires Settles(s, s') && s.alloc.nextId <= U32_MAX
    ensures Keeps(s, s')
  {
    hide Potential, Held, Live;
  }

  // ---- More vectors ----

  lemma {:induction false} LongerThanAll(names: set<Eid>) returns (n: nat)
    ensures forall e :: e in names ==> |e| < n
  {
    if names == {} {
      n := 0;
    } else {
      var e :| e in names;
      n := LongerThanAll(names - {e});
      if n <= |e| {
        n := |e| + 1;
      }
    }
  }

  lemma NewName(names: set<Eid>) returns (g: Eid)
    ensures g !in names
  {
    var n := LongerThanAll(names);
    g := seq(n, _ => 'x');
  }

  lemma {:induction false} NewThread(threads: set<Tid>) returns (t: Tid)
    ensures forall u :: u in threads ==> u < t
  {
    if threads == {} {
      t := 0;
    } else {
      var u :| u in threads;
      t := NewThread(threads - {u});
      if t <= u {
        t := u + 1;
      }
      forall x | x in threads
        ensures x < t
      {
        assert x == u || x in threads - {u};
      }
    }
  }

  /** As many more vectors as are wanted, each under a new external ID and a new ID. */
  ghost predicate Added(s: State, n: nat, s': State) {
    var i := s.alloc.nextId;
    && s'.alloc == Allocator.State(s.alloc.used + Interval(i, i + n), i + n, s.alloc.reuse)
    && s'.store.vec.Keys == s.store.vec.Keys + Interval(i, i + n)
    && s'.threads == s.threads && s'.training == s.training && s'.fill == s.fill
    && forall e :: e in s.store.ints ==> e in s'.store.ints && s'.store.ints[e] == s.store.ints[e]
  }

  lemma AddsOne(c: Config, s0: State, s: State) returns (s': State)
    requires Leads(c, s0, s) && s.alloc.nextId < U32_MAX && !s.fill.quantOn
    ensures Leads(c, s0, s') && Added(s, 1, s') && Keeps(s, s')
  {
    hide Leads, Interval;
    var g := NewName(s.store.ints.Keys + s.stale + s.contents.Keys);
    var t := NewThread(s.threads.Keys);
    var i := s.alloc.nextId;
    s' := Inserts(c, s0, s, t, g, c.start, i, s.alloc.(used := s.alloc.used + {i}, nextId := i + 1));
    assert Interval(i, i + 1) == {i};
    assert s.stale - {g} == s.stale;
  }

  lemma {:induction false} AddsMore(c: Config, s0: State, s: State, n: nat) returns (s': State)
    requires Leads(c, s0, s) && s.alloc.nextId + n <= U32_MAX && !s.fill.quantOn
    ensures Leads(c, s0, s') && Keeps(s, s') && Added(s, n, s')
    decreases n
  {
    hide Leads, Live, Interval, Keeps, Added;
    if n == 0 {
      s' := s;
      AddedNone(s);
    } else {
      var s1 := AddsOne(c, s0, s);
      AddedState(s, 1, s1);
      s' := AddsMore(c, s0, s1, n - 1);
      AddedOn(s, s1, n - 1, s');
      KeepsOn(s, s1, s');
    }
  }

  lemma AddedNone(s: State)
    requires s.alloc.nextId <= U32_MAX
    ensures Added(s, 0, s) && Keeps(s, s)
  {
  }

  lemma AddedState(s: State, n: nat, s': State)
    requires Added(s, n, s')
    ensures s'.alloc.nextId == s.alloc.nextId + n && s'.fill == s.fill
  {
    hide Interval;
  }

  lemma AddedOn(s: State, s1: State, n: nat, s2: State)
    requires Added(s, 1, s1) && Added(s1, n, s2)
    ensures Added(s, n + 1, s2)
  {
    hide Interval;
    var i := s.alloc.nextId;
    assert Interval(i, i + n + 1) == Interval(i, i + 1) + Interval(i + 1, i + 1 + n);
  }

  /** New IDs with vectors do no harm to a visit. */
  lemma AddedVisitable(c: Config, s: State, n: nat, s': State)
    requires Visitable(c, s) && Added(s, n, s')
    ensures Visitable(c, s')
  {
    hide Interval;
    forall j | j in s'.alloc.used && 0 < j && j !in s'.store.vec
      ensures |Readable(s', j)| >= c.required
    {
      assert j in s.alloc.used && j !in s.store.vec;
      SubsetSize(Readable(s, j), Readable(s', j));
    }
  }

  /** They give it that many more to read. */
  lemma AddedReadable(s: State, n: nat, s': State)
    requires Added(s, n, s') && 0 < s.alloc.nextId
    ensures |Readable(s', s'.alloc.nextId)| >= |Readable(s, s.alloc.nextId)| + n
  {
    hide Interval;
    var i := s.alloc.nextId;
    IntervalSize(i, i + n);
    DisjointSize(Readable(s, i), Interval(i, i + n));
    SubsetSize(Readable(s, i) + Interval(i, i + n), Readable(s', i + n));
  }

  lemma DisjointSize(a: set<Iid>, b: set<Iid>)
    requires a !! b
    ensures |a + b| == |a| + |b|
  {
  }

  // ---- The rest of the inserts ----

  /** Every insert under way has failed and has only its ID to give back. */
  ghost predicate InsertsUndone(threads: map<Tid, Pc>) {
    forall t :: t in threads && Inserting(threads[t]) ==> threads[t].InsUndo?
  }

  /** The failed inserts give their IDs back. */
  lemma {:induction false} InsertsEnd(c: Config, s0: State, s: State) returns (s': State)
    requires Leads(c, s0, s) && s.alloc.nextId <= U32_MAX
    requires InsertsUndone(s.threads)
    ensures Leads(c, s0, s') && Keeps(s, s') && forall t :: t in s'.threads ==> !Inserting(s'.threads[t])
    ensures s'.training == s.training && s'.fill == s.fill && s'.alloc.reuse == s.alloc.reuse
    decreases s.threads.Keys
  {
    hide Leads;
    if t :| t in s.threads && Inserting(s.threads[t]) {
      var i := s.threads[t].i;
      var s1 := Return(s, t).(alloc := s.alloc.(used := s.alloc.used - {i}));
      assert FreeStep(s, t, s1);
      LeadsOn(c, s0, t, s, s1);
      assert s1.threads.Keys == s.threads.Keys - {t};
      s' := InsertsEnd(c, s0, s1);
      assert Keeps(s, s1);
      KeepsOn(s, s1, s');
    } else {
      s' := s;
    }
  }

  // ---- Enough vectors ----

  /** What every reachable state has, as far as it is needed here. */
  ghost predicate Sound(c: Config, s: State) {
    && PhaseOk(c, s.alloc, s.fill) && Allocator.WellFormed(s.alloc) && 0 < s.alloc.nextId
    && LiveHasVector(s) && InsertsAlone(s.threads) && s.contents.Keys !! s.stale
    && (s.training.Visiting? ==> VisitOk(s))
  }

  lemma RestedFrame(c: Config, s: State, s': State)
    requires Before(c, s) && Settles(s, s') && Rested(c, s')
    ensures Before(c, s') && InsertsUndone(s'.threads)
    ensures s'.alloc.nextId == s.alloc.nextId && s'.training == s.training && s'.fill == s.fill
  {
    AllAtRest(s');
    hide Potential, Held, Live, Rested;
  }

  /** Calls are brought to rest, and new vectors are inserted. */
  lemma Prepares(c: Config, s0: State, s: State, n: nat) returns (s1: State, s': State)
    requires Leads(c, s0, s) && Sound(c, s) && Before(c, s) && s.alloc.nextId + n <= U32_MAX
    ensures Settles(s, s1) && Rested(c, s1) && Before(c, s1) && Added(s1, n, s')
    ensures s1.alloc.nextId == s.alloc.nextId && s1.training == s.training && s1.fill == s.fill
    ensures Leads(c, s0, s') && Keeps(s, s') && InsertsUndone(s'.threads)
  {
    hide Leads, LiveHasVector, InsertsAlone;
    var t := NewThread(s.threads.Keys);
    s1 := AllRest(c, s0, s, t);
    RestedFrame(c, s, s1);
    SettlesKeeps(s, s1);
    hide Settles, Rested, Keeps, Sound;
    s' := AddsMore(c, s0, s1, n);
    KeepsOn(s, s1, s');
  }

  lemma AddedWellFormed(s: State, n: nat, s': State)
    requires Added(s, n, s') && Allocator.WellFormed(s.alloc)
    ensures Allocator.WellFormed(s'.alloc) && s'.fill == s.fill
  {
  }

  /** A new visit finds enough. */
  lemma VisitsAnew(c: Config, s0: State, s: State) returns (s': State)
    requires Leads(c, s0, s) && Sound(c, s) && Before(c, s) && !s.training.Stuck? && Trainable(c, s)
    ensures Leads(c, s0, s'.(training := Visited)) && Keeps(s, s') && InsertsUndone(s'.threads) && s'.fill == s.fill
  {
    var n := if c.required < Left(s) then c.required else Left(s);
    hide Leads, LiveHasVector, InsertsAlone;
    var s1;
    s1, s' := Prepares(c, s0, s, n);
    RestedVisitable(c, s, s1);
    RestedReadable(c, s, s1, s.alloc.nextId);
    hide Settles, Rested, Visitable, Readable, Promising, Keeps, Leaked, VisitOk;
    AddedVisitable(c, s1, n, s');
    AddedReadable(s1, n, s');
    AddedWellFormed(s1, n, s');
    Visits(c, s0, s');
  }

  /** How many IDs the visit under way may still see handed out. */
  function ToHandOut(s: State): nat
    requires s.training.Visiting?
  {
    var end := if s.training.end < U32_MAX then s.training.end else U32_MAX;
    if s.alloc.nextId < end then end - s.alloc.nextId else 0
  }

  /** The visit under way finds enough. */
  lemma VisitGoesOn(c: Config, s0: State, s: State) returns (s': State)
    requires Leads(c, s0, s) && Sound(c, s) && Before(c, s) && VisitMaySucceed(c, s)
    ensures Leads(c, s0, s'.(training := Visited)) && Keeps(s, s') && InsertsUndone(s'.threads) && s'.fill == s.fill
  {
    var n := ToHandOut(s);
    hide Leads, LiveHasVector, InsertsAlone;
    var s1;
    s1, s' := Prepares(c, s0, s, n);
    StillOnTrack(c, s, s1, s');
    AddedWellFormed(s1, n, s');
    hide OnTrack, Settles, Rested, Keeps, VisitOk, VisitMaySucceed, Added;
    VisitSucceeds(c, s0, s');
  }

  lemma StillOnTrack(c: Config, s: State, s1: State, s': State)
    requires Before(c, s) && LiveHasVector(s) && s.training.Visiting? && VisitOk(s) && VisitMaySucceed(c, s)
    requires Settles(s, s1) && Rested(c, s1) && s1.alloc.nextId == s.alloc.nextId && s1.training == s.training
    requires Added(s1, ToHandOut(s), s')
    ensures OnTrack(c, s')
  {
    var v := s.training;
    hide Settles, Rested, LiveHasVector;
    forall o | o == v.end || (Comes(s', o) && o !in s'.store.vec)
      ensures v.rows + |ToRead(s', o)| >= c.required
    {
      if o != v.end {
        StopsAtObstacle(c, s, s1, s', o);
      }
      forall j | j in Prospects(s, o)
        ensures j in ToRead(s', o)
      {
        ProspectRead(c, s, s1, s', j);
      }
      SubsetSize(Prospects(s, o), ToRead(s', o));
    }
    hide ToRead, Comes;
  }

  lemma StopsAtObstacle(c: Config, s: State, s1: State, s': State, o: Iid)
    requires Before(c, s) && LiveHasVector(s) && s.training.Visiting?
    requires Settles(s, s1) && Rested(c, s1) && s1.alloc.nextId == s.alloc.nextId && s1.training == s.training
    requires Added(s1, ToHandOut(s), s') && Comes(s', o) && o !in s'.store.vec
    ensures Obstacle(c, s, o)
  {
    hide Settles, Rested, LiveHasVector, Leaked, Potential;
    if Unread(s.training, o) {
      RestedIsLeaked(c, s, s1, o);
    } else if Potential(s, o) {
      RestedPotential(c, s, s1, o);
    }
  }

  lemma ProspectRead(c: Config, s: State, s1: State, s': State, j: Iid)
    requires Before(c, s) && s.training.Visiting?
    requires Settles(s, s1) && Rested(c, s1) && s1.alloc.nextId == s.alloc.nextId && s1.training == s.training
    requires Added(s1, ToHandOut(s), s') && Prospect(s, j)
    ensures s'.training.Visiting? && Comes(s', j) && j in s'.store.vec
  {
    hide Settles, Rested, Potential;
    if Potential(s, j) {
      RestedPotential(c, s, s1, j);
    }
  }

  // ---- All the way ----

  /** IDs are reused, or will be because the quantizer is trained, or can be because enough vectors
      can still be found. */
  ghost predicate CanReuse(c: Config, s: State) {
    s.alloc.reuse || s.fill.quantOn || MayTrain(c, s)
  }

  /** Training reads enough vectors, and nothing is left of the inserts that could stop it. */
  lemma ReadsEnough(c: Config, s0: State, s: State) returns (s': State)
    requires Leads(c, s0, s) && Sound(c, s) && Before(c, s) && MayTrain(c, s)
    ensures Leads(c, s0, s'.(training := Visited)) && Keeps(s, s') && InsertsUndone(s'.threads) && s'.fill == s.fill
  {
    hide Leads, Sound, Before, VisitMaySucceed, Trainable, Keeps, InsertsUndone;
    if s.training.Visited? {
      s' := OnlyRests(c, s0, s);
    } else if VisitMaySucceed(c, s) {
      s' := VisitGoesOn(c, s0, s);
    } else {
      s' := VisitsAnew(c, s0, s);
    }
  }

  lemma OnlyRests(c: Config, s0: State, s: State) returns (s': State)
    requires Leads(c, s0, s) && Sound(c, s) && Before(c, s) && s.training.Visited?
    ensures Leads(c, s0, s'.(training := Visited)) && Keeps(s, s') && InsertsUndone(s'.threads) && s'.fill == s.fill
  {
    hide Leads, Sound;
    var s1;
    s1, s' := Prepares(c, s0, s, 0);
    assert s'.(training := Visited) == s';
  }

  /** An index that can be trained comes to reuse IDs. */
  lemma FromUntrained(c: Config, s0: State, s: State) returns (s': State)
    requires Leads(c, s0, s) && Sound(c, s) && Before(c, s) && MayTrain(c, s)
    ensures Leads(c, s0, s') && Keeps(s, s') && s'.alloc.reuse && s'.fill.finish.SetFlag? && FilledUp(s'.fill)
  {
    assert s.fill.completed == 0;
    hide Leads, MayTrain, Sound;
    var s1 := ReadsEnough(c, s0, s);
    var s2 := s1.(training := Visited);
    assert Keeps(s, s2);
    assert s2.alloc.nextId <= U32_MAX;
    hide Keeps;
    var s3 := InsertsEnd(c, s0, s2);
    KeepsOn(s, s2, s3);
    assert s3.alloc.nextId <= U32_MAX by { WithinU32(s, s3); }
    s' := Trains(c, s0, s3);
    ReuseKeeps(s3, s');
    KeepsOn(s, s3, s');
  }

  lemma WithinU32(s: State, s': State)
    requires Keeps(s, s')
    ensures s'.alloc.nextId <= U32_MAX
  {
  }

  lemma ReuseKeeps(s: State, s': State)
    requires ReusesNow(s, s') && s.alloc.nextId <= U32_MAX
    ensures Keeps(s, s')
  {
    assert Live(s') == Live(s);
    hide Live;
  }

  lemma SoundBefore(c: Config, s: State)
    requires Sound(c, s) && !s.alloc.reuse && !s.fill.quantOn
    ensures Before(c, s)
  {
    hide LiveHasVector, InsertsAlone, VisitOk, AllDone;
  }

  /** IDs come to be reused. */
  lemma ReuseComes(c: Config, s0: State, s: State) returns (s': State)
    requires Leads(c, s0, s) && Sound(c, s) && CanReuse(c, s)
    ensures Leads(c, s0, s') && Keeps(s, s') && s'.alloc.reuse
  {
    assert s.alloc.nextId <= U32_MAX;
    hide Leads, MayTrain, LiveHasVector, InsertsAlone, VisitOk;
    if s.alloc.reuse {
      s' := s;
    } else if s.fill.quantOn {
      s' := BackfillEnds(c, s0, s);
      ReuseKeeps(s, s');
    } else {
      SoundBefore(c, s);
      hide Sound, Before;
      s' := FromUntrained(c, s0, s);
    }
  }

  // ---- Reachable states ----

  /** A visit is only under way before the quantizer is trained, and its record is in order. */
  ghost predicate VisitsOk(c: Config, s: State) {
    s.training.Visiting? ==> c.quantizer.Untrained? && !s.fill.quantOn && VisitOk(s)
  }

  lemma ThreadVisitsOk(c: Config, s: State, t: Tid, s': State)
    requires ThreadStep(c, s, t, s') && VisitsOk(c, s) && PhaseOk(c, s.alloc, s.fill) && Allocator.WellFormed(s.alloc)
    ensures VisitsOk(c, s')
  {
    ThreadTraining(c, s, t, s');
    if s.training.Visiting? {
      assert Before(c, s) by { hide AllDone; }
      ThreadBefore(c, s, t, s');
    }
    hide ThreadStep, PhaseOk;
  }

  lemma ThreadTraining(c: Config, s: State, t: Tid, s': State)
    requires ThreadStep(c, s, t, s')
    ensures s'.training == s.training
  {
    hide Live, UnmapFails, StartDelete;
    if StartDelete(c, s, t, s') {
      StartMoves(c, s, t, s');
    } else if t in s.threads && DeleteStep(s, t, s') {
      DeleteAt(s, t, s');
      hide DeleteStep;
    }
  }

  lemma VisitVisitsOk(c: Config, s: State, s': State)
    requires VisitStep(c, s, s') && VisitsOk(c, s) && Allocator.WellFormed(s.alloc)
    ensures VisitsOk(c, s')
  {
    if s'.training.Visiting? && VisitLooks(c, s, s'.training) {
      PassesOn(s.training, s'.training);
      hide Ahead, Unread;
    }
  }

  lemma StepVisitsOk(c: Config, s: State, s': State)
    requires Step(c, s, s') && VisitsOk(c, s) && PhaseOk(c, s.alloc, s.fill) && Allocator.WellFormed(s.alloc)
    ensures VisitsOk(c, s')
  {
    hide ThreadStep, VisitStep, PhaseOk;
    if t :| ThreadStep(c, s, t, s') {
      ThreadVisitsOk(c, s, t, s');
    } else if VisitStep(c, s, s') {
      VisitVisitsOk(c, s, s');
    } else {
      hide VisitOk, FillStep;
      assert s'.training == s.training || s'.training.NotTraining?;
    }
  }

  lemma {:induction false} RunVisitsOk(c: Config, ss: seq<State>, n: nat)
    requires Run(c, ss) && n < |ss|
    ensures VisitsOk(c, ss[n])
  {
    if n > 0 {
      var p := n - 1;
      RunVisitsOk(c, ss, p);
      RunInv(c, ss, p);
      assert Step(c, ss[p], ss[p + 1]);
      assert Owned(ss[p]) && Coded(c, ss[p]);
      hide Step, Run, VisitsOk, HoldersOk, MappedOk, MappedApart, MappedUnheld;
      StepVisitsOk(c, ss[p], ss[n]);
    }
  }

  lemma ReachableSound(c: Config, ss: seq<State>, n: nat)
    requires Run(Careful(c), ss) && n < |ss|
    ensures Sound(c, ss[n])
  {
    RunInv(Careful(c), ss, n);
    RunVisitsOk(Careful(c), ss, n);
    hide Run, VisitOk;
    var s := ss[n];
    assert Owned(s) && Data(s) && Coded(Careful(c), s);
    assert HoldersApart(s.threads) && VectorsOk(Live(s), s.store, s.contents);
    hide HoldersOk, MappedOk, MappedApart, MappedUnheld, BackMapOk, InsertsOk, Coded;
  }

  /** From a reachable state, and whether or not callers are careful from then on, IDs can come to
      be reused if and only if they are already, or the quantizer is trained, or training can still
      succeed. */
  lemma ReuseIff(c: Config, ss: seq<State>, n: nat)
    requires Run(Careful(c), ss) && n < |ss|
    ensures (exists s' :: Leads(c, ss[n], s') && s'.alloc.reuse) <==> CanReuse(c, ss[n])
  {
    var s := ss[n];
    ReachableSound(c, ss, n);
    LeadsHere(c, s);
    hide Run, Leads, MayTrain;
    if CanReuse(c, s) {
      hide Sound;
      var s' := ReuseComes(c, s, s);
    } else {
      SoundBefore(c, s);
      MayNotBarred(c, s);
      hide Sound, Before, Barred;
      forall s' | Leads(c, s, s')
        ensures !s'.alloc.reuse
      {
        BarredForever(c, s, s');
      }
    }
  }

  // ---- What a visit reads ----

  /** A visit under way has no more vectors than training needs, and the bits of one block only. */
  ghost predicate VisitFits(c: Config, s: State) {
    s.training.Visiting? ==>
      && s.training.rows <= c.required
      && (s.training.bits.Some? ==>
            forall j :: j in s.training.bits.value ==>
              j / Blocks.BLOCK_IDS == s.training.next / Blocks.BLOCK_IDS)
  }

  lemma VisitStaysFit(c: Config, s: State, s': State)
    requires VisitStep(c, s, s') && VisitFits(c, s)
    ensures VisitFits(c, s')
  {
    if s'.training.Visiting? && VisitLooks(c, s, s'.training) && s'.training.bits.Some? {
      SameBlock(s.training.next);
    }
  }

  lemma SameBlock(n: Iid)
    ensures (n + 1) % Blocks.BLOCK_IDS != 0 ==> (n + 1) / Blocks.BLOCK_IDS == n / Blocks.BLOCK_IDS
  {
  }

  lemma StepStaysFit(c: Config, s: State, s': State)
    requires Step(c, s, s') && VisitFits(c, s)
    ensures VisitFits(c, s')
  {
    hide ThreadStep, VisitStep;
    if t :| ThreadStep(c, s, t, s') {
      ThreadTraining(c, s, t, s');
    } else if VisitStep(c, s, s') {
      VisitStaysFit(c, s, s');
    } else {
      hide VisitFits, FillStep;
      assert s'.training == s.training || s'.training.NotTraining?;
      SameFit(c, s, s');
    }
  }

  lemma SameFit(c: Config, s: State, s': State)
    requires VisitFits(c, s) && (s'.training == s.training || s'.training.NotTraining?)
    ensures VisitFits(c, s')
  {
  }

  /** In every state of every run, a visit keeps within what training has room for, and holds the
      bits of the block it is in. */
  lemma {:induction false} RunVisitFits(c: Config, ss: seq<State>, n: nat)
    requires Run(c, ss) && n < |ss|
    ensures VisitFits(c, ss[n])
  {
    hide Step, Init;
    if n > 0 {
      RunVisitFits(c, ss, n - 1);
      assert Step(c, ss[n - 1], ss[n]);
      StepStaysFit(c, ss[n - 1], ss[n]);
    } else {
      assert ss[0].training == NotTraining by { StartsIdle(c, ss[0]); }
    }
  }

  lemma StartsIdle(c: Config, s: State)
    requires Init(c, s)
    ensures s.training == NotTraining
  {
  }

  // ---- An index that is barred ----

  /** From every reachable state in which training can succeed, it can also do so in vain: the trained
      quantizer cannot be stored, and the index is barred for good. */
  lemma UnstoredBars(c: Config, ss: seq<State>, n: nat) returns (s': State)
    requires Run(Careful(c), ss) && n < |ss|
    requires !ss[n].alloc.reuse && !ss[n].fill.quantOn && MayTrain(c, ss[n])
    ensures Leads(c, ss[n], s') && Keeps(ss[n], s') && s'.training.Stuck? && Barred(c, s')
  {
    var s := ss[n];
    ReachableSound(c, ss, n);
    SoundBefore(c, s);
    LeadsHere(c, s);
    assert s.alloc.nextId <= U32_MAX && s.fill.tasks == [];
    hide Run, Leads, MayTrain, Sound;
    var s1 := ReadsEnough(c, s, s);
    var s2 := s1.(training := Visited);
    s' := s1.(training := Stuck);
    assert TrainFails(s2, Stuck);
    assert VisitStep(c, s2, s');
    hide VisitStep;
    assert Step(c, s2, s');
    LeadsStep(c, s, s2, s');
    LeadsBefore(c, s, s2);
    StuckBarred(c, s, s1);
  }

  lemma StuckBarred(c: Config, s: State, s1: State)
    requires Before(c, s1) && Keeps(s, s1)
    ensures Barred(c, s1.(training := Stuck)) && Keeps(s, s1.(training := Stuck))
  {
    hide NoVisitSucceeds, VisitHopeless;
  }

  /** Only training ends the time before it. */
  lemma StepBefore(c: Config, s: State, s': State)
    requires Step(c, s, s') && (s.fill.quantOn || Before(c, s))
    ensures s'.fill.quantOn || Before(c, s')
  {
    hide ThreadStep, VisitStep, FillStep, Launched;
    if t :| ThreadStep(c, s, t, s') {
      ThreadFill(c, s, t, s');
      if !s.fill.quantOn {
        ThreadBefore(c, s, t, s');
      }
    } else if VisitStep(c, s, s') {
      VisitOnly(c, s, s');
    } else if k :| FillStep(c, s, k, s') {
      FillAt(c, s, k, s');
    }
  }

  lemma {:induction false} StepsBefore(c: Config, ss: seq<State>, n: nat)
    requires n < |ss| && Before(c, ss[0]) && forall i :: 0 <= i < |ss| - 1 ==> Step(c, ss[i], ss[i + 1])
    ensures ss[n].fill.quantOn || Before(c, ss[n])
  {
    hide Step, Before;
    if n > 0 {
      StepsBefore(c, ss, n - 1);
      assert Step(c, ss[n - 1], ss[n]);
      StepBefore(c, ss[n - 1], ss[n]);
    }
  }

  lemma LeadsBefore(c: Config, s: State, s': State)
    requires Before(c, s) && Leads(c, s, s') && !s'.fill.quantOn
    ensures Before(c, s')
  {
    hide Step, Before;
    var ss: seq<State> :|
      && |ss| > 0 && ss[0] == s && ss[|ss| - 1] == s'
      && forall i :: 0 <= i < |ss| - 1 ==> Step(c, ss[i], ss[i + 1]);
    StepsBefore(c, ss, |ss| - 1);
  }

  /** A delete comes to its end, but fails to free the ID. */
  lemma DeletesAndLeaks(c: Config, s0: State, s: State, t: Tid, i: Iid) returns (s': State)
    requires Leads(c, s0, s) && t in s.threads && s.threads[t] == DelQuant(i)
    ensures Leads(c, s0, s') && Apart(s, s') && Mappings(s') == Mappings(s)
    ensures s'.threads == s.threads - {t} && s'.store.vec == s.store.vec
  {
    hide Leads;
    var s1 := At(s, t, DelFree(i));
    assert DeleteStep(s, t, s1);
    LeadsOn(c, s0, t, s, s1);
    s' := Return(s1, t);
    assert FreeStep(s1, t, s');
    LeadsOn(c, s0, t, s1, s');
  }

  /** A new index with only its start point. */
  function Fresh(c: Config): State {
    State(Allocator.State({0}, 1, false), Store(map[0 := c.start], map[], map[], map[]), NotTraining,
          Fill(false, 0, [], 0, Waiting), map[], map[], {}, {})
  }

  /** One vector that is inserted and deleted, and whose ID cannot be freed, bars the training of
      every index that needs any vectors for it. */
  lemma LeakBars(c: Config, e: Eid, v: Vec)
    requires c.quantizer.Untrained? && c.required > 0
    ensures exists s :: Init(c, Fresh(c)) && Leads(c, Fresh(c), s) && Barred(c, s)
  {
    FreshIsInit(c);
    LeadsHere(c, Fresh(c));
    hide Leads, Init, Barred;
    var s := Inserts(c, Fresh(c), Fresh(c), 0, e, v, 1, Allocator.State({0} + {1}, 2, false));
    var s1 := At(s, 0, DelExt(e, 1));
    assert LookUp(s, 0, e, s1);
    assert StartDelete(c, s, 0, s1);
    LeadsOn(c, Fresh(c), 0, s, s1);
    var s2 := DeletesVector(c, Fresh(c), s1, 0, e, 1);
    var s3 := DeletesAndLeaks(c, Fresh(c), s2, 0, 1);
    assert s3.threads == map[] && s3.store.ints == map[];
    LeakedFirst(c, s3);
  }

  lemma FreshIsInit(c: Config)
    requires c.quantizer.Untrained?
    ensures Init(c, Fresh(c))
  {
  }

  /** The first ID is used, and there is nothing else. */
  lemma LeakedFirst(c: Config, s: State)
    requires c.quantizer.Untrained? && c.required > 0
    requires s.alloc == Allocator.State({0} + {1}, 2, false) && s.training == NotTraining && s.fill == Fresh(c).fill
    requires s.threads == map[] && s.store.ints == map[] && 1 !in s.store.vec
    ensures Barred(c, s)
  {
    assert Promising(s, 1) == {};
    assert BarredBy(c, s, 1, {});
    hide BarredBy;
  }
}
