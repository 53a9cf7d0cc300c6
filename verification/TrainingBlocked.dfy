/**
 When training can never succeed. A used ID that lost its vector, that nothing is mapped to and
 that nobody works on any more ends every visit that comes to it; while IDs are not reused, nothing
 repairs it. If fewer vectors than training needs lie below it, or all IDs that are left would not
 be enough, and no visit under way can still find enough, the index is never quantized and never
 reuses an ID.
 */
module TrainingBlocked {
  import opened Blocks
  import opened Collections
  import opened Provider
  import opened ProviderProofs
  import opened Schedules
  import Allocator

  ghost predicate Held(threads: map<Tid, Pc>, i: Iid) {
    exists t :: t in threads && Holding(threads[t]) && threads[t].i == i
  }

  /** The mappings a delete may follow: with careful callers those in force, else all. */
  function Followed(c: Config, s: State): map<Eid, Iid> {
    if c.careful then Live(s) else s.store.ints
  }

  /** A used ID without a vector that no delete can come to and that no call works on. */
  ghost predicate Leaked(c: Config, s: State, i: Iid) {
    && 0 < i < s.alloc.nextId && i in s.alloc.used && i !in s.store.vec
    && !Held(s.threads, i)
    && forall e :: e in Followed(c, s) ==> Followed(c, s)[e] != i
  }

  /** ID `j` has a vector, or an insert is about to write one. */
  ghost predicate Potential(s: State, j: Iid) {
    j in s.store.vec || exists t :: t in s.threads && s.threads[t].InsVec? && s.threads[t].i == j
  }

  /** The used IDs below `i`, but for the start point, that a visit may find a vector for. */
  ghost function Promising(s: State, i: Iid): set<Iid> {
    set j | j in s.alloc.used && 0 < j < i && Potential(s, j)
  }

  /** Training has not got anywhere yet. */
  ghost predicate Before(c: Config, s: State) {
    && c.quantizer.Untrained? && !s.fill.quantOn && !s.alloc.reuse
    && s.fill.tasks == [] && s.fill.finish == Waiting
    && Allocator.WellFormed(s.alloc) && s.alloc.nextId <= U32_MAX
  }

  /** ID `i` bars training: at most the IDs `w` below it can give vectors, and they are too few. */
  ghost predicate BarredBy(c: Config, s: State, i: Iid, w: set<Iid>) {
    Leaked(c, s, i) && |w| < c.required && Promising(s, i) <= w
  }

  /** Too few IDs are left for training: at most the IDs `w` can ever have vectors. */
  ghost predicate Exhausted(c: Config, s: State, w: set<Iid>) {
    && |w| < c.required && Promising(s, s.alloc.nextId) <= w
    && forall j :: s.alloc.nextId <= j < U32_MAX ==> j in w
  }

  // ---- A visit under way ----

  /** The visit has still to read the block that `j` is in. */
  predicate Unread(v: Training, j: Iid)
    requires v.Visiting?
  {
    v.bits.None? || j / BLOCK_IDS != v.next / BLOCK_IDS
  }

  /** The visit has still to look at ID `j`, or may have to. */
  predicate Ahead(v: Training, j: Iid)
    requires v.Visiting?
  {
    0 < j && v.next <= j < v.end && (Unread(v, j) || j in v.bits.value)
  }

  /** The visit may find a vector for ID `j`, which may have still to be handed out. */
  ghost predicate Prospect(s: State, j: Iid)
    requires s.training.Visiting?
  {
    && Ahead(s.training, j)
    && (if Unread(s.training, j) then (j in s.alloc.used && Potential(s, j)) || s.alloc.nextId <= j < U32_MAX
        else Potential(s, j))
  }

  ghost function Prospects(s: State, o: Iid): set<Iid>
    requires s.training.Visiting?
  {
    set j: nat | j < o && Prospect(s, j)
  }

  /** The visit will end at ID `j` for want of a vector. */
  ghost predicate Obstacle(c: Config, s: State, j: Iid)
    requires s.training.Visiting?
  {
    Ahead(s.training, j) && if Unread(s.training, j) then Leaked(c, s, j) else !Potential(s, j)
  }

  /** The elements of `w` from `n` on. */
  ghost function From(w: set<Iid>, n: Iid): set<Iid> {
    set j | j in w && j >= n
  }

  /** A visit's record is in order. */
  ghost predicate VisitOk(s: State)
    requires s.training.Visiting?
  {
    var v := s.training;
    && v.end % BLOCK_IDS == 0 && v.next <= v.end
    && (v.bits.None? ==> v.next % BLOCK_IDS == 0)
    && (v.bits.Some? ==> v.next < v.end && forall j :: j in v.bits.value ==> j < s.alloc.nextId)
  }

  /** At most the IDs `w` can give the visit more vectors before it comes to `o`, where it will end
      with too few. */
  ghost predicate Hopeless(c: Config, s: State, o: Iid, w: set<Iid>)
    requires s.training.Visiting?
  {
    var v := s.training;
    && VisitOk(s) && (o == v.end || Obstacle(c, s, o))
    && Prospects(s, o) <= w && v.rows + |From(w, v.next)| < c.required
  }

  ghost predicate VisitHopeless(c: Config, s: State) {
    !s.training.Visited? && (s.training.Visiting? ==> exists o, w :: Hopeless(c, s, o, w))
  }

  // ---- Inserts and deletes ----

  /** A call's step leaves the leaked ID alone. */
  lemma ThreadLeaked(c: Config, s: State, t: Tid, s': State, i: Iid)
    requires ThreadStep(c, s, t, s') && Leaked(c, s, i) && !s.alloc.reuse
    ensures Leaked(c, s', i)
  {
    ThreadHolds(c, s, t, s', i);
    ThreadMaps(c, s, t, s', i);
    ThreadUses(c, s, t, s', i);
  }

  /** Nobody takes the ID, frees it or gives it a vector. */
  lemma ThreadUses(c: Config, s: State, t: Tid, s': State, i: Iid)
    requires ThreadStep(c, s, t, s') && Leaked(c, s, i) && !s.alloc.reuse
    ensures 0 < i < s'.alloc.nextId && i in s'.alloc.used && i !in s'.store.vec
  {
    assert t in s.threads && Holding(s.threads[t]) ==> s.threads[t].i != i;
    hide Live, Held, UnmapFails, SafeToDelete, Followed;
    if t in s.threads && DeleteStep(s, t, s') {
      DeleteAt(s, t, s');
      hide DeleteStep;
    }
  }

  lemma ThreadHolds(c: Config, s: State, t: Tid, s': State, i: Iid)
    requires ThreadStep(c, s, t, s') && Leaked(c, s, i) && !s.alloc.reuse
    ensures !Held(s'.threads, i)
  {
    NewHolder(c, s, t, s', i);
    hide ThreadStep, Live;
    forall u | u in s'.threads && Holding(s'.threads[u])
      ensures s'.threads[u].i != i
    {
      if u != t {
        assert u in s.threads && s.threads[u] == s'.threads[u];
      }
    }
  }

  /** Only the thread that moves changes, and it does not come to hold the ID. */
  lemma NewHolder(c: Config, s: State, t: Tid, s': State, i: Iid)
    requires ThreadStep(c, s, t, s') && Leaked(c, s, i) && !s.alloc.reuse
    ensures OnlyMoved(s.threads, s'.threads, t)
    ensures t in s'.threads && Holding(s'.threads[t]) ==> s'.threads[t].i != i
  {
    assert t in s.threads && Holding(s.threads[t]) ==> s.threads[t].i != i;
    if StartDelete(c, s, t, s') {
      var e :| LookUp(s, t, e, s') && (c.careful ==> SafeToDelete(s, e));
      assert e in Followed(c, s) && Followed(c, s)[e] == s.store.ints[e];
    }
    hide StartDelete, Live, Held, InsertStep, DeleteStep, Followed;
    if t in s.threads && DeleteStep(s, t, s') {
      DeleteAt(s, t, s');
    } else if t in s.threads && InsertStep(c, s, t, s') {
      InsertAt(c, s, t, s');
    } else if StartDelete(c, s, t, s') {
      StartMoves(c, s, t, s');
    }
  }

  lemma StartMoves(c: Config, s: State, t: Tid, s': State)
    requires StartDelete(c, s, t, s')
    ensures OnlyMoved(s.threads, s'.threads, t)
    ensures s' == s.(threads := s'.threads) && Followed(c, s') == Followed(c, s)
  {
    hide SafeToDelete;
  }

  lemma ThreadMaps(c: Config, s: State, t: Tid, s': State, i: Iid)
    requires ThreadStep(c, s, t, s') && Leaked(c, s, i)
    ensures forall e :: e in Followed(c, s') ==> Followed(c, s')[e] != i
  {
    assert t in s.threads && Holding(s.threads[t]) ==> s.threads[t].i != i;
    hide Held, StartDelete, InsertStep, DeleteStep;
    if t in s.threads && DeleteStep(s, t, s') {
      DeleteAt(s, t, s');
      DeleteInts(s, t, s');
      hide Live;
      forall e | e in Followed(c, s')
        ensures Followed(c, s')[e] != i
      {
        assert e in Followed(c, s) && Followed(c, s')[e] == Followed(c, s)[e];
      }
    } else if t in s.threads && InsertStep(c, s, t, s') {
      InsertAt(c, s, t, s');
      InsertInts(c, s, t, s');
      hide Live;
      forall e | e in Followed(c, s')
        ensures Followed(c, s')[e] != i
      {
        assert Followed(c, s')[e] == s.threads[t].i || (e in Followed(c, s) && Followed(c, s')[e] == Followed(c, s)[e]);
      }
    } else if StartDelete(c, s, t, s') {
      StartMoves(c, s, t, s');
      hide Followed;
    } else {
      assert s'.store == s.store && s'.stale == s.stale;
      assert Followed(c, s') == Followed(c, s);
    }
  }

  lemma InsertInts(c: Config, s: State, t: Tid, s': State)
    requires t in s.threads && InsertStep(c, s, t, s')
    ensures || s'.store.ints == s.store.ints
            || (s.threads[t].InsInt? && s'.store.ints == s.store.ints[s.threads[t].e := s.threads[t].i])
  {
  }

  /** No ID below `nextId` comes to be used, or to have a vector, that could not before. */
  lemma ThreadPotential(c: Config, s: State, t: Tid, s': State, j: Iid)
    requires ThreadStep(c, s, t, s') && j < s.alloc.nextId && !s.alloc.reuse
    ensures j in s'.alloc.used ==> j in s.alloc.used
    ensures Potential(s', j) ==> Potential(s, j)
  {
    hide Live, UnmapFails, StartDelete;
    if t in s.threads && DeleteStep(s, t, s') {
      DeleteAt(s, t, s');
      hide DeleteStep;
    } else if StartDelete(c, s, t, s') {
      StartMoves(c, s, t, s');
      StartPotential(c, s, t, s', j);
    }
  }

  lemma StartPotential(c: Config, s: State, t: Tid, s': State, j: Iid)
    requires StartDelete(c, s, t, s')
    ensures Potential(s', j) ==> Potential(s, j)
  {
    hide SafeToDelete;
  }

  lemma ThreadBefore(c: Config, s: State, t: Tid, s': State)
    requires ThreadStep(c, s, t, s') && Before(c, s)
    ensures Before(c, s') && s'.training == s.training && s.alloc.nextId <= s'.alloc.nextId
  {
    hide Live, UnmapFails, StartDelete;
    if t in s.threads && DeleteStep(s, t, s') {
      DeleteAt(s, t, s');
      hide DeleteStep;
    } else if StartDelete(c, s, t, s') {
      StartMoves(c, s, t, s');
    }
  }

  lemma ThreadBarred(c: Config, s: State, t: Tid, s': State, i: Iid, w: set<Iid>)
    requires Before(c, s) && BarredBy(c, s, i, w) && ThreadStep(c, s, t, s')
    ensures BarredBy(c, s', i, w)
  {
    ThreadLeaked(c, s, t, s', i);
    hide ThreadStep;
    forall j | j in Promising(s', i)
      ensures j in w
    {
      ThreadPotential(c, s, t, s', j);
      assert j in Promising(s, i);
    }
  }

  lemma ThreadExhausted(c: Config, s: State, t: Tid, s': State, w: set<Iid>)
    requires Before(c, s) && Exhausted(c, s, w) && ThreadStep(c, s, t, s')
    ensures Exhausted(c, s', w)
  {
    ThreadBefore(c, s, t, s');
    hide ThreadStep;
    forall j | j in Promising(s', s'.alloc.nextId)
      ensures j in w
    {
      if j < s.alloc.nextId {
        ThreadPotential(c, s, t, s', j);
        assert j in Promising(s, s.alloc.nextId);
      }
    }
  }

  lemma ThreadProspect(c: Config, s: State, t: Tid, s': State, j: Iid)
    requires Before(c, s) && ThreadStep(c, s, t, s') && s.training.Visiting? && VisitOk(s)
    requires s'.training == s.training && Prospect(s', j)
    ensures Prospect(s, j)
  {
    ThreadBefore(c, s, t, s');
    if j < s.alloc.nextId {
      ThreadPotential(c, s, t, s', j);
    }
    hide ThreadStep, Potential;
  }

  lemma ThreadHopeless(c: Config, s: State, t: Tid, s': State, o: Iid, w: set<Iid>)
    requires Before(c, s) && ThreadStep(c, s, t, s') && s.training.Visiting? && s'.training == s.training
    requires Hopeless(c, s, o, w)
    ensures Hopeless(c, s', o, w)
  {
    ThreadBefore(c, s, t, s');
    forall j | j in Prospects(s', o)
      ensures j in w
    {
      ThreadProspect(c, s, t, s', j);
      assert j in Prospects(s, o);
    }
    if o != s.training.end {
      ThreadObstacle(c, s, t, s', o);
    }
    hide ThreadStep, Prospects, Obstacle;
  }

  lemma ThreadObstacle(c: Config, s: State, t: Tid, s': State, o: Iid)
    requires Before(c, s) && ThreadStep(c, s, t, s') && s.training.Visiting? && s'.training == s.training
    requires VisitOk(s) && Obstacle(c, s, o)
    ensures Obstacle(c, s', o)
  {
    if Unread(s.training, o) {
      ThreadLeaked(c, s, t, s', o);
    } else {
      ThreadPotential(c, s, t, s', o);
    }
    hide ThreadStep, Leaked, Potential;
  }

  // ---- The visit ----

  lemma SamePotential(s: State, s': State)
    requires s'.store == s.store && s'.threads == s.threads
    ensures forall j :: Potential(s', j) <==> Potential(s, j)
  {
    forall j
      ensures Potential(s', j) <==> Potential(s, j)
    {
    }
  }

  lemma SameLeaked(c: Config, s: State, s': State, i: Iid)
    requires s' == s.(training := s'.training)
    ensures Leaked(c, s', i) <==> Leaked(c, s, i)
    ensures Promising(s', i) == Promising(s, i)
  {
    SamePotential(s, s');
    assert Followed(c, s') == Followed(c, s);
    hide Followed, Potential;
  }

  /** Nothing is left to a leaked ID that could give it a vector. */
  lemma LeakedHasNone(c: Config, s: State, i: Iid)
    requires Leaked(c, s, i)
    ensures !Potential(s, i)
  {
    forall t | t in s.threads && s.threads[t].InsVec?
      ensures s.threads[t].i != i
    {
      assert Holding(s.threads[t]);
    }
  }

  lemma FromNext(w: set<Iid>, n: Iid)
    ensures |From(w, n + 1)| + (if n in w then 1 else 0) == |From(w, n)|
  {
    if n in w {
      assert From(w, n) == From(w, n + 1) + {n};
    } else {
      assert From(w, n) == From(w, n + 1);
    }
  }

  /** A new visit will come to the leaked ID. */
  lemma StartHopeless(c: Config, s: State, s': State, i: Iid, w: set<Iid>)
    requires Before(c, s) && BarredBy(c, s, i, w) && s' == s.(training := s'.training)
    requires VisitStarts(c, s, s'.training)
    ensures Hopeless(c, s', i, w)
  {
    SameLeaked(c, s, s', i);
    SamePotential(s, s');
    assert Ahead(s'.training, i);
    assert From(w, 0) == w;
    hide Leaked, Potential;
    forall j | j in Prospects(s', i)
      ensures j in w
    {
      assert j in Promising(s, i);
    }
  }

  /** A new visit will find too few vectors. */
  lemma StartExhausted(c: Config, s: State, s': State, w: set<Iid>)
    requires Before(c, s) && Exhausted(c, s, w) && s' == s.(training := s'.training)
    requires VisitStarts(c, s, s'.training)
    ensures Hopeless(c, s', s'.training.end, w)
  {
    SamePotential(s, s');
    assert From(w, 0) == w;
    hide Leaked, Potential;
    forall j | j in Prospects(s', s'.training.end)
      ensures j in w
    {
      assert j >= s.alloc.nextId || j in Promising(s, s.alloc.nextId);
    }
  }

  lemma ReadsHopeless(c: Config, s: State, s': State, o: Iid, w: set<Iid>)
    requires Before(c, s) && s.training.Visiting? && Hopeless(c, s, o, w)
    requires s' == s.(training := s'.training) && VisitReads(c, s, s'.training)
    ensures s'.training.NotTraining? || (s'.training.Visiting? && Hopeless(c, s', o, w))
  {
    SamePotential(s, s');
    SameLeaked(c, s, s', o);
    if Leaked(c, s, o) {
      LeakedHasNone(c, s, o);
    }
    assert Leaked(c, s, o) ==> o in s.alloc.used;
    hide Leaked, Potential;
    if s'.training.Visiting? {
      assert forall j :: Prospect(s', j) ==> Prospect(s, j);
      assert Prospects(s', o) <= Prospects(s, o);
    }
  }

  lemma LooksHopeless(c: Config, s: State, s': State, o: Iid, w: set<Iid>)
    requires Before(c, s) && s.training.Visiting? && Hopeless(c, s, o, w)
    requires s' == s.(training := s'.training) && VisitLooks(c, s, s'.training)
    ensures s'.training.NotTraining? || (s'.training.Visiting? && Hopeless(c, s', o, w))
  {
    var v := s.training;
    SamePotential(s, s');
    SameLeaked(c, s, s', o);
    FromNext(w, v.next);
    assert v.next in s.store.vec ==> Potential(s, v.next);
    hide Leaked, Potential, From;
    if s'.training.Visiting? {
      PassesOn(v, s'.training);
      assert o != v.next;
      if s'.training.rows > v.rows {
        assert v.next in Prospects(s, o);
      }
      PassedHopeless(c, s, s', o);
    }
  }

  /** Moving on by one ID changes nothing for the IDs after it. */
  lemma PassesOn(v: Training, v': Training)
    requires v.Visiting? && v.bits.Some? && v.next < v.end && v.end % BLOCK_IDS == 0
    requires v'.Visiting? && v' == VisitNext(v, v'.rows)
    ensures v'.next <= v'.end && (v'.bits.Some? ==> v'.next < v'.end) && (v'.bits.None? ==> v'.next % BLOCK_IDS == 0)
    ensures forall j :: Ahead(v', j) <==> Ahead(v, j) && j != v.next
    ensures forall j :: Ahead(v', j) ==> (Unread(v', j) <==> Unread(v, j))
  {
    forall j
      ensures Ahead(v', j) <==> Ahead(v, j) && j != v.next
      ensures Ahead(v', j) ==> (Unread(v', j) <==> Unread(v, j))
    {
      PassesOne(v, v', j);
    }
    hide Ahead, Unread;
  }

  lemma PassesOne(v: Training, v': Training, j: Iid)
    requires v.Visiting? && v.bits.Some? && v.next < v.end && v'.Visiting? && v' == VisitNext(v, v'.rows)
    ensures Ahead(v', j) <==> Ahead(v, j) && j != v.next
    ensures Ahead(v', j) ==> (Unread(v', j) <==> Unread(v, j))
  {
    if j > v.next {
      BlockEdge(v.next, j);
    }
  }

  lemma BlockEdge(n: Iid, j: Iid)
    requires n < j
    ensures (n + 1) % BLOCK_IDS == 0 ==> j / BLOCK_IDS != n / BLOCK_IDS
    ensures (n + 1) % BLOCK_IDS != 0 ==> (n + 1) / BLOCK_IDS == n / BLOCK_IDS
  {
  }

  lemma PassedHopeless(c: Config, s: State, s': State, o: Iid)
    requires s.training.Visiting? && s'.training.Visiting? && s' == s.(training := s'.training)
    requires forall j :: Ahead(s'.training, j) <==> Ahead(s.training, j) && j != s.training.next
    requires forall j :: Ahead(s'.training, j) ==> (Unread(s'.training, j) <==> Unread(s.training, j))
    requires o != s.training.next
    ensures Prospects(s', o) <= Prospects(s, o) && (Obstacle(c, s, o) ==> Obstacle(c, s', o))
  {
    SamePotential(s, s');
    SameLeaked(c, s, s', o);
    hide Leaked, Potential, Ahead, Unread;
    forall j | j in Prospects(s', o)
      ensures j in Prospects(s, o)
    {
    }
  }

  /** No new visit can succeed. */
  ghost predicate NoVisitSucceeds(c: Config, s: State) {
    (exists i, w :: BarredBy(c, s, i, w)) || exists w :: Exhausted(c, s, w)
  }

  lemma VisitStaysHopeless(c: Config, s: State, s': State)
    requires Before(c, s) && NoVisitSucceeds(c, s) && VisitHopeless(c, s) && VisitStep(c, s, s')
    ensures VisitHopeless(c, s')
  {
    hide VisitLooks, VisitReads, VisitStarts, Hopeless, BarredBy, Exhausted;
    if VisitStarts(c, s, s'.training) {
      StartsVisiting(c, s, s'.training);
      if i, w :| BarredBy(c, s, i, w) {
        StartHopeless(c, s, s', i, w);
      } else {
        var w :| Exhausted(c, s, w);
        StartExhausted(c, s, s', w);
      }
    } else if VisitReads(c, s, s'.training) {
      ReadsVisiting(c, s, s'.training);
      var o, w2 :| Hopeless(c, s, o, w2);
      ReadsHopeless(c, s, s', o, w2);
    } else if VisitLooks(c, s, s'.training) {
      LooksVisiting(c, s, s'.training);
      var o, w2 :| Hopeless(c, s, o, w2);
      LooksHopeless(c, s, s', o, w2);
    }
  }

  lemma StartsVisiting(c: Config, s: State, v: Training)
    requires VisitStarts(c, s, v)
    ensures v.Visiting?
  {
  }

  lemma ReadsVisiting(c: Config, s: State, v: Training)
    requires VisitReads(c, s, v)
    ensures s.training.Visiting?
  {
  }

  lemma LooksVisiting(c: Config, s: State, v: Training)
    requires VisitLooks(c, s, v)
    ensures s.training.Visiting?
  {
  }

  // ---- Every continuation ----

  /** The index will never be quantized: it was trained in vain, or some ID bars training or too few
      are left, and no visit under way can still find enough. */
  ghost predicate Barred(c: Config, s: State) {
    && Before(c, s)
    && (s.training.Stuck? || (NoVisitSucceeds(c, s) && VisitHopeless(c, s)))
  }

  lemma ThreadStaysBarred(c: Config, s: State, t: Tid, s': State)
    requires Barred(c, s) && ThreadStep(c, s, t, s')
    ensures Barred(c, s')
  {
    ThreadBefore(c, s, t, s');
    hide ThreadStep, BarredBy, Exhausted, Hopeless, Before;
    if !s.training.Stuck? {
      if i, w :| BarredBy(c, s, i, w) {
        ThreadBarred(c, s, t, s', i, w);
      } else {
        var w :| Exhausted(c, s, w);
        ThreadExhausted(c, s, t, s', w);
      }
      if s.training.Visiting? {
        var o, w2 :| Hopeless(c, s, o, w2);
        ThreadHopeless(c, s, t, s', o, w2);
      }
    }
  }

  lemma VisitStaysBarred(c: Config, s: State, s': State)
    requires Barred(c, s) && VisitStep(c, s, s')
    ensures Barred(c, s')
  {
    VisitOnly(c, s, s');
    StuckVisits(c, s, s');
    VisitStaysHopeless(c, s, s');
    hide VisitStep, VisitHopeless, Leaked, Promising;
    if i, w :| BarredBy(c, s, i, w) {
      SameLeaked(c, s, s', i);
      assert BarredBy(c, s', i, w);
    } else {
      var w :| Exhausted(c, s, w);
      SameLeaked(c, s, s', s.alloc.nextId);
      assert Exhausted(c, s', w);
    }
  }

  lemma StuckVisits(c: Config, s: State, s': State)
    requires VisitStep(c, s, s')
    ensures !s.training.Stuck?
  {
  }

  lemma StepBarred(c: Config, s: State, s': State)
    requires Barred(c, s) && Step(c, s, s')
    ensures Barred(c, s')
  {
    assert !s.training.Visited? && Before(c, s);
    hide ThreadStep, VisitStep, Barred;
    if t :| ThreadStep(c, s, t, s') {
      ThreadStaysBarred(c, s, t, s');
    } else if VisitStep(c, s, s') {
      VisitStaysBarred(c, s, s');
    } else {
      assert false;
    }
  }

  /** A barred index stays barred, is not quantized and reuses no ID, in every continuation. */
  lemma BarredForever(c: Config, s: State, s': State)
    requires Barred(c, s) && Leads(c, s, s')
    ensures Barred(c, s') && !s'.fill.quantOn && !s'.alloc.reuse
  {
    hide Step, Barred;
    var ss: seq<State> :|
      && |ss| > 0 && ss[0] == s && ss[|ss| - 1] == s'
      && forall i :: 0 <= i < |ss| - 1 ==> Step(c, ss[i], ss[i + 1]);
    StepsBarred(c, ss, |ss| - 1);
    BarredBefore(c, s');
  }

  lemma {:induction false} StepsBarred(c: Config, ss: seq<State>, n: nat)
    requires n < |ss| && Barred(c, ss[0])
    requires forall i :: 0 <= i < |ss| - 1 ==> Step(c, ss[i], ss[i + 1])
    ensures Barred(c, ss[n])
  {
    hide Step, Barred;
    if n > 0 {
      StepsBarred(c, ss, n - 1);
      assert Step(c, ss[n - 1], ss[n]);
      StepBarred(c, ss[n - 1], ss[n]);
    }
  }

  lemma BarredBefore(c: Config, s: State)
    requires Barred(c, s)
    ensures !s.fill.quantOn && !s.alloc.reuse
  {
    hide NoVisitSucceeds, VisitHopeless;
  }

  // ---- What can be seen from the state ----

  /** The IDs from `lo` on that are below `hi`. */
  ghost function Interval(lo: Iid, hi: Iid): (ids: set<Iid>)
    ensures forall j :: j in ids <==> lo <= j < hi
    decreases hi - lo
  {
    if lo < hi then {lo} + Interval(lo + 1, hi) else {}
  }

  lemma {:induction false} IntervalSize(lo: Iid, hi: Iid)
    requires lo <= hi
    ensures |Interval(lo, hi)| == hi - lo
    decreases hi - lo
  {
    if lo < hi {
      IntervalSize(lo + 1, hi);
    }
  }

  /** How many IDs can still be handed out. */
  function Left(s: State): nat {
    if s.alloc.nextId < U32_MAX then U32_MAX - s.alloc.nextId else 0
  }

  /** No leaked ID has too few vectors below it, and with all IDs that are left there are enough. */
  ghost predicate Trainable(c: Config, s: State) {
    && (forall i :: Leaked(c, s, i) ==> |Promising(s, i)| >= c.required)
    && |Promising(s, s.alloc.nextId)| + Left(s) >= c.required
  }

  /** A visit under way can still find enough vectors: before it comes to any ID where it must end,
      and before it has been through. */
  ghost predicate VisitMaySucceed(c: Config, s: State) {
    && s.training.Visiting?
    && forall o :: o == s.training.end || Obstacle(c, s, o) ==> s.training.rows + |Prospects(s, o)| >= c.required
  }

  /** Training can still succeed: it has read enough, or the visit under way may, or another one. */
  ghost predicate MayTrain(c: Config, s: State) {
    && !s.training.Stuck?
    && (s.training.Visited? || VisitMaySucceed(c, s) || Trainable(c, s))
  }

  lemma ProspectsAhead(s: State, o: Iid)
    requires s.training.Visiting?
    ensures From(Prospects(s, o), s.training.next) == Prospects(s, o)
  {
    hide Potential;
  }

  lemma UntrainableFails(c: Config, s: State)
    requires Before(c, s) && !Trainable(c, s)
    ensures NoVisitSucceeds(c, s)
  {
    hide Leaked, Potential;
    if i :| Leaked(c, s, i) && |Promising(s, i)| < c.required {
      assert BarredBy(c, s, i, Promising(s, i));
    } else {
      var n := s.alloc.nextId;
      var w := Promising(s, n) + Interval(n, U32_MAX);
      IntervalSize(n, U32_MAX);
      assert |w| <= |Promising(s, n)| + |Interval(n, U32_MAX)|;
      assert Exhausted(c, s, w);
    }
  }

  lemma MayNotBarred(c: Config, s: State)
    requires Before(c, s) && !MayTrain(c, s) && (s.training.Visiting? ==> VisitOk(s))
    ensures Barred(c, s)
  {
    if !s.training.Stuck? {
      UntrainableFails(c, s);
      if s.training.Visiting? {
        var o :| (o == s.training.end || Obstacle(c, s, o)) && s.training.rows + |Prospects(s, o)| < c.required;
        ProspectsAhead(s, o);
        hide NoVisitSucceeds, Prospects, Obstacle, Leaked;
        assert Hopeless(c, s, o, Prospects(s, o));
      }
    }
  }

  /** The index opened again over what is stored. */
  ghost predicate Reopened(s: State, s': State) {
    && s'.store == s.store && s'.stale == s.stale && s'.alloc.used == s.alloc.used
    && s'.threads == map[] && s'.training.NotTraining?
  }

  /** Opening the index again does not help against a leaked ID. */
  lemma ReopenedBarred(c: Config, s: State, s': State, i: Iid, w: set<Iid>)
    requires BarredBy(c, s, i, w) && Reopened(s, s') && Before(c, s')
    ensures Barred(c, s')
  {
    assert Followed(c, s') == Followed(c, s) && !Held(s'.threads, i);
    hide Followed;
    forall j | j in Promising(s', i)
      ensures j in w
    {
      assert j in Promising(s, i);
    }
    assert BarredBy(c, s', i, w);
  }
}
