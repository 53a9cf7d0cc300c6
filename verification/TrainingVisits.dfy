/** A training visit that is given up, and one that finds what training needs. */
module TrainingVisits {
  import opened Blocks
  import opened Collections
  import opened Provider
  import opened Schedules
  import opened Settling
  import opened TrainingBlocked
  import Allocator

  lemma VisitLeads(c: Config, s0: State, s: State, v: Training)
    requires Leads(c, s0, s)
    requires VisitStarts(c, s, v) || VisitReads(c, s, v) || VisitLooks(c, s, v) || TrainFails(s, v)
    ensures Leads(c, s0, s.(training := v))
  {
    hide Leads, VisitStarts, VisitReads, VisitLooks, TrainFails;
    assert VisitStep(c, s, s.(training := v));
    hide VisitStep;
    assert Step(c, s, s.(training := v));
    LeadsStep(c, s0, s, s.(training := v));
  }

  // ---- Giving up ----

  lemma TrainingFails(c: Config, s0: State, s: State)
    requires Leads(c, s0, s) && (s.training.Visited? || s.training.NotTraining?)
    ensures Leads(c, s0, s.(training := NotTraining))
  {
    if s.training.Visited? {
      VisitLeads(c, s0, s, NotTraining);
    }
  }

  /** A visit that is under way comes to nothing. */
  lemma {:induction false} GivesUp(c: Config, s0: State, s: State)
    requires Leads(c, s0, s) && !s.training.Stuck?
    ensures Leads(c, s0, s.(training := NotTraining))
    decreases if s.training.Visiting? then s.training.next / BLOCK_IDS * BLOCK_IDS + BLOCK_IDS - s.training.next else 0
  {
    hide Leads, BlockCount, BlockBits;
    var v := s.training;
    if !v.Visiting? {
      TrainingFails(c, s0, s);
    } else if v.bits.None? && v.next < v.end {
      VisitLeads(c, s0, s, NotTraining);
    } else {
      var v' := if v.bits.None? || (v.next != 0 && v.next in v.bits.value) then VisitOver(c, v.rows)
                else VisitNext(v, v.rows);
      VisitLeads(c, s0, s, v');
      var s1 := s.(training := v');
      if !v'.Visiting? {
        TrainingFails(c, s0, s1);
      } else if v'.bits.None? {
        GivesUpBetween(c, s0, s1);
      } else {
        BlockGoesOn(v.next);
        GivesUp(c, s0, s1);
      }
    }
  }

  /** Between two blocks. */
  lemma GivesUpBetween(c: Config, s0: State, s: State)
    requires Leads(c, s0, s) && s.training.Visiting? && s.training.bits.None?
    ensures Leads(c, s0, s.(training := NotTraining))
  {
    hide Leads, BlockBits;
    if s.training.next < s.training.end {
      VisitLeads(c, s0, s, NotTraining);
    } else {
      var v' := VisitOver(c, s.training.rows);
      VisitLeads(c, s0, s, v');
      TrainingFails(c, s0, s.(training := v'));
    }
  }

  lemma BlockGoesOn(n: Iid)
    requires (n + 1) % BLOCK_IDS != 0
    ensures (n + 1) / BLOCK_IDS == n / BLOCK_IDS && n < n / BLOCK_IDS * BLOCK_IDS + BLOCK_IDS
  {
  }

  // ---- Success ----

  /** In an index at rest, the visit will look at `j`. */
  ghost predicate Comes(s: State, j: Iid)
    requires s.training.Visiting?
  {
    Ahead(s.training, j) && (Unread(s.training, j) ==> j in s.alloc.used)
  }

  /** What it will have read of the rest when it comes to `o`. */
  ghost function ToRead(s: State, o: Iid): set<Iid>
    requires s.training.Visiting?
  {
    set j: nat | j < o && Comes(s, j) && j in s.store.vec
  }

  /** In an index at rest, the visit will find enough: before it comes to an ID that has no vector,
      and before it has been through. */
  ghost predicate OnTrack(c: Config, s: State) {
    && s.training.Visiting? && VisitOk(s)
    && forall o :: o == s.training.end || (Comes(s, o) && o !in s.store.vec) ==>
         s.training.rows + |ToRead(s, o)| >= c.required
  }

  /** The visit reads its next block. */
  lemma ReadsOn(c: Config, s: State, v: Training)
    requires OnTrack(c, s) && s.training.bits.None? && s.training.next < s.training.end
    requires v == s.training.(bits := Some(BlockBits(s.alloc.used, s.training.next)))
    requires Allocator.WellFormed(s.alloc)
    ensures OnTrack(c, s.(training := v))
  {
    var s' := s.(training := v);
    assert forall j :: Comes(s', j) <==> Comes(s, j);
    hide Comes, Ahead, Unread;
    forall o
      ensures ToRead(s', o) == ToRead(s, o)
    {
    }
  }

  /** The visit passes its next ID. */
  lemma LooksOn(c: Config, s: State, v: Training)
    requires OnTrack(c, s) && s.training.bits.Some? && v.Visiting? && v == VisitNext(s.training, v.rows)
    requires v.rows == s.training.rows + if Comes(s, s.training.next) then 1 else 0
    requires Comes(s, s.training.next) ==> s.training.next in s.store.vec
    ensures OnTrack(c, s.(training := v))
  {
    var s' := s.(training := v);
    var n := s.training.next;
    PassesOn(s.training, v);
    assert forall j :: Comes(s', j) <==> Comes(s, j) && j != n;
    assert forall j :: Comes(s, j) ==> n <= j;
    hide Comes, Ahead, Unread;
    forall o | o == v.end || (Comes(s', o) && o !in s.store.vec)
      ensures v.rows + |ToRead(s', o)| >= c.required
    {
      assert n < o;
      if Comes(s, n) {
        assert ToRead(s, o) == ToRead(s', o) + {n};
      } else {
        assert ToRead(s, o) == ToRead(s', o);
      }
    }
  }

  /** Where the visit stops it has enough. */
  lemma NothingAhead(c: Config, s: State, o: Iid)
    requires OnTrack(c, s) && o <= s.training.next
    requires o == s.training.end || (Comes(s, o) && o !in s.store.vec)
    ensures s.training.rows >= c.required
  {
    assert ToRead(s, o) == {};
  }

  /** One more ID, or the end. */
  lemma LooksAtNext(c: Config, s0: State, s: State) returns (v: Training)
    requires Leads(c, s0, s) && OnTrack(c, s) && s.training.bits.Some?
    ensures Leads(c, s0, s.(training := v))
    ensures v.Visited? || (v.Visiting? && v.next == s.training.next + 1 && v.end == s.training.end)
    ensures v.Visiting? ==> OnTrack(c, s.(training := v))
  {
    hide Leads;
    AtNext(c, s);
    v := s.training;
    var n := v.next;
    hide OnTrack, Ahead;
    if Comes(s, n) && n !in s.store.vec {
      NothingAhead(c, s, n);
    }
    if Comes(s, n) && v.rows >= c.required {
      VisitLeads(c, s0, s, Visited);
      v := Visited;
    } else {
      v := VisitNext(v, v.rows + if Comes(s, n) then 1 else 0);
      VisitLeads(c, s0, s, v);
      LooksOn(c, s, v);
    }
  }

  lemma AtNext(c: Config, s: State)
    requires OnTrack(c, s) && s.training.bits.Some?
    ensures Comes(s, s.training.next) <==> s.training.next != 0 && s.training.next in s.training.bits.value
  {
  }

  lemma {:induction false} VisitSucceeds(c: Config, s0: State, s: State)
    requires Leads(c, s0, s) && OnTrack(c, s) && Allocator.WellFormed(s.alloc)
    ensures Leads(c, s0, s.(training := Visited))
    decreases if s.training.next < s.training.end then s.training.end - s.training.next else 0,
              if s.training.bits.Some? then 0 else 1
  {
    hide Leads, BlockBits;
    var v := s.training;
    if v.bits.Some? {
      assert v.next < v.end;
      hide OnTrack;
      var v' := LooksAtNext(c, s0, s);
      if v'.Visiting? {
        VisitSucceeds(c, s0, s.(training := v'));
      }
    } else if v.next < v.end {
      var v' := v.(bits := Some(BlockBits(s.alloc.used, v.next)));
      VisitLeads(c, s0, s, v');
      ReadsOn(c, s, v');
      hide OnTrack;
      VisitSucceeds(c, s0, s.(training := v'));
    } else {
      NothingAhead(c, s, v.end);
      VisitLeads(c, s0, s, Visited);
    }
  }

  /** A whole visit; one that is under way is given up first. */
  lemma Visits(c: Config, s0: State, s: State)
    requires Leads(c, s0, s) && c.quantizer.Untrained? && !s.fill.quantOn && !s.training.Stuck?
    requires Visitable(c, s) && Allocator.WellFormed(s.alloc) && |Readable(s, s.alloc.nextId)| >= c.required
    ensures Leads(c, s0, s.(training := Visited))
  {
    hide Leads;
    var blocks := s.alloc.nextId / BLOCK_IDS + 1;
    assert BlockCount(s.alloc, blocks);
    var v := Visiting(None, 0, blocks * BLOCK_IDS, 0);
    GivesUp(c, s0, s);
    VisitLeads(c, s0, s.(training := NotTraining), v);
    StartsOnTrack(c, s, v);
    hide OnTrack;
    VisitSucceeds(c, s0, s.(training := v));
  }

  lemma StartsOnTrack(c: Config, s: State, v: Training)
    requires v.Visiting? && v.bits.None? && v.next == 0 && v.rows == 0 && v.end % BLOCK_IDS == 0
    requires forall id :: id in s.alloc.used ==> id < v.end
    requires Visitable(c, s) && Allocator.WellFormed(s.alloc) && |Readable(s, s.alloc.nextId)| >= c.required
    ensures OnTrack(c, s.(training := v))
  {
    var s1 := s.(training := v);
    forall o: nat | o <= v.end
      ensures ToRead(s1, o) == Readable(s, o)
    {
      assert forall j: nat :: Comes(s1, j) <==> 0 < j < v.end && j in s.alloc.used;
      hide Comes;
    }
    assert Readable(s, v.end) == Readable(s, s.alloc.nextId);
    hide ToRead, Readable;
  }
}
