/**
 Attempts to set the start point, one after the other as they are made while the index is not
 ready. Each allocates ID 0, writes the vector, its code if codes are written, and the empty
 adjacency list; any of these may fail, and an attempt that fails takes nothing back.
 */
module StartPoint {
  import Allocator

  /** The allocator, and which of the start point's records are stored. */
  datatype State = State(alloc: Allocator.State, vector: bool, code: bool, list: bool)

  /** The vector is read: the attempt loads the rest, and fails if it is not there or not readable. */
  ghost predicate Loads(quantized: bool, s: State, ok: bool, s': State) {
    s.vector && s' == s && (ok ==> s.list && (quantized ==> s.code))
  }

  /** No vector is stored, or it cannot be read, and the attempt gets no ID, or one that is not 0 and
      that it gives back unless this fails too. */
  ghost predicate GetsAnother(s: State, s': State) {
    && s' == s.(alloc := s'.alloc)
    && (|| Allocator.Step(s.alloc, Allocator.Quiet, s'.alloc)
        || Allocator.Step(s.alloc, Allocator.Lost, s'.alloc)
        || exists id, a :: && id != 0 && Allocator.Step(s.alloc, Allocator.Alloc(id), a)
                           && (s'.alloc == a || s'.alloc == a.(used := a.used - {id})))
  }

  /** No vector is stored, or it cannot be read, and the attempt gets ID 0. The first write that fails
      ends it. */
  ghost predicate Writes(quantized: bool, s: State, ok: bool, s': State) {
    var a := s'.alloc;
    && Allocator.Step(s.alloc, Allocator.Alloc(0), a)
    && (|| (!ok && s' == s.(alloc := a))                                             // no vector
        || (!ok && s' == s.(alloc := a, vector := true))                             // no code, or no list
        || (!ok && quantized && s' == s.(alloc := a, vector := true, code := true))  // a code, but no list
        || s' == s.(alloc := a, vector := true, code := s.code || quantized, list := true))
  }

  ghost predicate Attempt(quantized: bool, s: State, ok: bool, s': State) {
    Loads(quantized, s, ok, s') || (!ok && GetsAnother(s, s')) || Writes(quantized, s, ok, s')
  }

  /** ID 0 can be handed out. */
  predicate ZeroToHave(a: Allocator.State) {
    0 !in a.used && (a.nextId == 0 || a.reuse)
  }

  /** All records are stored, or ID 0 can be had. */
  predicate Possible(quantized: bool, s: State) {
    (s.vector && s.list && (quantized ==> s.code)) || ZeroToHave(s.alloc)
  }

  lemma PossibleSucceeds(quantized: bool, s: State) returns (s': State)
    requires Possible(quantized, s)
    ensures Attempt(quantized, s, true, s')
  {
    if s.vector && s.list && (quantized ==> s.code) {
      s' := s;
    } else {
      var a := s.alloc.(used := s.alloc.used + {0}, nextId := if s.alloc.nextId == 0 then 1 else s.alloc.nextId);
      s' := s.(alloc := a, vector := true, code := s.code || quantized, list := true);
    }
  }

  /** An attempt that cannot succeed leaves the next one no better off. */
  lemma StaysImpossible(quantized: bool, s: State, ok: bool, s': State)
    requires Allocator.WellFormed(s.alloc) && !Possible(quantized, s) && Attempt(quantized, s, ok, s')
    ensures !ok && Allocator.WellFormed(s'.alloc) && !Possible(quantized, s')
  {
  }

  /** Failed attempts, one after the other. */
  ghost predicate Fails(quantized: bool, ss: seq<State>) {
    |ss| > 0 && forall i :: 0 <= i < |ss| - 1 ==> Attempt(quantized, ss[i], false, ss[i + 1])
  }

  lemma {:induction false} FailsImpossible(quantized: bool, ss: seq<State>, n: nat)
    requires Fails(quantized, ss) && n < |ss| && Allocator.WellFormed(ss[0].alloc) && !Possible(quantized, ss[0])
    ensures Allocator.WellFormed(ss[n].alloc) && !Possible(quantized, ss[n])
  {
    hide Attempt, Possible;
    if n > 0 {
      FailsImpossible(quantized, ss, n - 1);
      assert Attempt(quantized, ss[n - 1], false, ss[n]);
      StaysImpossible(quantized, ss[n - 1], false, ss[n]);
    }
  }

  ghost predicate MaySucceed(quantized: bool, s: State) {
    exists s' :: Attempt(quantized, s, true, s')
  }

  /** After the failed attempts `ss`, one from `s` on may succeed. */
  ghost predicate MaySucceedAfter(quantized: bool, s: State, ss: seq<State>) {
    Fails(quantized, ss) && ss[0] == s && MaySucceed(quantized, ss[|ss| - 1])
  }

  ghost predicate CanSucceed(quantized: bool, s: State) {
    exists ss :: MaySucceedAfter(quantized, s, ss)
  }

  /** The start point can still be set if and only if all its records are stored, or ID 0 can be had. */
  lemma CanSucceedIff(quantized: bool, s: State)
    requires Allocator.WellFormed(s.alloc)
    ensures CanSucceed(quantized, s) <==> Possible(quantized, s)
  {
    if Possible(quantized, s) {
      var s' := PossibleSucceeds(quantized, s);
      hide Attempt;
      assert MaySucceedAfter(quantized, s, [s]);
    }
    if CanSucceed(quantized, s) {
      hide Attempt, Possible;
      var ss :| MaySucceedAfter(quantized, s, ss);
      var s' :| Attempt(quantized, ss[|ss| - 1], true, s');
      if !Possible(quantized, s) {
        FailsImpossible(quantized, ss, |ss| - 1);
        StaysImpossible(quantized, ss[|ss| - 1], true, s');
        assert false;
      }
    }
  }

  /** Opening the index again recovers the used IDs and cuts the ID space to them. */
  ghost predicate Restarts(s: State, s': State) {
    && s' == s.(alloc := s.alloc.(nextId := s'.alloc.nextId)) && Allocator.WellFormed(s'.alloc)
    && (s'.alloc.nextId == 0 <==> s.alloc.used == {})
  }

  /** This helps only if no ID is used. */
  lemma RestartIff(quantized: bool, s: State, s': State)
    requires Allocator.WellFormed(s.alloc) && Restarts(s, s')
    ensures Possible(quantized, s') <==> Possible(quantized, s) || s.alloc.used == {}
  {
    if s.alloc.used != {} {
      var id :| id in s.alloc.used;
      assert s.alloc.nextId > 0;
    }
  }

  /** An attempt on a new index that fails on a write after it got ID 0 is final. */
  lemma FailedWriteIsFinal(quantized: bool, s: State, s': State)
    requires s == State(Allocator.State({}, 0, s.alloc.reuse), false, false, false)
    requires Writes(quantized, s, false, s') && !s'.list
    ensures !CanSucceed(quantized, s')
    ensures forall s'' :: Restarts(s', s'') ==> !CanSucceed(quantized, s'')
  {
    CanSucceedIff(quantized, s');
    hide CanSucceed;
    forall s'' | Restarts(s', s'')
      ensures !CanSucceed(quantized, s'')
    {
      RestartIff(quantized, s', s'');
      CanSucceedIff(quantized, s'');
    }
  }

  /** Each of the writes can be the one that fails, and leaves ID 0 used with the records written
      before it. */
  lemma AnyWriteMayFail(quantized: bool, s: State)
    requires ZeroToHave(s.alloc)
    ensures exists s' :: Attempt(quantized, s, false, s') && 0 in s'.alloc.used && s' == s.(alloc := s'.alloc)
    ensures exists s' :: Attempt(quantized, s, false, s') && 0 in s'.alloc.used
                         && s' == s.(alloc := s'.alloc, vector := true)
    ensures quantized ==> exists s' :: Attempt(quantized, s, false, s') && 0 in s'.alloc.used
                                       && s' == s.(alloc := s'.alloc, vector := true, code := true)
  {
    var a := s.alloc.(used := s.alloc.used + {0}, nextId := if s.alloc.nextId == 0 then 1 else s.alloc.nextId);
    assert Allocator.Step(s.alloc, Allocator.Alloc(0), a);
    var s1, s2, s3 := s.(alloc := a), s.(alloc := a, vector := true), s.(alloc := a, vector := true, code := true);
    assert Writes(quantized, s, false, s1) && Writes(quantized, s, false, s2);
    assert quantized ==> Writes(quantized, s, false, s3);
    hide Writes;
    assert Attempt(quantized, s, false, s1) && Attempt(quantized, s, false, s2);
    assert quantized ==> Attempt(quantized, s, false, s3);
  }

  /** An attempt that gets another ID than 0 gives it back, so that the used IDs stay as they were and
      only the ID space has grown; if that fails, the ID stays used. */
  lemma AnotherGivenBack(quantized: bool, s: State)
    requires Allocator.WellFormed(s.alloc) && s.alloc.nextId > 0
    ensures exists s' :: Attempt(quantized, s, false, s') && s' == s.(alloc := s.alloc.(nextId := s.alloc.nextId + 1))
    ensures exists s' :: Attempt(quantized, s, false, s') && s.alloc.nextId in s'.alloc.used
  {
    var id := s.alloc.nextId;
    var a := s.alloc.(used := s.alloc.used + {id}, nextId := id + 1);
    assert Allocator.Step(s.alloc, Allocator.Alloc(id), a);
    var s' := s.(alloc := a.(used := a.used - {id}));
    assert a.used - {id} == s.alloc.used;
    assert GetsAnother(s, s') && GetsAnother(s, s.(alloc := a));
    hide GetsAnother;
    assert Attempt(quantized, s, false, s') && Attempt(quantized, s, false, s.(alloc := a));
  }
}
