/** Why a call of `next_id` mints a new ID, and when it refills again, in every interleaving. */
module MintCauses {
  import opened Collections
  import opened ConcurrentFsm
  import opened RefillWindows
  import Allocator

  /** There is cause for the call to mint: no reuse, a flag that is down, a refill of its own that
      found nothing, or a list that others have emptied since it was seen to have IDs. */
  predicate Cause(s: State, t: Tid) {
    && t in s.threads
    && match s.threads[t]
       case LoadReuse => !s.reuse
       case LoadFlag => !s.hasFree
       case RefillDone(found) => !found
       case PopAgain => s.list == []
       case _ => false
  }

  /** At `j` there was cause, and the call has gone on up to `i`. */
  ghost predicate CausedAt(ss: seq<State>, t: Tid, j: nat, i: nat) {
    j < i < |ss| && Cause(ss[j], t) && forall m :: j <= m <= i ==> t in ss[m].threads
  }

  /** On the way to a mint, with no more search to come. */
  predicate GivesUp(pc: Pc) {
    pc.Minting? || pc == RefillUnlock(false)
  }

  lemma LookGivesUp(s: State, t: Tid, s': State)
    requires t in s.threads && t in s'.threads && GivesUp(s'.threads[t])
    requires LookStep(s, t, s') || RefillStep(s, t, s')
    ensures GivesUp(s.threads[t]) || Cause(s, t)
  {
  }

  lemma ScanGivesUp(s: State, t: Tid, s': State)
    requires t in s.threads && t in s'.threads && GivesUp(s'.threads[t])
    requires ScanStep(s, t, s') || PublishStep(s, t, s')
    ensures Cause(s, t)
  {
    hide FreeOfBlock;
  }

  lemma TakesAfterwards(s: State, t: Tid, e: Allocator.Event, s': State)
    requires t in s.threads && t in s'.threads
    requires TakeStep(s, t, e, s') || MintStep(s, t, e, s') || ClearStep(s, t, e, s')
    ensures !GivesUp(s'.threads[t])
  {
    hide Outside;
  }

  lemma StepGivesUp(s: State, t: Tid, e: Allocator.Event, s': State)
    requires t in s.threads && ThreadStep(s, t, e, s') && t in s'.threads && GivesUp(s'.threads[t])
    ensures GivesUp(s.threads[t]) || Cause(s, t)
  {
    hide LookStep, RefillStep, ScanStep, TakeStep, MintStep, ClearStep, PublishStep, GivesUp, Cause;
    if TakeStep(s, t, e, s') || MintStep(s, t, e, s') || ClearStep(s, t, e, s') {
      TakesAfterwards(s, t, e, s');
    } else if LookStep(s, t, s') || RefillStep(s, t, s') {
      LookGivesUp(s, t, s');
    } else {
      ScanGivesUp(s, t, s');
    }
  }

  lemma {:induction false} GivesUpForCause(ss: seq<State>, es: seq<Allocator.Event>, t: Tid, i: nat)
    requires Run(ss, es) && i < |ss| && t in ss[i].threads && GivesUp(ss[i].threads[t])
    ensures exists j :: CausedAt(ss, t, j, i)
  {
    hide Step, ThreadStep, Cause;
    if i == 0 {
      assert false;
    } else {
      assert Step(ss[i - 1], es[i - 1], ss[i]);
      if t !in ss[i - 1].threads {
        Started(ss[i - 1], es[i - 1], ss[i], t);
        assert false;
      } else {
        Moved(ss[i - 1], es[i - 1], ss[i], t);
        if ss[i - 1].threads[t] != ss[i].threads[t] {
          StepGivesUp(ss[i - 1], t, es[i - 1], ss[i]);
        }
        hide GivesUp;
        if GivesUp(ss[i - 1].threads[t]) {
          GivesUpForCause(ss, es, t, i - 1);
          var j :| CausedAt(ss, t, j, i - 1);
          assert CausedAt(ss, t, j, i);
        } else {
          assert CausedAt(ss, t, i - 1, i);
        }
      }
    }
  }

  /** In every interleaving a call comes to mint only if, during it, reuse was off, the flag was
      down, its own refill found nothing, or the list was empty after a refill. */
  lemma MintsForCause(ss: seq<State>, es: seq<Allocator.Event>, t: Tid, i: nat)
    requires Run(ss, es) && i < |ss| && t in ss[i].threads && ss[i].threads[t].Minting?
    ensures exists j :: CausedAt(ss, t, j, i)
  {
    hide Run, CausedAt;
    GivesUpForCause(ss, es, t, i);
  }

  // ---- Refills of one call ----

  /** From the refill on, without an ID off the list. */
  predicate PastList(pc: Pc) {
    Refilling(pc) || pc.PopAgain? || pc.Minting? || pc.CountUp?
  }

  lemma LookPastList(s: State, t: Tid, s': State)
    requires t in s.threads && PastList(s.threads[t]) && (LookStep(s, t, s') || RefillStep(s, t, s'))
    ensures t in s'.threads ==> PastList(s'.threads[t]) || s'.threads[t].Check?
  {
  }

  lemma OthersPastList(s: State, t: Tid, e: Allocator.Event, s': State)
    requires t in s.threads && PastList(s.threads[t])
    requires ScanStep(s, t, s') || PublishStep(s, t, s') || TakeStep(s, t, e, s') || MintStep(s, t, e, s')
             || ClearStep(s, t, e, s')
    ensures t in s'.threads ==> PastList(s'.threads[t])
  {
    hide FreeOfBlock, Outside;
  }

  /** In every interleaving, a call that has begun a refill comes to the list again at most once,
      after the refill, unless the ID it then gets is stale: until it takes an ID off the list it
      does not begin another refill, and does not look at the list as if there had been none. */
  lemma {:induction false} OneRefillPerPop(ss: seq<State>, es: seq<Allocator.Event>, t: Tid, i: nat, j: nat)
    requires Run(ss, es) && i <= j < |ss| && t in ss[i].threads && PastList(ss[i].threads[t])
    requires forall m :: i <= m <= j ==> t in ss[m].threads && !ss[m].threads[t].Check?
    ensures PastList(ss[j].threads[t]) && !ss[j].threads[t].RefillLock? && !ss[j].threads[t].Pop?
  {
    hide Step, PastList;
    if i < j {
      OneRefillPerPop(ss, es, t, i, j - 1);
      assert Step(ss[j - 1], es[j - 1], ss[j]);
      Moved(ss[j - 1], es[j - 1], ss[j], t);
      hide LookStep, RefillStep, ScanStep, TakeStep, MintStep, ClearStep, PublishStep;
      if ss[j - 1].threads[t] != ss[j].threads[t] {
        if LookStep(ss[j - 1], t, ss[j]) || RefillStep(ss[j - 1], t, ss[j]) {
          LookPastList(ss[j - 1], t, ss[j]);
        } else {
          OthersPastList(ss[j - 1], t, es[j - 1], ss[j]);
        }
      }
    }
    NotAtList(ss[j].threads[t]);
  }

  lemma NotAtList(pc: Pc)
    ensures PastList(pc) ==> !pc.RefillLock? && !pc.Pop?
  {
  }

  // ---- A refill that found something ----

  /** The refill has seen a free ID and raised the flag for it. */
  predicate Found(pc: Pc) {
    (pc.RefillRead? && pc.found) || pc.RefillPush? || (pc.RefillDone? && pc.found)
  }

  ghost predicate FoundIsUp(s: State) {
    forall t :: t in s.threads && Found(s.threads[t]) ==> s.hasFree
  }

  lemma ScanFoundIsUp(s: State, t: Tid, s': State)
    requires ThreadsOk(s) && FoundIsUp(s) && t in s.threads && ScanStep(s, t, s')
    ensures FoundIsUp(s')
  {
    assert PcOk(s, t, s.threads[t]);
    ScanStepMoves(s, t, s');
    hide FreeOfBlock;
    forall u | u in s'.threads && Found(s'.threads[u])
      ensures s'.hasFree
    {
      if u != t {
        assert PcOk(s, u, s.threads[u]);
      }
    }
  }

  lemma MoveFound(s: State, t: Tid, s': State)
    requires FoundIsUp(s) && OnlyMoved(s.threads, s'.threads, t) && (s.hasFree ==> s'.hasFree)
    requires t in s'.threads ==> !Found(s'.threads[t])
    ensures FoundIsUp(s')
  {
  }

  // No other step comes to such a point, or lowers the flag.

  lemma LookFoundIsUp(s: State, t: Tid, s': State)
    requires FoundIsUp(s) && t in s.threads && LookStep(s, t, s')
    ensures FoundIsUp(s')
  {
    LookMoves(s, t, s');
    hide FoundIsUp;
    MoveFound(s, t, s');
  }

  lemma RefillFoundIsUp(s: State, t: Tid, s': State)
    requires FoundIsUp(s) && t in s.threads && RefillStep(s, t, s')
    ensures FoundIsUp(s')
  {
    RefillMoves(s, t, s');
    hide FoundIsUp;
    MoveFound(s, t, s');
  }

  lemma PublishFoundIsUp(s: State, t: Tid, s': State)
    requires FoundIsUp(s) && t in s.threads && PublishStep(s, t, s')
    ensures FoundIsUp(s')
  {
    PublishMoves(s, t, s');
    hide FoundIsUp;
    MoveFound(s, t, s');
  }

  lemma CallFoundIsUp(s: State, t: Tid, e: Allocator.Event, s': State)
    requires FoundIsUp(s) && t in s.threads
    requires TakeStep(s, t, e, s') || MintStep(s, t, e, s') || ClearStep(s, t, e, s')
    ensures FoundIsUp(s')
  {
    hide FoundIsUp, Outside;
    MoveFound(s, t, s');
  }

  lemma StepFoundIsUp(s: State, e: Allocator.Event, s': State)
    requires Inv(s) && FoundIsUp(s) && Step(s, e, s')
    ensures FoundIsUp(s')
  {
    assert ThreadsOk(s);
    hide LookStep, RefillStep, ScanStep, TakeStep, MintStep, ClearStep, PublishStep, Inv, ThreadsOk;
    if t :| t in s.threads && ThreadStep(s, t, e, s') {
      hide FoundIsUp;
      if ScanStep(s, t, s') {
        ScanFoundIsUp(s, t, s');
      } else if LookStep(s, t, s') {
        LookFoundIsUp(s, t, s');
      } else if RefillStep(s, t, s') {
        RefillFoundIsUp(s, t, s');
      } else if PublishStep(s, t, s') {
        PublishFoundIsUp(s, t, s');
      } else {
        CallFoundIsUp(s, t, e, s');
      }
    }
  }

  /** In every interleaving the flag is up while a refill that found a free ID goes on, even if it was
      lowered before. */
  lemma {:induction false} RefillRaisesFlag(ss: seq<State>, es: seq<Allocator.Event>, i: nat)
    requires Run(ss, es) && i < |ss|
    ensures FoundIsUp(ss[i])
  {
    hide Step;
    if i > 0 {
      RefillRaisesFlag(ss, es, i - 1);
      RunKeepsInv(ss, es, i - 1);
      assert Step(ss[i - 1], es[i - 1], ss[i]);
      StepFoundIsUp(ss[i - 1], es[i - 1], ss[i]);
    }
  }
}
