/**
 In the sequential map a lowered `has_free_ids` flag means that every ID is used. Under
 concurrency this can fail. The schedules in which it does are those in which an ID that came to be
 free after a refill read its bounds, or that lay in a block this refill does not reach, is still
 free when the refill lowers the flag, or in which a mint loses its ID while the flag is down.
 */
module FlagRace {
  import opened ConcurrentFsm
  import opened Collections
  import opened RefillWindows
  import Allocator

  /** Some thread has cleared a bit and is still to raise the flag. */
  ghost predicate Raising(s: State) {
    exists t :: t in s.threads && Raises(s.threads[t])
  }

  predicate Raises(pc: Pc) {
    pc.CountDown? || pc.FreePush? || pc.FreeFlag?
  }

  /** The flag is up, or is about to go up, or nothing is free. */
  ghost predicate Honest(s: State) {
    s.hasFree || Raising(s) || AllUsed(s)
  }

  /** Thread `t` is a refill that found nothing and now lowers the flag. */
  ghost predicate Lowers(s: State, t: Tid, s': State) {
    t in s.threads && s.threads[t] == RefillDone(false) && ScanStep(s, t, s')
  }

  lemma RaisingStays(s: State, t: Tid, s': State)
    requires OnlyMoved(s.threads, s'.threads, t) && Raising(s)
    requires t in s.threads && Raises(s.threads[t]) ==> t in s'.threads && Raises(s'.threads[t])
    ensures Raising(s')
  {
    var u :| u in s.threads && Raises(s.threads[u]);
    if u == t {
      assert Raises(s'.threads[t]);
    } else {
      assert Raises(s'.threads[u]);
    }
  }

  lemma OneRaises(s: State, t: Tid)
    requires t in s.threads && Raises(s.threads[t])
    ensures Raising(s)
  {
  }

  lemma HonestUnchanged(s: State, t: Tid, s': State)
    requires Honest(s) && OnlyMoved(s.threads, s'.threads, t)
    requires (s.hasFree ==> s'.hasFree) && (AllUsed(s) ==> AllUsed(s'))
    requires t in s.threads && Raises(s.threads[t]) ==> t in s'.threads && Raises(s'.threads[t])
    ensures Honest(s')
  {
    hide Raising, AllUsed;
    if Raising(s) {
      RaisingStays(s, t, s');
    }
  }

  lemma LookHonest(s: State, t: Tid, s': State)
    requires Honest(s) && t in s.threads && LookStep(s, t, s')
    ensures Honest(s')
  {
    hide Honest;
    HonestUnchanged(s, t, s');
  }

  lemma RefillHonest(s: State, t: Tid, s': State)
    requires Honest(s) && t in s.threads && RefillStep(s, t, s')
    ensures Honest(s')
  {
    hide Honest;
    HonestUnchanged(s, t, s');
  }

  lemma ScanHonest(s: State, t: Tid, s': State)
    requires Honest(s) && t in s.threads && ScanStep(s, t, s') && !Lowers(s, t, s')
    ensures Honest(s')
  {
    hide Honest, FreeOfBlock;
    HonestUnchanged(s, t, s');
  }

  lemma TakeHonest(s: State, t: Tid, e: Allocator.Event, s': State)
    requires Honest(s) && t in s.threads && TakeStep(s, t, e, s')
    ensures Honest(s')
  {
    hide Honest;
    HonestUnchanged(s, t, s');
  }

  lemma MintHonest(s: State, t: Tid, e: Allocator.Event, s': State)
    requires BlocksOk(s) && Honest(s) && t in s.threads && e != Allocator.Lost && MintStep(s, t, e, s')
    ensures Honest(s')
  {
    NothingWiped(s);
    hide Honest, Outside, BlocksOk;
    HonestUnchanged(s, t, s');
  }

  lemma FreeHonest(s: State, t: Tid, e: Allocator.Event, s': State)
    requires Honest(s) && t in s.threads && (ClearStep(s, t, e, s') || PublishStep(s, t, s'))
    ensures Honest(s')
  {
    hide Raising;
    if t in s'.threads && Raises(s'.threads[t]) {
      OneRaises(s', t);
    } else if !s'.hasFree {
      HonestUnchanged(s, t, s');
    }
  }

  /** Every step keeps the flag honest, except that a mint may be lost to a failed write and that
      a refill may lower it. */
  lemma HonestKept(s: State, t: Tid, e: Allocator.Event, s': State)
    requires Inv(s) && Honest(s) && t in s.threads && ThreadStep(s, t, e, s')
    requires e != Allocator.Lost && !Lowers(s, t, s')
    ensures Honest(s')
  {
    assert BlocksOk(s);
    hide Honest, Inv, Lowers, LookStep, RefillStep, ScanStep, TakeStep, MintStep, ClearStep, PublishStep;
    if LookStep(s, t, s') {
      LookHonest(s, t, s');
    } else if RefillStep(s, t, s') {
      RefillHonest(s, t, s');
    } else if ScanStep(s, t, s') {
      ScanHonest(s, t, s');
    } else if TakeStep(s, t, e, s') {
      TakeHonest(s, t, e, s');
    } else if MintStep(s, t, e, s') {
      MintHonest(s, t, e, s');
    } else {
      FreeHonest(s, t, e, s');
    }
  }

  /** A lowered flag is honest only if nothing is free or some free is still to raise it. */
  lemma Lowered(s: State, t: Tid, s': State)
    requires Lowers(s, t, s')
    ensures Honest(s') <==> AllUsed(s) || Raising(s)
  {
    assert OnlyMoved(s.threads, s'.threads, t) && OnlyMoved(s'.threads, s.threads, t);
    hide Raises, AllUsed;
    assert !Raises(s.threads[t]) && !Raises(s'.threads[t]) by { RefillDoesNotRaise(s, t, s'); }
    hide Raising;
    if Raising(s) {
      RaisingStays(s, t, s');
    }
    if Raising(s') {
      RaisingStays(s', t, s);
    }
    assert AllUsed(s) <==> AllUsed(s') by { SameBits(s, s'); }
  }

  /** A mint that is lost leaves its ID free without raising the flag. */
  lemma LostHonest(s: State, s': State)
    requires Inv(s) && Step(s, Allocator.Lost, s')
    ensures Honest(s') <==> s.hasFree || Raising(s)
  {
    hide LookStep, RefillStep, ScanStep, TakeStep, ClearStep, PublishStep, MintStep;
    assert BlocksOk(s);
    var t :| t in s.threads && ThreadStep(s, t, Allocator.Lost, s');
    OnlyMintsLose(s, t, s');
    LostMint(s, t, s');
    hide Raises;
    if Raising(s) {
      RaisingStays(s, t, s');
    }
    if Raising(s') {
      RaisingStays(s', t, s);
    }
    assert s.nextId !in s'.used;
  }

  lemma OnlyMintsLose(s: State, t: Tid, s': State)
    requires t in s.threads && ThreadStep(s, t, Allocator.Lost, s')
    ensures MintStep(s, t, Allocator.Lost, s')
  {
    hide MintStep;
  }

  lemma LostMint(s: State, t: Tid, s': State)
    requires BlocksOk(s) && t in s.threads && MintStep(s, t, Allocator.Lost, s')
    ensures s'.used == s.used && s'.nextId == s.nextId + 1 && s'.hasFree == s.hasFree && s.nextId !in s.used
    ensures OnlyMoved(s.threads, s'.threads, t) && OnlyMoved(s'.threads, s.threads, t)
    ensures t !in s'.threads && !Raises(s.threads[t])
  {
    NothingWiped(s);
    hide Outside;
  }

  lemma StepHonest(s: State, e: Allocator.Event, s': State)
    requires Inv(s) && Honest(s) && Step(s, e, s')
    requires (e == Allocator.Lost ==> Honest(s')) && forall t :: Lowers(s, t, s') ==> Honest(s')
    ensures Honest(s')
  {
    hide Inv, Lowers, ThreadStep;
    if e == Allocator.Lost {
    } else if t :| t in s.threads && ThreadStep(s, t, e, s') {
      if !Lowers(s, t, s') {
        HonestKept(s, t, e, s');
      }
    } else if t, pc :| e == Allocator.Quiet && Start(s, t, pc, s') {
      HonestUnchanged(s, t, s');
    } else {
      assert Raising(s) <==> Raising(s');
    }
  }

  lemma RefillDoesNotRaise(s: State, t: Tid, s': State)
    requires Lowers(s, t, s')
    ensures t in s'.threads && !Raises(s.threads[t]) && !Raises(s'.threads[t])
  {
  }

  lemma SameBits(s: State, s': State)
    requires s'.used == s.used && s'.nextId == s.nextId
    ensures AllUsed(s) <==> AllUsed(s')
  {
  }

  // ---- In terms of the schedule ----

  /** The free that thread `u` did at `k` has not raised the flag up to `b`. */
  ghost predicate StillRaising(ss: seq<State>, u: Tid, k: nat, b: nat) {
    && k < b < |ss| && u in ss[k].threads && ss[k].threads[u].MarkFree?
    && forall j :: k < j <= b ==> u in ss[j].threads && Raises(ss[j].threads[u])
  }

  /** Some bit was cleared before `b` whose `mark_free` has still to raise the flag then. */
  ghost predicate RaiseToCome(ss: seq<State>, es: seq<Allocator.Event>, b: nat)
    requires b <= |es|
  {
    exists u, k :: 0 <= k < b && es[k].Freed? && StillRaising(ss, u, k, b)
  }

  /** What may happen while a refill that finds nothing is under way from `a` to `b`: whatever comes
      to be free or is out of its reach is taken, or some free has still to raise the flag. */
  ghost predicate Harmless(ss: seq<State>, es: seq<Allocator.Event>, a: nat, b: nat)
    requires b <= |es| <= |ss|
  {
    FreesTaken(ss, es, a, b) || RaiseToCome(ss, es, b)
  }

  /** Only clearing a bit makes a thread one that is to raise the flag. */
  lemma BecomesRaising(s: State, t: Tid, e: Allocator.Event, s': State)
    requires t in s.threads && ThreadStep(s, t, e, s')
    requires t in s'.threads && Raises(s'.threads[t]) && !Raises(s.threads[t])
    ensures s.threads[t].MarkFree? && e.Freed?
  {
    hide LookStep, RefillStep, ScanStep;
    if LookStep(s, t, s') || RefillStep(s, t, s') || ScanStep(s, t, s') {
      NextIdDoesNotRaise(s, t, s');
    }
    hide Outside;
  }

  lemma NextIdDoesNotRaise(s: State, t: Tid, s': State)
    requires t in s.threads && (LookStep(s, t, s') || RefillStep(s, t, s') || ScanStep(s, t, s'))
    ensures t in s'.threads ==> !Raises(s'.threads[t])
  {
    hide ScanStep;
    if ScanStep(s, t, s') {
      ScanDoesNotRaise(s, t, s');
    }
  }

  lemma ScanDoesNotRaise(s: State, t: Tid, s': State)
    requires t in s.threads && ScanStep(s, t, s')
    ensures t in s'.threads ==> !Raises(s'.threads[t])
  {
    hide FreeOfBlock;
  }

  lemma {:induction false} RaisingSince(ss: seq<State>, es: seq<Allocator.Event>, u: Tid, b: nat)
    requires Run(ss, es) && b < |ss| && u in ss[b].threads && Raises(ss[b].threads[u])
    ensures exists k :: 0 <= k < b && es[k].Freed? && StillRaising(ss, u, k, b)
  {
    hide Step, ThreadStep, Raises;
    if b == 0 {
      assert false;
    } else {
      assert Step(ss[b - 1], es[b - 1], ss[b]);
      if u !in ss[b - 1].threads {
        Started(ss[b - 1], es[b - 1], ss[b], u);
        StartDoesNotRaise(ss[b].threads[u]);
        assert false;
      } else if Raises(ss[b - 1].threads[u]) {
        RaisingSince(ss, es, u, b - 1);
        var k :| 0 <= k < b - 1 && es[k].Freed? && StillRaising(ss, u, k, b - 1);
        assert StillRaising(ss, u, k, b);
      } else {
        Moved(ss[b - 1], es[b - 1], ss[b], u);
        BecomesRaising(ss[b - 1], u, es[b - 1], ss[b]);
        assert StillRaising(ss, u, b - 1, b);
      }
    }
  }

  lemma StartDoesNotRaise(pc: Pc)
    requires pc == LoadReuse || pc.FreeCheck?
    ensures !Raises(pc)
  {
  }

  lemma RaisingIff(ss: seq<State>, es: seq<Allocator.Event>, b: nat)
    requires Run(ss, es) && b < |ss|
    ensures Raising(ss[b]) <==> RaiseToCome(ss, es, b)
  {
    hide Raises, Step;
    if Raising(ss[b]) {
      var u :| u in ss[b].threads && Raises(ss[b].threads[u]);
      RaisingSince(ss, es, u, b);
    }
    if RaiseToCome(ss, es, b) {
      var u, k :| 0 <= k < b && es[k].Freed? && StillRaising(ss, u, k, b);
      OneRaises(ss[b], u);
    }
  }

  /** A refill that lowers the flag is at the end of its window. */
  lemma WindowLowers(ss: seq<State>, es: seq<Allocator.Event>, t: Tid, a: nat, b: nat)
    requires Run(ss, es) && Window(ss, t, a, b)
    ensures Lowers(ss[b], t, ss[b + 1])
  {
    assert Step(ss[b], es[b], ss[b + 1]);
    hide Run, Step, Scanning, FreeOfBlock, Outside;
    Moved(ss[b], es[b], ss[b + 1], t);
  }

  lemma LowersWindow(ss: seq<State>, es: seq<Allocator.Event>, t: Tid, b: nat)
    requires Run(ss, es) && b < |es| && Lowers(ss[b], t, ss[b + 1])
    ensures exists a :: Window(ss, t, a, b)
  {
    hide Step;
    ScanBegan(ss, es, t, b);
    var a :| ScansFrom(ss, t, a, b);
    assert Window(ss, t, a, b);
  }

  /** A refill that read its bounds at `a`, found nothing and lowers the flag at `b` leaves it
      honest if and only if whatever came to be free in between, and whatever was out of its reach,
      has been taken, or some free has still to raise the flag. */
  lemma LoweredHonestIff(ss: seq<State>, es: seq<Allocator.Event>, t: Tid, a: nat, b: nat)
    requires Run(ss, es) && Window(ss, t, a, b)
    ensures Honest(ss[b + 1]) <==> Harmless(ss, es, a, b)
  {
    WindowLowers(ss, es, t, a, b);
    hide Run, Honest, Lowers, AllUsed, Raising, FreesTaken, RaiseToCome;
    Lowered(ss[b], t, ss[b + 1]);
    AllUsedIff(ss, es, t, a, b);
    RaisingIff(ss, es, b);
  }

  ghost predicate AllHarmless(ss: seq<State>, es: seq<Allocator.Event>, n: nat)
    requires n <= |es| <= |ss|
  {
    forall t: Tid, a: nat, b: nat :: b < n && Window(ss, t, a, b) ==> Harmless(ss, es, a, b)
  }

  /** The mint at `k` is not lost, or the flag is up or about to go up anyway. */
  ghost predicate Announced(ss: seq<State>, es: seq<Allocator.Event>, k: nat)
    requires k < |es| <= |ss|
  {
    es[k] == Allocator.Lost ==> ss[k].hasFree || RaiseToCome(ss, es, k)
  }

  lemma AnnouncedIff(ss: seq<State>, es: seq<Allocator.Event>, k: nat)
    requires Run(ss, es) && k < |es| && es[k] == Allocator.Lost
    ensures Honest(ss[k + 1]) <==> Announced(ss, es, k)
  {
    assert Step(ss[k], es[k], ss[k + 1]);
    RunKeepsInv(ss, es, k);
    RaisingIff(ss, es, k);
    hide Run, Step, Inv, Honest, Raising, RaiseToCome;
    LostHonest(ss[k], ss[k + 1]);
  }

  ghost predicate AllAnnounced(ss: seq<State>, es: seq<Allocator.Event>, n: nat)
    requires n <= |es| <= |ss|
  {
    forall k :: 0 <= k < n ==> Announced(ss, es, k)
  }

  lemma {:induction false} HonestRun(ss: seq<State>, es: seq<Allocator.Event>, n: nat, i: nat)
    requires Run(ss, es) && Honest(ss[0]) && i <= n < |ss|
    requires AllAnnounced(ss, es, n) && AllHarmless(ss, es, n)
    ensures Honest(ss[i])
  {
    hide Step, Lowers, Honest, Harmless, Window, Announced, Inv;
    if i > 0 {
      HonestRun(ss, es, n, i - 1);
      RunKeepsInv(ss, es, i - 1);
      var s, s' := ss[i - 1], ss[i];
      assert Step(s, es[i - 1], s');
      if es[i - 1] == Allocator.Lost {
        AnnouncedIff(ss, es, i - 1);
      }
      forall t | Lowers(s, t, s')
        ensures Honest(s')
      {
        LowersWindow(ss, es, t, i - 1);
        var a :| Window(ss, t, a, i - 1);
        LoweredHonestIff(ss, es, t, a, i - 1);
      }
      StepHonest(s, es[i - 1], s');
    }
  }

  /** The flag is honest throughout a run if and only if every refill that finds nothing runs while
      whatever comes to be free is taken or has still to raise the flag, and every mint that is lost
      is lost while the flag is up or about to go up. */
  lemma HonestRunIff(ss: seq<State>, es: seq<Allocator.Event>, n: nat)
    requires Run(ss, es) && Honest(ss[0]) && n < |ss|
    ensures (forall i :: 0 <= i <= n ==> Honest(ss[i])) <==> AllAnnounced(ss, es, n) && AllHarmless(ss, es, n)
  {
    assert |ss| == |es| + 1;
    hide Run, Honest, Harmless, Window, Announced;
    if AllAnnounced(ss, es, n) && AllHarmless(ss, es, n) {
      forall i | 0 <= i <= n
        ensures Honest(ss[i])
      {
        HonestRun(ss, es, n, i);
      }
    }
    if forall i :: 0 <= i <= n ==> Honest(ss[i]) {
      forall t: Tid, a: nat, b: nat | b < n && Window(ss, t, a, b)
        ensures Harmless(ss, es, a, b)
      {
        assert Honest(ss[b + 1]);
        LoweredHonestIff(ss, es, t, a, b);
      }
      forall k | 0 <= k < n
        ensures Announced(ss, es, k)
      {
        assert Honest(ss[k + 1]);
        NotLost(ss, es, k);
      }
    }
  }

  lemma NotLost(ss: seq<State>, es: seq<Allocator.Event>, k: nat)
    requires Run(ss, es) && k < |es| && Honest(ss[k + 1])
    ensures Announced(ss, es, k)
  {
    hide Run, Honest;
    if es[k] == Allocator.Lost {
      AnnouncedIff(ss, es, k);
    }
  }

  /** With no call running, a lowered flag of such a run means that every ID is used. */
  lemma LoweredMeansUsed(ss: seq<State>, es: seq<Allocator.Event>, n: nat)
    requires Run(ss, es) && Honest(ss[0]) && n < |ss| && AllAnnounced(ss, es, n) && AllHarmless(ss, es, n)
    requires ss[n].threads == map[] && !ss[n].hasFree
    ensures AllUsed(ss[n])
  {
    hide Run, AllHarmless, AllAnnounced, AllUsed;
    HonestRun(ss, es, n, n);
  }
}
