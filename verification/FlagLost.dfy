/** A run in which a refill lowers the flag that a free has just raised. */
module FlagLost {
  import opened ConcurrentFsm
  import opened Collections
  import Allocator
  import Blocks

  // ---- Schedules put together step by step ----

  ghost predicate Reaches(s: State) {
    exists ss, es :: Run(ss, es) && ss[|es|] == s
  }

  lemma StartReaches(s: State)
    requires Init(s)
    ensures Reaches(s)
  {
    var es: seq<Allocator.Event> := [];
    assert Run([s], es) && [s][|es|] == s;
  }

  lemma ReachesNext(s: State, e: Allocator.Event, s': State)
    requires Reaches(s) && Step(s, e, s')
    ensures Reaches(s')
  {
    hide Step, Init;
    var ss, es :| Run(ss, es) && ss[|es|] == s;
    assert Run(ss + [s'], es + [e]);
    assert (ss + [s'])[|es + [e]|] == s';
  }

  // One step of a running call each.

  lemma Looks(s: State, t: Tid, s': State)
    requires Reaches(s) && t in s.threads && LookStep(s, t, s')
    ensures Reaches(s')
  {
    hide Reaches, LookStep;
    assert ThreadStep(s, t, Allocator.Quiet, s');
    ReachesNext(s, Allocator.Quiet, s');
  }

  lemma Refills(s: State, t: Tid, s': State)
    requires Reaches(s) && t in s.threads && RefillStep(s, t, s')
    ensures Reaches(s')
  {
    hide Reaches, RefillStep;
    assert ThreadStep(s, t, Allocator.Quiet, s');
    ReachesNext(s, Allocator.Quiet, s');
  }

  lemma Scans(s: State, t: Tid, s': State)
    requires Reaches(s) && t in s.threads && ScanStep(s, t, s')
    ensures Reaches(s')
  {
    hide Reaches, ScanStep;
    assert ThreadStep(s, t, Allocator.Quiet, s');
    ReachesNext(s, Allocator.Quiet, s');
  }

  lemma Publishes(s: State, t: Tid, s': State)
    requires Reaches(s) && t in s.threads && PublishStep(s, t, s')
    ensures Reaches(s')
  {
    hide Reaches, PublishStep;
    assert ThreadStep(s, t, Allocator.Quiet, s');
    ReachesNext(s, Allocator.Quiet, s');
  }

  lemma Takes(s: State, t: Tid, e: Allocator.Event, s': State)
    requires Reaches(s) && t in s.threads && TakeStep(s, t, e, s')
    ensures Reaches(s')
  {
    hide Reaches, TakeStep;
    assert ThreadStep(s, t, e, s');
    ReachesNext(s, e, s');
  }

  lemma Clears(s: State, t: Tid, e: Allocator.Event, s': State)
    requires Reaches(s) && t in s.threads && ClearStep(s, t, e, s')
    ensures Reaches(s')
  {
    hide Reaches, ClearStep;
    assert ThreadStep(s, t, e, s');
    ReachesNext(s, e, s');
  }

  lemma Starts(s: State, t: Tid, pc: Pc)
    requires Reaches(s) && t !in s.threads && (pc == LoadReuse || pc.FreeCheck?)
    ensures Reaches(At(s, t, pc))
  {
    hide Reaches;
    assert Start(s, t, pc, At(s, t, pc));
    ReachesNext(s, Allocator.Quiet, At(s, t, pc));
  }

  /** Thread `t`, about to mint, does so and returns. */
  lemma Mints(s: State, t: Tid)
    requires Reaches(s) && t in s.threads && s.threads[t].Minting? && s.nextId / Blocks.BLOCK_IDS <= s.maxBlock
    ensures Reaches(Return(s.(used := s.used + {s.nextId}, nextId := s.nextId + 1, total := s.total + 1), t))
  {
    hide Reaches;
    var s1 := At(s.(used := s.used + {s.nextId}, nextId := s.nextId + 1), t, CountUp(s.nextId));
    assert ThreadStep(s, t, Allocator.Alloc(s.nextId), s1) by { assert MintStep(s, t, Allocator.Alloc(s.nextId), s1); }
    ReachesNext(s, Allocator.Alloc(s.nextId), s1);
    var s2 := Return(s1.(total := s1.total + 1), t);
    Takes(s1, t, Allocator.Quiet, s2);
    assert s2.threads == s.threads - {t};
  }

  /** Thread `t` frees a used ID without being interrupted. */
  lemma Frees(s: State, t: Tid, id: nat)
    requires Reaches(s) && t !in s.threads && id in s.used && id < s.nextId && |s.list| < Allocator.FAST_SIZE
    ensures Reaches(s.(used := s.used - {id}, list := s.list + [id], hasFree := true, total := s.total - 1))
  {
    hide Reaches, ThreadStep;
    Starts(s, t, FreeCheck(id));
    var s1 := At(s, t, FreeCheck(id));
    var s2 := At(s1, t, MarkFree(id));
    Clears(s1, t, Allocator.Quiet, s2);
    var s3 := At(s2.(used := s2.used - {id}), t, CountDown(id));
    Clears(s2, t, Allocator.Freed(id), s3);
    FreesPublish(s3, t, id);
    assert s3.threads - {t} == s.threads;
  }

  lemma FreesPublish(s: State, t: Tid, id: nat)
    requires Reaches(s) && t in s.threads && s.threads[t] == CountDown(id) && |s.list| < Allocator.FAST_SIZE
    ensures Reaches(Return(s.(list := s.list + [id], hasFree := true, total := s.total - 1), t))
  {
    hide Reaches, ThreadStep;
    var s1 := At(s.(total := s.total - 1), t, FreePush(id));
    Publishes(s, t, s1);
    var s2 := At(s1.(list := s1.list + [id]), t, FreeFlag);
    Publishes(s1, t, s2);
    var s3 := Return(s2.(hasFree := true), t);
    Publishes(s2, t, s3);
    assert s3.threads == s.threads - {t};
  }

  /** Thread `t` takes the only listed ID again without being interrupted. */
  lemma Reuses(s: State, t: Tid, id: nat)
    requires Reaches(s) && t !in s.threads && s.reuse && s.hasFree
    requires s.list == [id] && id !in s.used && id < s.nextId
    ensures Reaches(s.(used := s.used + {id}, list := [], total := s.total + 1))
  {
    hide Reaches, ThreadStep;
    GetsToPop(s, t);
    var s2 := At(s, t, Pop);
    var s3 := At(s2.(list := s2.list[1..]), t, Check(id));
    Looks(s2, t, s3);
    var s4 := At(s3, t, MarkUsed(id));
    Looks(s3, t, s4);
    ReusesMark(s4, t, id);
    assert s4.threads - {t} == s.threads;
    assert s2.list[1..] == [];
  }

  lemma ReusesMark(s: State, t: Tid, id: nat)
    requires Reaches(s) && t in s.threads && s.threads[t] == MarkUsed(id) && id !in s.used
    ensures Reaches(Return(s.(used := s.used + {id}, total := s.total + 1), t))
  {
    hide Reaches, ThreadStep;
    var s1 := At(s.(used := s.used + {id}), t, CountUp(id));
    Takes(s, t, Allocator.Alloc(id), s1);
    var s2 := Return(s1.(total := s1.total + 1), t);
    Takes(s1, t, Allocator.Quiet, s2);
    assert s2.threads == s.threads - {t};
  }

  /** Thread `t` calls `next_id` and gets as far as the free list. */
  lemma GetsToPop(s: State, t: Tid)
    requires Reaches(s) && t !in s.threads && s.reuse && s.hasFree
    ensures Reaches(At(s, t, Pop))
  {
    hide Reaches, ThreadStep;
    Starts(s, t, LoadReuse);
    var s1 := At(s, t, LoadReuse);
    var s2 := At(s1, t, LoadFlag);
    Looks(s1, t, s2);
    var s3 := At(s2, t, Pop);
    Looks(s2, t, s3);
    assert s3.threads == s.threads[t := Pop];
  }

  /** Thread `t` starts a refill in a map without free IDs and stops just before it lowers the
      flag. */
  lemma RefillFindsNothing(s: State, t: Tid)
    requires Reaches(s) && t !in s.threads && s.reuse && s.hasFree && s.list == [] && s.refillLock == None
    requires s.nextId == 1 && s.maxBlock == 0 && s.used == {0}
    ensures Reaches(At(s.(refillLock := Some(t)), t, RefillDone(false)))
  {
    hide Reaches, ThreadStep, FreeOfBlock;
    GetsToPop(s, t);
    var s2 := At(s, t, Pop);
    var s3 := At(s2, t, RefillLock);
    Looks(s2, t, s3);
    var s4 := At(s3.(refillLock := Some(t)), t, RefillEmpty);
    Refills(s3, t, s4);
    var s5 := At(s4, t, RefillBounds);
    Refills(s4, t, s5);
    var s6 := At(s5, t, RefillRead(0, 0, 1, false));
    Refills(s5, t, s6);
    var s7 := At(s6, t, RefillDone(false));
    NothingFree(s6, t, s7);
    Scans(s6, t, s7);
    assert s7.threads == s.threads[t := RefillDone(false)];
  }

  lemma NothingFree(s: State, t: Tid, s': State)
    requires t in s.threads && s.threads[t] == RefillRead(0, 0, 1, false) && s.used == {0}
    requires s' == At(s, t, RefillDone(false))
    ensures ScanStep(s, t, s')
  {
    assert FreeOfBlock(s.used, 0, 1, []);
    assert s' == At(s, t, Read(s.threads[t], []));
  }

  /** One ID is minted, freed and taken again, which leaves the flag up and nothing free. */
  lemma FlagLeftUp()
    ensures Reaches(State({0}, 1, 0, [], true, true, 1, None, map[]))
  {
    var s0 := State({}, 0, 0, [], false, true, 0, None, map[]);
    StartReaches(s0);
    hide Reaches, ThreadStep;
    Starts(s0, 1, LoadReuse);
    var s1 := At(s0, 1, LoadReuse);
    var s2 := At(s1, 1, LoadFlag);
    Looks(s1, 1, s2);
    var s3 := At(s2, 1, Minting);
    Looks(s2, 1, s3);
    Mints(s3, 1);
    var s4 := State({0}, 1, 0, [], false, true, 1, None, map[]);
    assert s4 == Return(s3.(used := s3.used + {s3.nextId}, nextId := s3.nextId + 1, total := s3.total + 1), 1);
    Frees(s4, 1, 0);
    var s5 := s4.(used := s4.used - {0}, list := s4.list + [0], hasFree := true, total := s4.total - 1);
    Reuses(s5, 1, 0);
    assert s5.(used := s5.used + {0}, list := [], total := s5.total + 1) ==
           State({0}, 1, 0, [], true, true, 1, None, map[]);
  }

  /** With no call running, reuse on and the flag down, an ID can be free, and even be listed as
      free: the next call mints a new ID all the same. */
  lemma FlagDownIdFree()
    ensures exists s :: && Reaches(s) && s.threads == map[] && s.reuse && !s.hasFree
                        && 0 < s.nextId && 0 !in s.used && s.list == [0]
  {
    hide Reaches, ThreadStep;
    FlagLeftUp();
    var s0 := State({0}, 1, 0, [], true, true, 1, None, map[]);
    // A refill finds nothing; before it lowers the flag, the ID is freed.
    RefillFindsNothing(s0, 1);
    var s1 := At(s0.(refillLock := Some(1)), 1, RefillDone(false));
    Frees(s1, 2, 0);
    var s2 := s1.(used := s1.used - {0}, list := s1.list + [0], hasFree := true, total := s1.total - 1);
    var s3 := At(s2.(hasFree := false), 1, RefillUnlock(false));
    Scans(s2, 1, s3);
    var s4 := At(s3.(refillLock := None), 1, Minting);
    Refills(s3, 1, s4);
    Mints(s4, 1);
    var s5 := Return(s4.(used := s4.used + {s4.nextId}, nextId := s4.nextId + 1, total := s4.total + 1), 1);
    assert s5.threads == map[];
  }
}
