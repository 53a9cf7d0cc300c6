/** An undisturbed call of `next_id` comes to its end, whatever state others have left behind. */
module SoloReturns {
  import opened Blocks
  import opened Collections
  import opened ConcurrentFsm
  import opened SoloCalls
  import Allocator

  /** How far the call still has to go: stages, then what is left of a stage. */
  function Rank(used: set<nat>, list: seq<nat>, pc: Pc): (nat, nat, nat, nat) {
    match pc
    case LoadReuse => (8, 0, 0, 0)
    case LoadFlag => (7, 0, 0, 0)
    case Pop => (6, |list|, 0, 0)
    case Check(id) => if id in used then (6, |list|, 2, 0) else (1, 2, 0, 0)
    case MarkUsed(id) => if id in used then (6, |list|, 1, 0) else (1, 1, 0, 0)
    case RefillLock => (5, 2, 0, 0)
    case RefillEmpty => (5, 1, 0, 0)
    case RefillBounds => (5, 0, 0, 0)
    case RefillRead(block, lastBlock, _, _) => (4, BlocksLeft(block, lastBlock), 1, 0)
    case RefillFlag(todo, block, lastBlock, _) => (4, BlocksLeft(block, lastBlock), 0, 2 * |todo| + 1)
    case RefillPush(todo, block, lastBlock, _) => (4, BlocksLeft(block, lastBlock), 0, 2 * |todo|)
    case RefillDone(_) => (3, 1, 0, 0)
    case RefillUnlock(_) => (3, 0, 0, 0)
    case PopAgain => (2, 0, 0, 0)
    case Minting => (1, 1, 0, 0)
    case _ => (0, 0, 0, 0)
  }

  function BlocksLeft(block: nat, lastBlock: nat): nat {
    if block <= lastBlock then lastBlock - block else 0
  }

  function RankAt(s: State, t: Tid): (nat, nat, nat, nat)
    requires t in s.threads
  {
    Rank(s.used, s.list, s.threads[t])
  }

  predicate Lower(a: (nat, nat, nat, nat), b: (nat, nat, nat, nat)) {
    || a.0 < b.0
    || (a.0 == b.0 && a.1 < b.1)
    || (a.0 == b.0 && a.1 == b.1 && a.2 < b.2)
    || (a.0 == b.0 && a.1 == b.1 && a.2 == b.2 && a.3 < b.3)
  }

  // ---- Reading a block ----

  function FreeFrom(used: set<nat>, lo: nat, hi: nat): seq<nat>
    decreases hi - lo
  {
    if lo >= hi then [] else (if lo in used then [] else [lo]) + FreeFrom(used, lo + 1, hi)
  }

  lemma {:induction false} FreeFromExact(used: set<nat>, lo: nat, hi: nat)
    ensures Increasing(FreeFrom(used, lo, hi))
    ensures forall id: nat :: id in FreeFrom(used, lo, hi) <==> lo <= id < hi && id !in used
    decreases hi - lo
  {
    if lo < hi {
      FreeFromExact(used, lo + 1, hi);
      var rest := FreeFrom(used, lo + 1, hi);
      if lo !in used {
        assert FreeFrom(used, lo, hi) == [lo] + rest;
        assert forall i :: 0 <= i < |rest| ==> rest[i] in rest;
      } else {
        assert FreeFrom(used, lo, hi) == rest;
      }
    }
  }

  /** A block can be read. */
  lemma BlockReads(used: set<nat>, block: nat, bound: nat) returns (ids: seq<nat>)
    ensures FreeOfBlock(used, block, bound, ids)
  {
    ids := FreeFrom(used, block * BLOCK_IDS, Min((block + 1) * BLOCK_IDS, bound));
    FreeFromExact(used, block * BLOCK_IDS, Min((block + 1) * BLOCK_IDS, bound));
  }

  // ---- One more step ----

  /** The call can move from `s` to `s'` and is closer to its end. */
  ghost predicate Closer(s: State, t: Tid, e: Allocator.Event, s': State) {
    && t in s.threads && t in s'.threads && ThreadStep(s, t, e, s') && Lower(RankAt(s', t), RankAt(s, t))
  }

  lemma LookCloser(s0: State, s: State, t: Tid) returns (s': State)
    requires Looking(s0, s, t) && ListOk(s0)
    requires var pc := s.threads[t];
             pc.LoadReuse? || pc.LoadFlag? || pc.Pop? || pc.PopAgain? || (pc.Check? && pc.id < s.nextId)
    ensures Closer(s, t, Allocator.Quiet, s')
  {
    hide Scanned, ExpectsToPush, Popped, Unstale;
    var pc := s.threads[t];
    if pc.LoadReuse? {
      s' := At(s, t, if s.reuse then LoadFlag else Minting);
    } else if pc.LoadFlag? {
      s' := At(s, t, if s.hasFree then Pop else Minting);
    } else if pc.Check? {
      s' := At(s, t, MarkUsed(pc.id));
    } else if s.list == [] {
      s' := At(s, t, RefillLock);
    } else {
      s' := At(s.(list := s.list[1..]), t, Check(s.list[0]));
    }
    assert LookStep(s, t, s');
  }

  lemma RefillCloser(s0: State, s: State, t: Tid) returns (s': State)
    requires Looking(s0, s, t) && s0.refillLock == None
    requires var pc := s.threads[t]; pc.RefillLock? || pc.RefillEmpty? || pc.RefillBounds? || pc.RefillUnlock?
    ensures Closer(s, t, Allocator.Quiet, s')
  {
    hide LowestFree, Scanned, ExpectsToPush, Popped, Unstale;
    var pc := s.threads[t];
    if pc.RefillLock? {
      s' := At(s.(refillLock := Some(t)), t, RefillEmpty);
    } else if pc.RefillEmpty? {
      s' := At(s, t, RefillBounds);
    } else if pc.RefillBounds? {
      s' := At(s, t, if s.nextId > 0 then RefillRead(0, s.maxBlock, s.nextId, false) else RefillDone(false));
    } else {
      s' := At(s.(refillLock := None), t, if pc.found then PopAgain else Minting);
    }
    assert RefillStep(s, t, s');
  }

  lemma ScanCloser(s0: State, s: State, t: Tid) returns (s': State)
    requires Looking(s0, s, t)
    requires var pc := s.threads[t]; pc.RefillRead? || pc.RefillFlag? || pc.RefillPush? || pc.RefillDone?
    ensures Closer(s, t, Allocator.Quiet, s')
  {
    hide LowestFree, Scanned, Popped, Unstale, FreeOfBlock;
    var pc := s.threads[t];
    if pc.RefillRead? {
      var ids := BlockReads(s.used, pc.block, pc.bound);
      s' := At(s, t, Read(pc, ids));
    } else if pc.RefillFlag? {
      s' := At(s.(hasFree := true), t, RefillPush(pc.todo, pc.block, pc.lastBlock, pc.bound));
    } else if pc.RefillDone? {
      s' := At(if pc.found then s else s.(hasFree := false), t, RefillUnlock(pc.found));
    } else if |s.list| >= Allocator.FAST_SIZE {
      s' := At(s, t, RefillDone(true));
    } else {
      s' := At(s.(list := s.list + [pc.todo[0]]), t,
               if |pc.todo| == 1 then AfterBlock(pc.block, pc.lastBlock, pc.bound, true)
               else RefillFlag(pc.todo[1..], pc.block, pc.lastBlock, pc.bound));
    }
    assert ScanStep(s, t, s');
  }

  /** The block of the next new ID exists or is the next one. */
  predicate CanMint(s: State) {
    s.nextId / BLOCK_IDS <= s.maxBlock + 1
  }

  /** A new ID can be had, or the call searches and some ID within reach is free. */
  ghost predicate Served(s: State) {
    CanMint(s) || (Searches(s) && exists x :: Free(s, x))
  }

  lemma MintsIfServed(s0: State, s: State, t: Tid)
    requires Looking(s0, s, t) && Served(s0) && s.threads[t].Minting?
    ensures CanMint(s)
  {
    hide Scanned, Popped, Unstale;
    if Searches(s0) {
      assert LowestFree(s0, []);
    }
  }

  lemma TakeCloser(s0: State, s: State, t: Tid) returns (e: Allocator.Event, s': State)
    requires Looking(s0, s, t) && BlocksOk(s0) && Served(s0)
    requires s.threads[t].MarkUsed? || s.threads[t].Minting?
    ensures Closer(s, t, e, s')
  {
    hide LowestFree, Scanned, Popped, Unstale, Served;
    var pc := s.threads[t];
    if pc.Minting? {
      MintsIfServed(s0, s, t);
      NothingWiped(s);
      hide Outside;
      var block := s.nextId / BLOCK_IDS;
      e := Allocator.Alloc(s.nextId);
      s' := At(s.(used := s.used + {s.nextId}, nextId := s.nextId + 1,
                  maxBlock := if block == s.maxBlock + 1 then block else s.maxBlock), t, CountUp(s.nextId));
      assert MintStep(s, t, e, s');
    } else if pc.id in s.used {
      e := Allocator.Quiet;
      s' := At(s, t, Pop);
      assert TakeStep(s, t, e, s');
    } else {
      e := Allocator.Alloc(pc.id);
      s' := At(s.(used := s.used + {pc.id}), t, CountUp(pc.id));
      assert TakeStep(s, t, e, s');
    }
  }

  lemma PoppedInRange(s0: State, id: nat, list: seq<nat>)
    requires ListOk(s0) && Popped(s0, id, list) && id !in s0.used
    ensures id < s0.nextId
  {
    assert Unstale([id] + list, s0.used) == [id] + list;
    assert ([id] + list)[0] == id;
    if Unstale([id] + list, s0.used) == Unstale(s0.list, s0.used) {
      UnstaleListed(s0.list, s0.used, id);
    }
  }

  /** Wherever the call is, it can go on. */
  lemma GoesOn(s0: State, s: State, t: Tid) returns (e: Allocator.Event, s': State)
    requires Looking(s0, s, t) && BlocksOk(s0) && ListOk(s0) && s0.refillLock == None && Served(s0)
    ensures Closer(s, t, e, s')
  {
    LooksForId(s0, s, t);
    var pc := s.threads[t];
    e := Allocator.Quiet;
    if pc.MarkUsed? || pc.Minting? {
      hide Looking, Closer;
      e, s' := TakeCloser(s0, s, t);
    } else if pc.RefillLock? || pc.RefillEmpty? || pc.RefillBounds? || pc.RefillUnlock? {
      hide Looking, Closer;
      s' := RefillCloser(s0, s, t);
    } else if pc.RefillRead? || pc.RefillFlag? || pc.RefillPush? || pc.RefillDone? {
      hide Looking, Closer;
      s' := ScanCloser(s0, s, t);
    } else {
      if pc.Check? {
        CheckInRange(s0, s, t);
      }
      hide Looking, Closer;
      s' := LookCloser(s0, s, t);
    }
  }

  lemma CheckInRange(s0: State, s: State, t: Tid)
    requires Looking(s0, s, t) && BlocksOk(s0) && ListOk(s0) && s.threads[t].Check?
    ensures s.threads[t].id < s.nextId
  {
    hide LowestFree, Unstale, Popped;
    if s.threads[t].id !in s.used {
      PoppedInRange(s0, s.threads[t].id, s.list);
    }
  }

  // ---- All the way ----

  /** The call, alone, gets from `s0` to `s`. */
  ghost predicate Gets(t: Tid, s0: State, s: State) {
    exists ss, es :: Alone(t, ss, es) && ss[0] == s0 && ss[|es|] == s
  }

  lemma GetsNext(t: Tid, s0: State, s: State, e: Allocator.Event, s': State)
    requires Gets(t, s0, s) && t in s.threads && ThreadStep(s, t, e, s')
    ensures Gets(t, s0, s')
  {
    hide ThreadStep;
    var ss, es :| Alone(t, ss, es) && ss[0] == s0 && ss[|es|] == s;
    assert Alone(t, ss + [s'], es + [e]) && (ss + [s'])[|es + [e]|] == s';
  }

  lemma {:induction false} GetsId(t: Tid, s0: State, s: State) returns (s': State)
    requires Gets(t, s0, s) && Looking(s0, s, t)
    requires BlocksOk(s0) && ListOk(s0) && s0.refillLock == None && Served(s0)
    ensures Gets(t, s0, s') && t in s'.threads && s'.threads[t].CountUp?
    decreases RankAt(s, t).0, RankAt(s, t).1, RankAt(s, t).2, RankAt(s, t).3
  {
    hide Gets, BlocksOk, ListOk, Looking, ThreadStep, Rank, Served;
    var e, s1 := GoesOn(s0, s, t);
    GetsNext(t, s0, s, e, s1);
    StepSolo(s0, s, t, e, s1);
    hide Allocated;
    if Looking(s0, s1, t) {
      s' := GetsId(t, s0, s1);
    } else {
      s' := s1;
    }
  }

  ghost predicate CanReturn(t: Tid, s: State) {
    exists ss, es, id :: Returns(t, ss, es, id) && ss[0] == s
  }

  lemma ServedReturns(t: Tid, s: State)
    requires Inv(s) && t in s.threads && s.threads[t] == LoadReuse && s.refillLock == None && Served(s)
    ensures CanReturn(t, s)
  {
    StartsLooking(s, t);
    assert Gets(t, s, s) by {
      var es: seq<Allocator.Event> := [];
      assert Alone(t, [s], es) && [s][0] == s && [s][|es|] == s;
    }
    assert BlocksOk(s) && ListOk(s);
    hide Inv, BlocksOk, ListOk, Looking, ThreadStep, Served;
    var s1 := GetsId(t, s, s);
    var ss, es :| Alone(t, ss, es) && ss[0] == s && ss[|es|] == s1;
    var id := s1.threads[t].id;
    var s2 := Return(s1.(total := s1.total + 1), t);
    CountsUp(s1, t, s2);
    var more, events := ss + [s2], es + [Allocator.Quiet];
    assert Returns(t, more, events, id) && more[0] == s;
  }

  lemma {:induction false} AloneKeepsInv(t: Tid, ss: seq<State>, es: seq<Allocator.Event>, i: nat)
    requires Alone(t, ss, es) && Inv(ss[0]) && i <= |es|
    ensures Inv(ss[i])
  {
    hide Inv, ThreadStep;
    if i > 0 {
      AloneKeepsInv(t, ss, es, i - 1);
      assert Step(ss[i - 1], es[i - 1], ss[i]);
      StepKeepsInv(ss[i - 1], es[i - 1], ss[i]);
    }
  }

  /** While the refill lock is free, a call that nobody disturbs can return an ID, if and only if a
      new one can be had, or it searches and some ID within reach is free. */
  lemma AloneReturnsIff(t: Tid, s: State)
    requires Inv(s) && t in s.threads && s.threads[t] == LoadReuse && s.refillLock == None
    ensures CanReturn(t, s) <==> Served(s)
  {
    if Served(s) {
      hide Inv, Served, CanReturn;
      ServedReturns(t, s);
    }
    if ss, es, id :| Returns(t, ss, es, id) && ss[0] == s {
      AloneKeepsInv(t, ss, es, |es|);
      AloneAnswers(t, ss, es, id);
      var s' := ss[|es|];
      assert BlocksOk(s') && ListOk(s);
      hide Returns, Inv;
      AnswerReuses(s, id, s'.list, s'.hasFree);
      hide Answer;
      assert Known(s', id);
    }
  }

  lemma CountsUp(s: State, t: Tid, s': State)
    requires t in s.threads && s.threads[t].CountUp? && s' == Return(s.(total := s.total + 1), t)
    ensures ThreadStep(s, t, Allocator.Quiet, s')
  {
    assert TakeStep(s, t, Allocator.Quiet, s');
  }

  /** And an undisturbed `mark_free` of a used ID can free it. */
  lemma AloneCanFree(t: Tid, s: State, id: nat)
    requires BlocksOk(s) && t in s.threads && s.threads[t] == FreeCheck(id) && id in s.used
    ensures Gets(t, s, AfterFree(s, t, id))
  {
    assert Known(s, id);
    assert Gets(t, s, s) by {
      var es: seq<Allocator.Event> := [];
      assert Alone(t, [s], es) && [s][0] == s && [s][|es|] == s;
    }
    hide Gets, BlocksOk;
    var s1 := At(s, t, MarkFree(id));
    assert ClearStep(s, t, Allocator.Quiet, s1);
    GetsNext(t, s, s, Allocator.Quiet, s1);
    var s2 := At(s1.(used := s1.used - {id}), t, CountDown(id));
    assert ClearStep(s1, t, Allocator.Freed(id), s2);
    GetsNext(t, s, s1, Allocator.Freed(id), s2);
    hide ThreadStep, ClearStep;
    FreePublishes(t, s, s2, id);
    assert s2.threads - {t} == s.threads - {t};
  }

  lemma FreePublishes(t: Tid, s0: State, s: State, id: nat)
    requires Gets(t, s0, s) && t in s.threads && s.threads[t] == CountDown(id)
    ensures Gets(t, s0, Return(s.(list := if |s.list| < Allocator.FAST_SIZE then s.list + [id] else s.list,
                                  hasFree := true, total := s.total - 1), t))
  {
    hide Gets;
    var s1 := At(s.(total := s.total - 1), t, FreePush(id));
    assert PublishStep(s, t, s1);
    GetsNext(t, s0, s, Allocator.Quiet, s1);
    var s2 := At(if |s1.list| < Allocator.FAST_SIZE then s1.(list := s1.list + [id]) else s1, t, FreeFlag);
    assert PublishStep(s1, t, s2);
    GetsNext(t, s0, s1, Allocator.Quiet, s2);
    var s3 := Return(s2.(hasFree := true), t);
    assert PublishStep(s2, t, s3);
    GetsNext(t, s0, s2, Allocator.Quiet, s3);
    assert s3.threads == s.threads - {t};
  }

  // ---- Failures ----

  /** At each of its reads and writes of the store an undisturbed call can fail. It then leaves the
      bits as they were and the refill lock free. */
  lemma AloneMayFail(s0: State, s: State, t: Tid) returns (e: Allocator.Event, s': State)
    requires Looking(s0, s, t) && (Refilling(s.threads[t]) ==> s0.refillLock == None)
    requires s.threads[t].RefillRead? || s.threads[t].MarkUsed? || s.threads[t].Minting?
    ensures ThreadStep(s, t, e, s') && t !in s'.threads
    ensures e == if s.threads[t].Minting? then Allocator.Lost else Allocator.Quiet
    ensures s'.used == s0.used && s'.refillLock == s0.refillLock && s'.total == s0.total
  {
    hide LowestFree, Scanned, Popped, Unstale;
    e := Allocator.Quiet;
    if s.threads[t].RefillRead? {
      s' := Return(s.(refillLock := None), t);
      assert RefillStep(s, t, s');
    } else if s.threads[t].MarkUsed? {
      s' := Return(s, t);
      assert TakeStep(s, t, e, s');
    } else {
      e := Allocator.Lost;
      s' := Return(s.(nextId := s.nextId + 1), t);
      assert MintStep(s, t, e, s');
    }
  }

  /** A mint that needs a new block can also fail after it has created it. */
  lemma NewBlockMayStay(s: State, t: Tid) returns (s': State)
    requires BlocksOk(s) && t in s.threads && s.threads[t].Minting? && s.nextId / BLOCK_IDS == s.maxBlock + 1
    ensures ThreadStep(s, t, Allocator.Lost, s')
    ensures s' == Return(s.(nextId := s.nextId + 1, maxBlock := s.maxBlock + 1), t)
  {
    NothingWiped(s);
    hide Outside;
    s' := Return(s.(nextId := s.nextId + 1, maxBlock := s.maxBlock + 1), t);
    assert MintStep(s, t, Allocator.Lost, s');
  }

  /** So can an undisturbed `mark_free`, of a used ID too. */
  lemma FreeMayFail(s: State, t: Tid) returns (s': State)
    requires t in s.threads && s.threads[t].MarkFree?
    ensures ThreadStep(s, t, Allocator.Quiet, s') && s' == Return(s, t)
  {
    s' := Return(s, t);
    assert ClearStep(s, t, Allocator.Quiet, s');
  }
}
