/**
 Minting takes the next number before it makes sure that its block exists. If a whole block's worth
 of mints fails, the next block is out of turn, and no new ID is ever handed out again.
 */
module RunsDry {
  import opened Blocks
  import opened Collections
  import opened ConcurrentFsm
  import opened FlagLost
  import opened SoloReturns
  import Allocator

  // ---- For good ----

  lemma CallsStayDry(s: State, t: Tid, e: Allocator.Event, s': State)
    requires Inv(s) && !CanMint(s) && t in s.threads
    requires TakeStep(s, t, e, s') || MintStep(s, t, e, s') || ClearStep(s, t, e, s')
    ensures !CanMint(s') && s'.maxBlock == s.maxBlock && s.nextId <= s'.nextId
    ensures e.Alloc? ==> e.id < (s.maxBlock + 1) * BLOCK_IDS
  {
    assert PcOk(s, t, s.threads[t]);
    hide Inv, Outside;
  }

  lemma LookupsStayDry(s: State, t: Tid, s': State)
    requires !CanMint(s) && t in s.threads
    requires LookStep(s, t, s') || RefillStep(s, t, s') || ScanStep(s, t, s') || PublishStep(s, t, s')
    ensures !CanMint(s') && s'.maxBlock == s.maxBlock && s.nextId <= s'.nextId
  {
    hide FreeOfBlock, Read, AfterBlock;
  }

  lemma StepStaysDry(s: State, e: Allocator.Event, s': State)
    requires Inv(s) && !CanMint(s) && Step(s, e, s')
    ensures !CanMint(s') && s'.maxBlock == s.maxBlock && s.nextId <= s'.nextId
    ensures e.Alloc? ==> e.id < (s.maxBlock + 1) * BLOCK_IDS
  {
    hide Inv, CanMint, LookStep, RefillStep, ScanStep, TakeStep, MintStep, ClearStep, PublishStep;
    if t :| t in s.threads && ThreadStep(s, t, e, s') {
      if TakeStep(s, t, e, s') || MintStep(s, t, e, s') || ClearStep(s, t, e, s') {
        CallsStayDry(s, t, e, s');
      } else {
        LookupsStayDry(s, t, s');
      }
    } else {
      SameMint(s, s');
    }
  }

  lemma SameMint(s: State, s': State)
    requires s'.nextId == s.nextId && s'.maxBlock == s.maxBlock
    ensures CanMint(s') == CanMint(s)
  {
  }

  lemma {:induction false} StaysDry(ss: seq<State>, es: seq<Allocator.Event>, i: nat, j: nat)
    requires Run(ss, es) && i <= j < |ss| && !CanMint(ss[i])
    ensures !CanMint(ss[j]) && ss[j].maxBlock == ss[i].maxBlock
    ensures forall k :: i <= k < j && es[k].Alloc? ==> es[k].id < (ss[i].maxBlock + 1) * BLOCK_IDS
  {
    hide Step, CanMint;
    if i < j {
      StaysDry(ss, es, i, j - 1);
      RunKeepsInv(ss, es, j - 1);
      assert Step(ss[j - 1], es[j - 1], ss[j]);
      StepStaysDry(ss[j - 1], es[j - 1], ss[j]);
    }
  }

  /** Once the next new ID is out of turn, it stays so, and whatever is handed out was handed out
      before. */
  lemma DryForever(ss: seq<State>, es: seq<Allocator.Event>, i: nat, k: nat)
    requires Run(ss, es) && i <= k < |es| && !CanMint(ss[i])
    ensures !CanMint(ss[k + 1])
    ensures es[k].Alloc? ==> es[k].id < ss[i].nextId
  {
    hide Step;
    StaysDry(ss, es, i, k + 1);
  }

  // ---- How it comes ----

  /** A fresh map without reuse after `n` mints that failed. */
  function Failed(n: nat): State {
    State({}, n, 0, [], false, false, 0, None, map[])
  }

  lemma {:induction false} FailsOften(n: nat)
    ensures Reaches(Failed(n))
  {
    if n == 0 {
      StartReaches(Failed(0));
    } else {
      FailsOften(n - 1);
      var s := Failed(n - 1);
      hide Reaches, ThreadStep;
      Starts(s, 0, LoadReuse);
      var s1 := At(s, 0, LoadReuse);
      var s2 := At(s1, 0, Minting);
      Looks(s1, 0, s2);
      var s3 := Failed(n);
      assert s2.threads - {0} == map[];
      assert ThreadStep(s2, 0, Allocator.Lost, s3) by { assert MintStep(s2, 0, Allocator.Lost, s3); }
      ReachesNext(s2, Allocator.Lost, s3);
    }
  }

  /** With no ID in use and no call running, no ID may be left to hand out. */
  lemma NothingUsedNothingLeft()
    ensures exists s :: Reaches(s) && s.threads == map[] && s.used == {} && !CanMint(s)
  {
    FailsOften(2 * BLOCK_IDS);
    hide Reaches;
    assert !CanMint(Failed(2 * BLOCK_IDS));
  }
}
