/**
 What the free space map promises its callers, as one atomic step per event: the sequential map
 and the concurrent one are both shown to take only these steps.
 */
module Allocator {
  import opened Collections

  /** Capacity of the list of free IDs kept in memory. */
  const FAST_SIZE: nat := 1024

  /** `used` are the IDs whose bit is set; IDs from `nextId` on were never handed out. */
  datatype State = State(used: set<nat>, nextId: nat, reuse: bool)

  datatype Event =
    | Alloc(id: nat)      // `next_id` got this ID
    | Freed(id: nat)      // `mark_free` cleared this ID's bit
    | ReuseOn             // reuse of freed IDs was enabled
    | Lost                // a new ID was taken but marking it failed
    | Quiet               // nothing the caller could see

  ghost predicate WellFormed(s: State) {
    forall id :: id in s.used ==> id < s.nextId
  }

  /** A never used ID is taken. */
  ghost predicate Mint(s: State, id: nat, s': State) {
    id == s.nextId && s' == s.(used := s.used + {id}, nextId := s.nextId + 1)
  }

  /** A freed ID is taken again. */
  ghost predicate Reuse(s: State, id: nat, s': State) {
    s.reuse && id < s.nextId && id !in s.used && s' == s.(used := s.used + {id})
  }

  ghost predicate Step(s: State, e: Event, s': State) {
    match e
    case Alloc(id) => Mint(s, id, s') || Reuse(s, id, s')
    case Freed(id) => id in s.used && s' == s.(used := s.used - {id})
    case ReuseOn => s' == s.(reuse := true)
    case Lost => s' == s.(nextId := s.nextId + 1)
    case Quiet => s' == s
  }

  ghost predicate Run(ss: seq<State>, es: seq<Event>) {
    && |ss| == |es| + 1
    && WellFormed(ss[0])
    && forall i :: 0 <= i < |es| ==> Step(ss[i], es[i], ss[i + 1])
  }

  lemma {:induction false} RunWellFormed(ss: seq<State>, es: seq<Event>, i: nat)
    requires Run(ss, es) && i < |ss|
    ensures WellFormed(ss[i])
  {
    if i > 0 {
      RunWellFormed(ss, es, i - 1);
      assert Step(ss[i - 1], es[i - 1], ss[i]);
    }
  }

  /** While nobody frees it, an allocated ID stays used. */
  lemma {:induction false} StaysUsed(ss: seq<State>, es: seq<Event>, id: nat, i: nat, j: nat)
    requires Run(ss, es) && i <= j < |ss| && id in ss[i].used
    requires forall k :: i <= k < j ==> es[k] != Freed(id)
    ensures id in ss[j].used
  {
    if i < j {
      StaysUsed(ss, es, id, i, j - 1);
      assert Step(ss[j - 1], es[j - 1], ss[j]);
    }
  }

  /** While nobody takes it, a free ID stays free. */
  lemma {:induction false} StaysFree(ss: seq<State>, es: seq<Event>, id: nat, i: nat, j: nat)
    requires Run(ss, es) && i <= j < |ss| && id < ss[i].nextId && id !in ss[i].used
    requires forall k :: i <= k < j ==> es[k] != Alloc(id)
    ensures id < ss[j].nextId && id !in ss[j].used
  {
    if i < j {
      StaysFree(ss, es, id, i, j - 1);
      assert Step(ss[j - 1], es[j - 1], ss[j]);
    }
  }

  /** No ID is handed out twice without having been freed in between. */
  lemma NoDoubleAllocation(ss: seq<State>, es: seq<Event>, id: nat, i: nat, j: nat)
    requires Run(ss, es) && i < j < |es|
    requires es[i] == Alloc(id) && es[j] == Alloc(id)
    ensures exists k :: i < k < j && es[k] == Freed(id)
  {
    assert Step(ss[i], es[i], ss[i + 1]);
    assert Step(ss[j], es[j], ss[j + 1]);
    RunWellFormed(ss, es, j);
    if forall k :: i < k < j ==> es[k] != Freed(id) {
      StaysUsed(ss, es, id, i + 1, j);
    }
  }

  // Tightness: with reuse on and exact accelerators, new IDs are minted only when needed.

  /** The map minted an ID only because every ID so far was in use. */
  ghost predicate TightAlloc(s: State, id: nat, s': State) {
    if |s.used| < s.nextId then Reuse(s, id, s') else Mint(s, id, s')
  }

  ghost predicate TightStep(s: State, e: Event, s': State) {
    match e
    case Alloc(id) => TightAlloc(s, id, s')
    case Freed(id) => Step(s, e, s')
    case Quiet => Step(s, e, s')
    case _ => false
  }

  ghost predicate TightRun(ss: seq<State>, es: seq<Event>) {
    && |ss| == |es| + 1
    && ss[0].used == {} && ss[0].nextId == 0
    && forall i :: 0 <= i < |es| ==> TightStep(ss[i], es[i], ss[i + 1])
  }

  /** The largest number of IDs in use at once in the first `n` states. */
  ghost function Peak(ss: seq<State>, n: nat): nat
    requires n <= |ss|
  {
    if n == 0 then 0
    else if |ss[n - 1].used| > Peak(ss, n - 1) then |ss[n - 1].used| else Peak(ss, n - 1)
  }

  lemma UsedFits(s: State)
    requires WellFormed(s)
    ensures |s.used| <= s.nextId
  {
    SubsetSize(s.used, Below(s.nextId));
  }

  /** The ID space never outgrows the peak demand: after every step, `nextId` is exactly the
      largest number of IDs that were ever in use at once. */
  lemma {:induction false} NextIdIsPeak(ss: seq<State>, es: seq<Event>, i: nat)
    requires TightRun(ss, es) && i < |ss|
    ensures WellFormed(ss[i])
    ensures ss[i].nextId == Peak(ss, i + 1)
  {
    if i > 0 {
      NextIdIsPeak(ss, es, i - 1);
      assert TightStep(ss[i - 1], es[i - 1], ss[i]);
      UsedFits(ss[i - 1]);
      UsedFits(ss[i]);
    } else {
      assert Peak(ss, 0) == 0;
    }
  }
}
