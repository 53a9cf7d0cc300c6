/**
 Threads writing and appending to bf-tree neighbour lists, with acquire, read, write and release
 as separate steps under the vertex's stripe lock, in any interleaving.
 */
module LockedWrites {
  import opened Collections
  import opened Adjacency
  import Locks = StripedLocks

  type Tid = nat
  type Vertex = nat

  datatype Op = Write(list: seq<Vertex>) | Append(list: seq<Vertex>)

  datatype Config = Config(shift: nat, maxDegree: nat)

  datatype Pc =
    | Waiting(v: Vertex, op: Op)                           // about to take the stripe lock
    | Locked(v: Vertex, op: Op)                            // about to read the list
    | Loaded(v: Vertex, op: Op, list: seq<Vertex>)         // about to write it back
    | Stored(v: Vertex)                                    // about to release the lock

  /** `log` records, per vertex, the operations in the order in which they got the lock. */
  datatype State = State(
    lists: map<Vertex, seq<Vertex>>,
    owner: map<nat, Tid>,
    threads: map<Tid, Pc>,
    log: map<Vertex, seq<Op>>)

  function ListAt(s: State, v: Vertex): seq<Vertex> {
    if v in s.lists then s.lists[v] else []
  }

  function LogAt(s: State, v: Vertex): seq<Op> {
    if v in s.log then s.log[v] else []
  }

  function Stripe(c: Config, v: Vertex): nat {
    Locks.StripeIndex(v, c.shift)
  }

  /** What an operation makes of a list; a write above the maximum degree is refused. */
  function Apply(c: Config, list: seq<Vertex>, op: Op): seq<Vertex> {
    match op
    case Write(l) => if |l| <= c.maxDegree then l else list
    case Append(l) => AppendUnique(list, l, c.maxDegree)
  }

  predicate Skips(c: Config, list: seq<Vertex>, op: Op) {
    if op.Write? then |op.list| > c.maxDegree else Apply(c, list, op) == list
  }

  lemma SkipChangesNothing(c: Config, list: seq<Vertex>, op: Op)
    ensures Skips(c, list, op) ==> Apply(c, list, op) == list
  {
  }

  /** The operations of a log, one after the other. */
  function Serial(c: Config, log: seq<Op>): seq<Vertex> {
    if log == [] then [] else Apply(c, Serial(c, log[..|log| - 1]), log[|log| - 1])
  }

  /** An accepted write makes the list what it says, whatever came before. */
  lemma {:induction false} WriteForgets(c: Config, before: seq<Op>, list: seq<Vertex>, after: seq<Op>)
    requires |list| <= c.maxDegree
    ensures Serial(c, before + [Write(list)] + after) == Serial(c, [Write(list)] + after)
    ensures Serial(c, before + [Write(list)]) == list
  {
    var log, short := before + [Write(list)] + after, [Write(list)] + after;
    assert (before + [Write(list)])[..|before|] == before;
    if after == [] {
      assert log == before + [Write(list)] && short == [Write(list)];
    } else {
      var rest := after[..|after| - 1];
      WriteForgets(c, before, list, rest);
      assert log[..|log| - 1] == before + [Write(list)] + rest && short[..|short| - 1] == [Write(list)] + rest;
      assert log[|log| - 1] == short[|short| - 1];
    }
  }

  /** A write above the maximum degree might as well not have been asked for. */
  lemma {:induction false} RefusedWrite(c: Config, before: seq<Op>, list: seq<Vertex>, after: seq<Op>)
    requires |list| > c.maxDegree
    ensures Serial(c, before + [Write(list)] + after) == Serial(c, before + after)
  {
    var log, short := before + [Write(list)] + after, before + after;
    if after == [] {
      assert log == before + [Write(list)] && short == before;
      assert log[..|before|] == before;
    } else {
      var rest := after[..|after| - 1];
      RefusedWrite(c, before, list, rest);
      assert log[..|log| - 1] == before + [Write(list)] + rest && short[..|short| - 1] == before + rest;
      assert log[|log| - 1] == short[|short| - 1];
    }
  }

  ghost predicate Init(s: State) {
    s == State(map[], map[], map[], map[])
  }

  ghost predicate Start(s: State, t: Tid, s': State) {
    t !in s.threads && exists v, op :: s' == s.(threads := s.threads[t := Waiting(v, op)])
  }

  ghost predicate Acquire(c: Config, s: State, t: Tid, s': State)
    requires t in s.threads
  {
    var pc := s.threads[t];
    && pc.Waiting? && Stripe(c, pc.v) !in s.owner
    && s' == s.(owner := s.owner[Stripe(c, pc.v) := t],
                threads := s.threads[t := Locked(pc.v, pc.op)],
                log := s.log[pc.v := LogAt(s, pc.v) + [pc.op]])
  }

  ghost predicate Load(s: State, t: Tid, s': State)
    requires t in s.threads
  {
    var pc := s.threads[t];
    pc.Locked? && s' == s.(threads := s.threads[t := Loaded(pc.v, pc.op, ListAt(s, pc.v))])
  }

  /** Writes the list back; a refused write and an append that added nothing skip this. */
  ghost predicate Store(c: Config, s: State, t: Tid, s': State)
    requires t in s.threads
  {
    var pc := s.threads[t];
    && pc.Loaded?
    && var list := Apply(c, pc.list, pc.op);
       s' == s.(threads := s.threads[t := Stored(pc.v)],
                lists := if Skips(c, pc.list, pc.op) then s.lists else s.lists[pc.v := list])
  }

  ghost predicate Release(c: Config, s: State, t: Tid, s': State)
    requires t in s.threads
  {
    var pc := s.threads[t];
    pc.Stored? && s' == s.(threads := s.threads - {t}, owner := s.owner - {Stripe(c, pc.v)})
  }

  ghost predicate Step(c: Config, s: State, t: Tid, s': State) {
    || Start(s, t, s')
    || (t in s.threads && (Acquire(c, s, t, s') || Load(s, t, s') || Store(c, s, t, s') || Release(c, s, t, s')))
  }

  ghost predicate Run(c: Config, ss: seq<State>, ts: seq<Tid>) {
    && |ss| == |ts| + 1
    && Init(ss[0])
    && forall i :: 0 <= i < |ts| ==> Step(c, ss[i], ts[i], ss[i + 1])
  }

  // ---- Invariant ----

  /** A thread past the lock owns its stripe, and what it has read is still current. */
  ghost predicate ThreadOk(c: Config, s: State, t: Tid)
    requires t in s.threads
  {
    var pc := s.threads[t];
    && (!pc.Waiting? ==> Stripe(c, pc.v) in s.owner && s.owner[Stripe(c, pc.v)] == t)
    && (pc.Loaded? ==> pc.list == ListAt(s, pc.v))
  }

  /** The thread that got the lock for `v` but has not written yet, if any. */
  ghost predicate Pending(s: State, v: Vertex, t: Tid) {
    t in s.threads && s.threads[t].v == v && (s.threads[t].Locked? || s.threads[t].Loaded?)
  }

  /** The list is the serial result of the log, or of all but its last entry while the thread that
      made that entry has not written yet. */
  ghost predicate VertexOk(c: Config, s: State, v: Vertex) {
    var log := LogAt(s, v);
    var t := if Stripe(c, v) in s.owner then s.owner[Stripe(c, v)] else 0;
    if Stripe(c, v) in s.owner && Pending(s, v, t) then
      log != [] && log[|log| - 1] == s.threads[t].op && ListAt(s, v) == Serial(c, log[..|log| - 1])
    else
      ListAt(s, v) == Serial(c, log)
  }

  ghost predicate Inv(c: Config, s: State) {
    && (forall t :: t in s.threads ==> ThreadOk(c, s, t))
    && (forall v :: VertexOk(c, s, v))
  }

  lemma StepThread(c: Config, s: State, t: Tid, s': State, u: Tid)
    requires Inv(c, s) && Step(c, s, t, s') && u in s'.threads
    ensures ThreadOk(c, s', u)
  {
    hide VertexOk, Serial, Stripe, Apply;
    if u in s.threads {
      assert ThreadOk(c, s, u);
    }
    if t in s.threads {
      assert ThreadOk(c, s, t);
    }
  }

  lemma StepVertex(c: Config, s: State, t: Tid, s': State, v: Vertex)
    requires Inv(c, s) && Step(c, s, t, s')
    ensures VertexOk(c, s', v)
  {
    assert VertexOk(c, s, v);
    if t in s.threads {
      assert ThreadOk(c, s, t);
      if s.threads[t].v != v {
        OtherVertex(c, s, t, s', v);
      } else {
        SameVertex(c, s, t, s');
      }
    }
  }

  lemma OtherVertex(c: Config, s: State, t: Tid, s': State, v: Vertex)
    requires t in s.threads && s.threads[t].v != v && ThreadOk(c, s, t)
    requires Step(c, s, t, s') && VertexOk(c, s, v)
    ensures VertexOk(c, s', v)
  {
    hide Serial, Apply, Skips, Stripe;
  }

  lemma AcquireVertex(c: Config, s: State, t: Tid, s': State)
    requires t in s.threads && Acquire(c, s, t, s') && VertexOk(c, s, s.threads[t].v)
    ensures VertexOk(c, s', s.threads[t].v)
  {
    hide Serial, Stripe;
    var log := LogAt(s, s.threads[t].v);
    assert (log + [s.threads[t].op])[..|log|] == log;
  }

  lemma StoreVertex(c: Config, s: State, t: Tid, s': State)
    requires t in s.threads && ThreadOk(c, s, t) && Store(c, s, t, s') && VertexOk(c, s, s.threads[t].v)
    ensures VertexOk(c, s', s.threads[t].v)
  {
    SkipChangesNothing(c, s.threads[t].list, s.threads[t].op);
    hide Apply, Skips, Stripe;
  }

  lemma SameVertex(c: Config, s: State, t: Tid, s': State)
    requires t in s.threads && ThreadOk(c, s, t)
    requires Step(c, s, t, s') && VertexOk(c, s, s.threads[t].v)
    ensures VertexOk(c, s', s.threads[t].v)
  {
    hide Acquire, Store, Serial, Stripe;
    if Acquire(c, s, t, s') {
      AcquireVertex(c, s, t, s');
    } else if Store(c, s, t, s') {
      StoreVertex(c, s, t, s');
    }
  }

  lemma {:induction false} RunInv(c: Config, ss: seq<State>, ts: seq<Tid>, i: nat)
    requires Run(c, ss, ts) && i < |ss|
    ensures Inv(c, ss[i])
  {
    hide Step, ThreadOk, Stripe;
    if i > 0 {
      RunInv(c, ss, ts, i - 1);
      assert Step(c, ss[i - 1], ts[i - 1], ss[i]);
      hide VertexOk;
      forall u | u in ss[i].threads
        ensures ThreadOk(c, ss[i], u)
      {
        StepThread(c, ss[i - 1], ts[i - 1], ss[i], u);
      }
      forall v
        ensures VertexOk(c, ss[i], v)
      {
        StepVertex(c, ss[i - 1], ts[i - 1], ss[i], v);
      }
    }
  }

  // ---- Main results ----

  /** Whenever no thread is between the lock and the write for a vertex, its list is what its
      operations give one after the other, in lock order. */
  lemma Serializable(c: Config, ss: seq<State>, ts: seq<Tid>, i: nat, v: Vertex)
    requires Run(c, ss, ts) && i < |ss|
    requires forall t :: !Pending(ss[i], v, t)
    ensures ListAt(ss[i], v) == Serial(c, LogAt(ss[i], v))
  {
    hide Step;
    RunInv(c, ss, ts, i);
    assert VertexOk(c, ss[i], v);
  }

  /** No two threads work on one vertex, nor on two vertices of one stripe, at the same time. */
  lemma Exclusive(c: Config, ss: seq<State>, ts: seq<Tid>, i: nat, t: Tid, u: Tid)
    requires Run(c, ss, ts) && i < |ss| && t in ss[i].threads && u in ss[i].threads
    requires !ss[i].threads[t].Waiting? && !ss[i].threads[u].Waiting?
    requires Stripe(c, ss[i].threads[t].v) == Stripe(c, ss[i].threads[u].v)
    ensures t == u
  {
    hide Step, VertexOk;
    RunInv(c, ss, ts, i);
    assert ThreadOk(c, ss[i], t) && ThreadOk(c, ss[i], u);
  }

  /** All IDs that a log of appends brings. */
  function Brought(log: seq<Op>): seq<Vertex> {
    if log == [] then [] else Brought(log[..|log| - 1]) + log[|log| - 1].list
  }

  lemma {:induction false} AppendsFlatten(c: Config, log: seq<Op>)
    requires forall k :: 0 <= k < |log| ==> log[k].Append?
    ensures Serial(c, log) == AppendUnique([], Brought(log), c.maxDegree)
  {
    if log != [] {
      var last := |log| - 1;
      AppendsFlatten(c, log[..last]);
      AppendTwice([], Brought(log[..last]), log[last].list, c.maxDegree);
    }
  }

  /** No edge is lost: if a vertex only saw appends and the distinct IDs they bring fit, its list
      holds exactly those; if they do not fit, it is filled to the maximum degree. */
  lemma NoEdgeLost(c: Config, ss: seq<State>, ts: seq<Tid>, i: nat, v: Vertex)
    requires Run(c, ss, ts) && i < |ss|
    requires forall t :: !Pending(ss[i], v, t)
    requires forall k :: 0 <= k < |LogAt(ss[i], v)| ==> LogAt(ss[i], v)[k].Append?
    ensures var brought := Elements(Brought(LogAt(ss[i], v)));
            if |brought| <= c.maxDegree then Elements(ListAt(ss[i], v)) == brought && Unique(ListAt(ss[i], v))
            else |ListAt(ss[i], v)| == c.maxDegree && Elements(ListAt(ss[i], v)) <= brought
  {
    hide Step, Init, Serial;
    Serializable(c, ss, ts, i, v);
    var log := LogAt(ss[i], v);
    AppendsFlatten(c, log);
    AppendUnion<Vertex>([], Brought(log), c.maxDegree);
    AppendWithin<Vertex>([], Brought(log), c.maxDegree);
    AppendExtends<Vertex>([], Brought(log), c.maxDegree);
    assert Elements<Vertex>([]) == {};
    assert Elements<Vertex>([]) + Elements(Brought(log)) == Elements(Brought(log));
  }

  // ---- The locks are given back ----

  ghost predicate PastLock(c: Config, s: State, t: Tid, stripe: nat) {
    t in s.threads && !s.threads[t].Waiting? && Stripe(c, s.threads[t].v) == stripe
  }

  /** Whoever owns a stripe is past its lock. */
  ghost predicate OwnersOk(c: Config, s: State) {
    forall stripe :: stripe in s.owner ==> PastLock(c, s, s.owner[stripe], stripe)
  }

  lemma StepOwners(c: Config, s: State, t: Tid, s': State)
    requires OwnersOk(c, s) && Inv(c, s) && Step(c, s, t, s')
    ensures OwnersOk(c, s')
  {
    hide VertexOk, Serial, Stripe, Apply, Skips;
    if t in s.threads {
      assert ThreadOk(c, s, t);
    }
    forall stripe | stripe in s'.owner
      ensures PastLock(c, s', s'.owner[stripe], stripe)
    {
      if stripe in s.owner {
        assert PastLock(c, s, s.owner[stripe], stripe);
      }
    }
  }

  lemma {:induction false} RunOwners(c: Config, ss: seq<State>, ts: seq<Tid>, i: nat)
    requires Run(c, ss, ts) && i < |ss|
    ensures OwnersOk(c, ss[i])
  {
    hide Step, Inv, Stripe;
    if i > 0 {
      RunOwners(c, ss, ts, i - 1);
      RunInv(c, ss, ts, i - 1);
      assert Step(c, ss[i - 1], ts[i - 1], ss[i]);
      StepOwners(c, ss[i - 1], ts[i - 1], ss[i]);
    }
  }

  /** A stripe is owned if and only if some thread is past its lock, and then by that thread. */
  lemma OwnedIff(c: Config, ss: seq<State>, ts: seq<Tid>, i: nat, stripe: nat, t: Tid)
    requires Run(c, ss, ts) && i < |ss|
    ensures (stripe in ss[i].owner && ss[i].owner[stripe] == t) <==> PastLock(c, ss[i], t, stripe)
  {
    hide Step, VertexOk, Stripe;
    RunOwners(c, ss, ts, i);
    RunInv(c, ss, ts, i);
    if PastLock(c, ss[i], t, stripe) {
      assert ThreadOk(c, ss[i], t);
    }
  }

  ghost predicate Leads(c: Config, s: State, s': State) {
    exists ss: seq<State>, ts: seq<Tid> ::
      && |ss| == |ts| + 1 && ss[0] == s && ss[|ts|] == s'
      && forall i :: 0 <= i < |ts| ==> Step(c, ss[i], ts[i], ss[i + 1])
  }

  lemma LeadsHere(c: Config, s: State)
    ensures Leads(c, s, s)
  {
    var ss, ts: seq<Tid> := [s], [];
    assert |ss| == |ts| + 1 && ss[0] == s && ss[|ts|] == s;
  }

  lemma LeadsOn(c: Config, s: State, s1: State, t: Tid, s2: State)
    requires Leads(c, s, s1) && Step(c, s1, t, s2)
    ensures Leads(c, s, s2)
  {
    hide Step;
    var ss: seq<State>, ts: seq<Tid> :|
      && |ss| == |ts| + 1 && ss[0] == s && ss[|ts|] == s1
      && forall i :: 0 <= i < |ts| ==> Step(c, ss[i], ts[i], ss[i + 1]);
    var ss', ts' := ss + [s2], ts + [t];
    assert |ss'| == |ts'| + 1 && ss'[0] == s && ss'[|ts'|] == s2;
  }

  /** A thread past the lock can come to its end, which frees its stripe and nothing else. */
  lemma Releases(c: Config, s0: State, s: State, t: Tid) returns (s': State)
    requires Leads(c, s0, s) && t in s.threads && !s.threads[t].Waiting?
    ensures Leads(c, s0, s') && s'.threads == s.threads - {t} && s'.log == s.log
    ensures s'.owner == s.owner - {Stripe(c, s.threads[t].v)}
  {
    hide Leads, Stripe, Apply, Skips;
    var v := s.threads[t].v;
    var s1 := s;
    if s.threads[t].Locked? {
      s1 := s.(threads := s.threads[t := Loaded(v, s.threads[t].op, ListAt(s, v))]);
      assert Load(s, t, s1);
      LeadsOn(c, s0, s, t, s1);
    }
    var s2 := s1;
    if s1.threads[t].Loaded? {
      var pc := s1.threads[t];
      s2 := s1.(threads := s1.threads[t := Stored(v)],
                lists := if Skips(c, pc.list, pc.op) then s1.lists else s1.lists[v := Apply(c, pc.list, pc.op)]);
      assert Store(c, s1, t, s2);
      LeadsOn(c, s0, s1, t, s2);
    }
    s' := s2.(threads := s2.threads - {t}, owner := s2.owner - {Stripe(c, v)});
    assert Release(c, s2, t, s');
    LeadsOn(c, s0, s2, t, s');
    assert s'.threads == s.threads - {t};
  }

  /** From every reachable state, any operation that waits for its lock can come to be done: it takes
      its place at the end of the log, whoever has the lock now. */
  lemma CanFinish(c: Config, ss: seq<State>, ts: seq<Tid>, i: nat, t: Tid) returns (s': State)
    requires Run(c, ss, ts) && i < |ss| && t in ss[i].threads && ss[i].threads[t].Waiting?
    ensures Leads(c, ss[i], s') && t !in s'.threads
    ensures var pc := ss[i].threads[t]; LogAt(s', pc.v) == LogAt(ss[i], pc.v) + [pc.op]
  {
    var s := ss[i];
    var pc := s.threads[t];
    RunOwners(c, ss, ts, i);
    LeadsHere(c, s);
    hide Run, Leads, Stripe;
    var s1 := s;
    if Stripe(c, pc.v) in s.owner {
      assert PastLock(c, s, s.owner[Stripe(c, pc.v)], Stripe(c, pc.v));
      s1 := Releases(c, s, s, s.owner[Stripe(c, pc.v)]);
    }
    var s2 := s1.(owner := s1.owner[Stripe(c, pc.v) := t], threads := s1.threads[t := Locked(pc.v, pc.op)],
                  log := s1.log[pc.v := LogAt(s1, pc.v) + [pc.op]]);
    assert Acquire(c, s1, t, s2);
    LeadsOn(c, s, s1, t, s2);
    s' := Releases(c, s, s2, t);
  }
}
