/**
 Making the index ready: any number of callers race to set the start point, guarded by one atomic
 state word. Loads, compare-exchanges, initialisations and stores are separate steps.
 */
module IndexReady {

  type Tid = nat

  datatype Phase = NoStartPoints | SettingStartPoints | Ready

  datatype Pc =
    | Loading          // about to load the state
    | Exchanging       // saw NoStartPoints: about to compare-exchange it
    | Initializing     // won: running the initialiser
    | Failing          // it failed: about to go back to NoStartPoints
    | Succeeding       // it worked: about to store Ready

  datatype Event =
    | InitStarts(t: Tid)
    | InitFails(t: Tid)
    | InitSucceeds(t: Tid)
    | ReturnsNone(t: Tid)     // the caller may use the index
    | ReturnsError(t: Tid)
    | Silent

  datatype State = State(phase: Phase, threads: map<Tid, Pc>)

  ghost predicate Init(s: State) {
    !s.phase.SettingStartPoints? && s.threads == map[]
  }

  ghost predicate Step(s: State, e: Event, s': State) {
    || (exists t: Tid :: t !in s.threads && e == Silent && s' == s.(threads := s.threads[t := Loading]))
    || (exists t: Tid :: t in s.threads && ThreadStep(s, t, e, s'))
  }

  ghost predicate ThreadStep(s: State, t: Tid, e: Event, s': State)
    requires t in s.threads
  {
    match s.threads[t]
    case Loading =>
      (match s.phase
       case Ready => e == ReturnsNone(t) && s' == s.(threads := s.threads - {t})
       case SettingStartPoints => e == Silent && s' == s
       case NoStartPoints => e == Silent && s' == s.(threads := s.threads[t := Exchanging]))
    case Exchanging =>
      if s.phase.NoStartPoints? then
        e == InitStarts(t) && s' == State(SettingStartPoints, s.threads[t := Initializing])
      else
        e == Silent && s' == s.(threads := s.threads[t := Loading])
    case Initializing =>
      || (e == InitFails(t) && s' == s.(threads := s.threads[t := Failing]))
      || (e == InitSucceeds(t) && s' == s.(threads := s.threads[t := Succeeding]))
    case Failing => e == ReturnsError(t) && s' == State(NoStartPoints, s.threads - {t})
    case Succeeding => e == ReturnsNone(t) && s' == State(Ready, s.threads - {t})
  }

  ghost predicate Run(ss: seq<State>, es: seq<Event>) {
    && |ss| == |es| + 1
    && Init(ss[0])
    && forall i :: 0 <= i < |es| ==> Step(ss[i], es[i], ss[i + 1])
  }

  /** In charge of the state word: from winning the exchange to the store that ends it. */
  predicate InCharge(pc: Pc) {
    pc.Initializing? || pc.Failing? || pc.Succeeding?
  }

  ghost predicate SomeInCharge(threads: map<Tid, Pc>) {
    exists t :: t in threads && InCharge(threads[t])
  }

  ghost predicate Inv(s: State) {
    && (s.phase.SettingStartPoints? <==> SomeInCharge(s.threads))
    && (forall t, u :: t in s.threads && u in s.threads && InCharge(s.threads[t]) && InCharge(s.threads[u]) ==> t == u)
  }

  /** A thread that moves does not change what the others have. */
  lemma MoveInCharge(a: map<Tid, Pc>, b: map<Tid, Pc>, t: Tid)
    requires forall u :: u != t ==> (u in a <==> u in b) && (u in a ==> a[u] == b[u])
    requires t in a && InCharge(a[t]) && forall u :: u in a && InCharge(a[u]) ==> u == t
    ensures SomeInCharge(b) <==> t in b && InCharge(b[t])
  {
  }

  lemma LeadInv(s: State, t: Tid, e: Event, s': State)
    requires Inv(s) && t in s.threads && InCharge(s.threads[t]) && ThreadStep(s, t, e, s')
    ensures Inv(s')
  {
    MoveInCharge(s.threads, s'.threads, t);
  }

  lemma CallInv(s: State, t: Tid, e: Event, s': State)
    requires Inv(s) && t in s.threads && !InCharge(s.threads[t]) && ThreadStep(s, t, e, s')
    ensures Inv(s')
  {
    if SomeInCharge(s.threads) {
      var u :| u in s.threads && InCharge(s.threads[u]);
      assert u in s'.threads && InCharge(s'.threads[u]);
    } else if s'.phase.SettingStartPoints? {
      assert InCharge(s'.threads[t]);
    }
  }

  lemma StartInv(s: State, t: Tid, s': State)
    requires Inv(s) && t !in s.threads && s' == s.(threads := s.threads[t := Loading])
    ensures Inv(s')
  {
    if u :| u in s.threads && InCharge(s.threads[u]) {
      assert u in s'.threads && InCharge(s'.threads[u]);
    }
  }

  lemma StepInv(s: State, e: Event, s': State)
    requires Inv(s) && Step(s, e, s')
    ensures Inv(s')
  {
    hide Inv, ThreadStep;
    if t :| t in s.threads && ThreadStep(s, t, e, s') {
      if InCharge(s.threads[t]) {
        LeadInv(s, t, e, s');
      } else {
        CallInv(s, t, e, s');
      }
    } else {
      var t :| t !in s.threads && s' == s.(threads := s.threads[t := Loading]);
      StartInv(s, t, s');
    }
  }

  lemma {:induction false} RunInv(ss: seq<State>, es: seq<Event>, i: nat)
    requires Run(ss, es) && i < |ss|
    ensures Inv(ss[i])
  {
    if i > 0 {
      RunInv(ss, es, i - 1);
      assert Step(ss[i - 1], es[i - 1], ss[i]);
      hide Inv, Step;
      StepInv(ss[i - 1], es[i - 1], ss[i]);
    }
  }

  /** The word says that the start point is being set if and only if some thread is in charge of it,
      however many initialisers have failed. */
  lemma WordTells(ss: seq<State>, es: seq<Event>, i: nat)
    requires Run(ss, es) && i < |ss|
    ensures ss[i].phase.SettingStartPoints? <==> SomeInCharge(ss[i].threads)
  {
    hide Step;
    RunInv(ss, es, i);
  }

  /** Initialisers never overlap. */
  lemma InitExclusive(ss: seq<State>, es: seq<Event>, i: nat, t: Tid, u: Tid)
    requires Run(ss, es) && i < |ss| && t in ss[i].threads && u in ss[i].threads
    ensures ss[i].threads[t].Initializing? && ss[i].threads[u].Initializing? ==> t == u
  {
    RunInv(ss, es, i);
  }

  /** A state past a successful initialisation: Ready, or about to be. */
  ghost predicate Won(s: State) {
    s.phase.Ready? || exists t :: t in s.threads && s.threads[t].Succeeding?
  }

  lemma WonStays(s: State, e: Event, s': State)
    requires Inv(s) && Step(s, e, s')
    ensures Won(s) ==> Won(s') && !e.InitSucceeds? && !e.InitStarts? && !e.InitFails?
    ensures s.phase.Ready? ==> s'.phase.Ready?
    ensures e.InitSucceeds? ==> Won(s')
  {
    if t :| t in s.threads && ThreadStep(s, t, e, s') {
      if e.InitSucceeds? {
        assert s'.threads[t].Succeeding?;
      }
      if u :| u in s.threads && s.threads[u].Succeeding? && u != t {
        assert u in s'.threads && s'.threads[u].Succeeding?;
      }
    } else {
      if u :| u in s.threads && s.threads[u].Succeeding? {
        assert u in s'.threads && s'.threads[u].Succeeding?;
      }
    }
  }

  lemma {:induction false} WonForever(ss: seq<State>, es: seq<Event>, i: nat, j: nat)
    requires Run(ss, es) && i <= j < |ss|
    ensures Won(ss[i]) ==> Won(ss[j])
    ensures ss[i].phase.Ready? ==> ss[j].phase.Ready?
  {
    if i < j {
      WonForever(ss, es, i, j - 1);
      RunInv(ss, es, j - 1);
      assert Step(ss[j - 1], es[j - 1], ss[j]);
      WonStays(ss[j - 1], es[j - 1], ss[j]);
    }
  }

  /** Initialisation succeeds at most once, and nobody starts one after that, however many failed
      before; the Ready state is never left. */
  lemma SucceedsOnce(ss: seq<State>, es: seq<Event>, i: nat, j: nat)
    requires Run(ss, es) && i < j < |es| && es[i].InitSucceeds?
    ensures !es[j].InitSucceeds? && !es[j].InitStarts? && !es[j].InitFails?
  {
    RunInv(ss, es, i);
    RunInv(ss, es, j);
    assert Step(ss[i], es[i], ss[i + 1]) && Step(ss[j], es[j], ss[j + 1]);
    WonStays(ss[i], es[i], ss[i + 1]);
    WonForever(ss, es, i + 1, j);
    WonStays(ss[j], es[j], ss[j + 1]);
  }

  /** A state before any success is not past one. */
  lemma {:induction false} NotWonWithoutSuccess(ss: seq<State>, es: seq<Event>, i: nat)
    requires Run(ss, es) && i < |ss| && !ss[0].phase.Ready?
    requires forall k :: 0 <= k < i ==> !es[k].InitSucceeds?
    ensures !Won(ss[i])
  {
    if i > 0 {
      NotWonWithoutSuccess(ss, es, i - 1);
      assert Step(ss[i - 1], es[i - 1], ss[i]);
    }
  }

  /** A caller is let through only once the index is Ready, for good, and if it was not so from
      the start then some initialisation has succeeded before. */
  lemma LetThroughWhenReady(ss: seq<State>, es: seq<Event>, i: nat, j: nat)
    requires Run(ss, es) && i < |es| && es[i].ReturnsNone? && i < j < |ss|
    ensures ss[j].phase.Ready?
    ensures ss[0].phase.Ready? || exists k :: 0 <= k < i && es[k].InitSucceeds?
  {
    assert Step(ss[i], es[i], ss[i + 1]);
    WonForever(ss, es, i + 1, j);
    if !ss[0].phase.Ready? && forall k :: 0 <= k < i ==> !es[k].InitSucceeds? {
      NotWonWithoutSuccess(ss, es, i);
    }
  }

  /** A thread whose initialiser failed is the only one to return an error. */
  lemma {:induction false} FailingFailed(ss: seq<State>, es: seq<Event>, i: nat, t: Tid)
    requires Run(ss, es) && i < |ss| && t in ss[i].threads && ss[i].threads[t].Failing?
    ensures exists k :: 0 <= k < i && es[k] == InitFails(t)
  {
    if i > 0 {
      assert Step(ss[i - 1], es[i - 1], ss[i]);
      if t in ss[i - 1].threads && ss[i - 1].threads[t].Failing? {
        FailingFailed(ss, es, i - 1, t);
      } else {
        assert es[i - 1] == InitFails(t);
      }
    }
  }

  /** A caller gets an error only if its own initialiser failed; nobody else's failure, and no wait
      for another thread, turns it away. */
  lemma ErrorIsOwn(ss: seq<State>, es: seq<Event>, i: nat, t: Tid)
    requires Run(ss, es) && i < |es| && es[i] == ReturnsError(t)
    ensures exists k :: 0 <= k < i && es[k] == InitFails(t)
  {
    assert Step(ss[i], es[i], ss[i + 1]);
    FailingFailed(ss, es, i, t);
  }

  // ---- Nobody is shut out ----

  /** Some schedule leads from `s` to `s'` with these events. */
  ghost predicate Leads(s: State, es: seq<Event>, s': State) {
    exists ss: seq<State> ::
      && |ss| == |es| + 1 && ss[0] == s && ss[|es|] == s'
      && forall i :: 0 <= i < |es| ==> Step(ss[i], es[i], ss[i + 1])
  }

  lemma LeadsHere(s: State)
    ensures Leads(s, [], s)
  {
    var ss := [s];
    assert |ss| == 1 && ss[0] == s;
  }

  lemma LeadsOn(s: State, es: seq<Event>, s1: State, e: Event, s2: State)
    requires Leads(s, es, s1) && Step(s1, e, s2)
    ensures Leads(s, es + [e], s2)
  {
    hide Step;
    var ss: seq<State> :|
      && |ss| == |es| + 1 && ss[0] == s && ss[|es|] == s1
      && forall i :: 0 <= i < |es| ==> Step(ss[i], es[i], ss[i + 1]);
    var more := ss + [s2];
    assert |more| == |es + [e]| + 1 && more[0] == s && more[|es + [e]|] == s2;
  }

  lemma LeadsMove(s: State, es: seq<Event>, s1: State, t: Tid, e: Event, s2: State)
    requires Leads(s, es, s1) && t in s1.threads && ThreadStep(s1, t, e, s2)
    ensures Leads(s, es + [e], s2)
  {
    hide Leads, ThreadStep;
    LeadsOn(s, es, s1, e, s2);
  }

  /** A caller, new or waiting. */
  predicate Calling(s: State, t: Tid) {
    t !in s.threads || !InCharge(s.threads[t])
  }

  /** A caller gets to the point where it has just seen the word, if that is not being changed. */
  lemma ComesToLoad(s: State, t: Tid) returns (es: seq<Event>)
    requires Calling(s, t) && !s.phase.SettingStartPoints?
    ensures Leads(s, es, s.(threads := s.threads[t := if s.phase.Ready? then Loading else Exchanging]))
  {
    LeadsHere(s);
    hide Leads;
    es := [];
    var s1 := s.(threads := s.threads[t := Loading]);
    if t !in s.threads {
      LeadsOn(s, es, s, Silent, s1);
      es := es + [Silent];
    } else if s.threads[t].Exchanging? && s.phase.Ready? {
      LeadsMove(s, es, s, t, Silent, s1);
      es := es + [Silent];
    } else {
      assert s.threads == s.threads[t := s.threads[t]];
    }
    if s.phase.NoStartPoints? && (t !in s.threads || s.threads[t].Loading?) {
      var s2 := s.(threads := s.threads[t := Exchanging]);
      assert s1.threads[t := Exchanging] == s2.threads;
      LeadsMove(s, es, s1, t, Silent, s2);
      es := es + [Silent];
    }
  }

  /** Whoever calls while nothing has succeeded and nobody is in charge can come to initialise, and
      be let through for it. */
  lemma CanInitialise(ss: seq<State>, es: seq<Event>, i: nat, t: Tid) returns (more: seq<Event>, s': State)
    requires Run(ss, es) && i < |ss| && !Won(ss[i]) && Calling(ss[i], t)
    requires forall u :: u in ss[i].threads ==> !InCharge(ss[i].threads[u])
    ensures Leads(ss[i], more, s') && s'.phase.Ready?
    ensures InitStarts(t) in more && InitSucceeds(t) in more && |more| > 0 && more[|more| - 1] == ReturnsNone(t)
  {
    WordTells(ss, es, i);
    more, s' := Initialises(ss[i], t);
  }

  lemma Initialises(s: State, t: Tid) returns (es: seq<Event>, s': State)
    requires s.phase.NoStartPoints? && Calling(s, t)
    ensures Leads(s, es, s') && s' == State(Ready, s.threads - {t})
    ensures InitStarts(t) in es && InitSucceeds(t) in es && |es| > 0 && es[|es| - 1] == ReturnsNone(t)
  {
    es := ComesToLoad(s, t);
    hide Leads;
    var s1 := s.(threads := s.threads[t := Exchanging]);
    var s2 := State(SettingStartPoints, s1.threads[t := Initializing]);
    LeadsMove(s, es, s1, t, InitStarts(t), s2);
    var s3 := s2.(threads := s2.threads[t := Succeeding]);
    LeadsMove(s, es + [InitStarts(t)], s2, t, InitSucceeds(t), s3);
    s' := State(Ready, s3.threads - {t});
    LeadsMove(s, es + [InitStarts(t)] + [InitSucceeds(t)], s3, t, ReturnsNone(t), s');
    es := es + [InitStarts(t)] + [InitSucceeds(t)] + [ReturnsNone(t)];
    assert s'.threads == s.threads - {t};
  }

  /** Whatever happened before, and whoever is in charge, a caller can come to be let through. */
  lemma CanPass(ss: seq<State>, es: seq<Event>, i: nat, t: Tid) returns (more: seq<Event>, s': State)
    requires Run(ss, es) && i < |ss| && Calling(ss[i], t)
    ensures Leads(ss[i], more, s') && |more| > 0 && more[|more| - 1] == ReturnsNone(t)
  {
    WordTells(ss, es, i);
    hide Run;
    var s := ss[i];
    if s.phase.SettingStartPoints? {
      var u :| u in s.threads && InCharge(s.threads[u]);
      var before, s1 := GivesUpCharge(s, u);
      assert Calling(s1, t);
      var after;
      after, s' := Passes(s1, t);
      LeadsFurther(s, before, s1, after, s');
      more := before + after;
    } else {
      more, s' := Passes(s, t);
    }
  }

  /** The thread in charge comes to its end. */
  lemma GivesUpCharge(s: State, u: Tid) returns (es: seq<Event>, s': State)
    requires s.phase.SettingStartPoints? && u in s.threads && InCharge(s.threads[u])
    ensures Leads(s, es, s') && !s'.phase.SettingStartPoints? && s'.threads == s.threads - {u}
  {
    LeadsHere(s);
    hide Leads;
    es := [];
    var s1 := s;
    if s.threads[u].Initializing? {
      s1 := s.(threads := s.threads[u := Failing]);
      LeadsMove(s, es, s, u, InitFails(u), s1);
      es := es + [InitFails(u)];
    }
    if s1.threads[u].Failing? {
      s' := State(NoStartPoints, s1.threads - {u});
      LeadsMove(s, es, s1, u, ReturnsError(u), s');
      es := es + [ReturnsError(u)];
    } else {
      s' := State(Ready, s1.threads - {u});
      LeadsMove(s, es, s1, u, ReturnsNone(u), s');
      es := es + [ReturnsNone(u)];
    }
    assert s'.threads == s.threads - {u};
  }

  lemma Passes(s: State, t: Tid) returns (es: seq<Event>, s': State)
    requires !s.phase.SettingStartPoints? && Calling(s, t)
    ensures Leads(s, es, s') && |es| > 0 && es[|es| - 1] == ReturnsNone(t)
  {
    if s.phase.NoStartPoints? {
      es, s' := Initialises(s, t);
    } else {
      es := ComesToLoad(s, t);
      hide Leads;
      var s1 := s.(threads := s.threads[t := Loading]);
      s' := s1.(threads := s1.threads - {t});
      LeadsMove(s, es, s1, t, ReturnsNone(t), s');
      es := es + [ReturnsNone(t)];
    }
  }

  lemma LeadsFurther(s: State, es: seq<Event>, s1: State, more: seq<Event>, s2: State)
    requires Leads(s, es, s1) && Leads(s1, more, s2)
    ensures Leads(s, es + more, s2)
  {
    hide Step;
    var ss: seq<State> :|
      && |ss| == |es| + 1 && ss[0] == s && ss[|es|] == s1
      && forall i :: 0 <= i < |es| ==> Step(ss[i], es[i], ss[i + 1]);
    var ts: seq<State> :|
      && |ts| == |more| + 1 && ts[0] == s1 && ts[|more|] == s2
      && forall i :: 0 <= i < |more| ==> Step(ts[i], more[i], ts[i + 1]);
    var all := ss + ts[1..];
    assert |all| == |es + more| + 1 && all[0] == s && all[|es + more|] == s2;
    forall i | 0 <= i < |es + more|
      ensures Step(all[i], (es + more)[i], all[i + 1])
    {
      if i >= |es| {
        assert Step(ts[i - |es|], more[i - |es|], ts[i - |es| + 1]);
      } else {
        assert Step(ss[i], es[i], ss[i + 1]);
      }
    }
  }
}
