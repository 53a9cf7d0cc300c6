/** Schedules of the provider put together step by step. */
module Schedules {
  import opened Provider

  /** Some schedule leads from `s` to `s'`. */
  ghost predicate Leads(c: Config, s: State, s': State) {
    exists ss: seq<State> ::
      && |ss| > 0 && ss[0] == s && ss[|ss| - 1] == s'
      && forall i :: 0 <= i < |ss| - 1 ==> Step(c, ss[i], ss[i + 1])
  }

  lemma LeadsHere(c: Config, s: State)
    ensures Leads(c, s, s)
  {
    var ss := [s];
    assert |ss| > 0 && ss[0] == s && ss[|ss| - 1] == s;
  }

  lemma LeadsOn(c: Config, s: State, t: Tid, s1: State, s2: State)
    requires Leads(c, s, s1) && ThreadStep(c, s1, t, s2)
    ensures Leads(c, s, s2)
  {
    hide Leads, ThreadStep;
    assert Step(c, s1, s2);
    LeadsStep(c, s, s1, s2);
  }

  lemma LeadsStep(c: Config, s: State, s1: State, s2: State)
    requires Leads(c, s, s1) && Step(c, s1, s2)
    ensures Leads(c, s, s2)
  {
    hide Step;
    var ss: seq<State> :|
      && |ss| > 0 && ss[0] == s && ss[|ss| - 1] == s1
      && forall i :: 0 <= i < |ss| - 1 ==> Step(c, ss[i], ss[i + 1]);
    var more := ss + [s2];
    assert |more| > 0 && more[0] == s && more[|more| - 1] == s2;
  }

  /** What is reachable from a start is on a run. */
  lemma OnRun(c: Config, s: State, s': State)
    requires c.careful && Init(c, s) && Leads(c, s, s')
    ensures exists ss: seq<State> :: Run(c, ss) && ss[|ss| - 1] == s'
  {
    hide Init, Step;
    var ss: seq<State> :|
      && |ss| > 0 && ss[0] == s && ss[|ss| - 1] == s'
      && forall i :: 0 <= i < |ss| - 1 ==> Step(c, ss[i], ss[i + 1]);
    assert Run(c, ss) && ss[|ss| - 1] == s';
  }
}
