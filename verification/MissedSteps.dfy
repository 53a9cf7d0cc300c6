/** Which vectors have no code, in terms of the steps of the run. */
module MissedSteps {
  import opened Provider
  import opened ProviderProofs

  /** The backfill fails on ID `i`, which has no code. */
  ghost predicate MissedAt(s: State, s': State, i: Iid) {
    && i !in s.store.quant
    && ((i == 0 && StartMiss(s, s')) || exists k: nat :: FillMiss(s, k, s') && s.fill.tasks[k].next == i)
  }

  /** ID `i` has no code in any of the states from `j` to `n`. */
  ghost predicate NoCodeFrom(ss: seq<State>, i: Iid, j: nat, n: nat)
    requires n < |ss|
  {
    forall m :: j <= m <= n ==> i !in ss[m].store.quant
  }

  ghost predicate MissedSince(ss: seq<State>, i: Iid, j: nat, n: nat)
    requires n < |ss|
  {
    j < n && MissedAt(ss[j], ss[j + 1], i) && NoCodeFrom(ss, i, j, n)
  }

  /** The index was opened without a code for `i`, or the backfill failed on it at some step, and no
      code has been written since. */
  ghost predicate NeverWritten(ss: seq<State>, i: Iid, n: nat)
    requires n < |ss|
  {
    (i in ss[0].missed && NoCodeFrom(ss, i, 0, n)) || exists j :: MissedSince(ss, i, j, n)
  }

  lemma MissedThen(s: State, s': State, i: Iid)
    requires MissedAt(s, s', i)
    ensures i in s'.missed && i !in s'.store.quant
  {
    hide WithTask, AtUnread;
  }

  /** An ID that was missed stays so until it has a code, and only a failing backfill adds one. */
  ghost predicate Carried(s: State, s': State, i: Iid) {
    && (i in s'.missed ==> i in s.missed || MissedAt(s, s', i))
    && (i in s.missed && i !in s'.store.quant ==> i in s'.missed)
  }

  lemma ThreadCarried(c: Config, s: State, t: Tid, s': State, i: Iid)
    requires ThreadStep(c, s, t, s')
    ensures Carried(s, s', i)
  {
    hide DeleteStep, Live, MissedAt;
    if t in s.threads && DeleteStep(s, t, s') {
      DeleteAt(s, t, s');
    }
  }

  lemma FillCarried(c: Config, s: State, k: nat, s': State, i: Iid)
    requires FillStep(c, s, k, s')
    ensures Carried(s, s', i)
  {
    hide WithTask, AtUnread;
  }

  lemma StepCarried(c: Config, s: State, s': State, i: Iid)
    requires Step(c, s, s')
    ensures Carried(s, s', i)
  {
    hide ThreadStep, VisitStep, FillStep, Carried;
    if t :| ThreadStep(c, s, t, s') {
      ThreadCarried(c, s, t, s', i);
    } else if VisitStep(c, s, s') {
      VisitOnly(c, s, s');
      UnchangedCarried(s, s', i);
    } else if k :| FillStep(c, s, k, s') {
      FillCarried(c, s, k, s', i);
    } else if StartMiss(s, s') {
      StartCarried(s, s', i);
    } else {
      hide Launched, WithTask;
      if FinishStep(c, s, s') && s.fill.finish.WriteStart? {
        CodeCarried(s, s', i);
      } else {
        UnchangedCarried(s, s', i);
      }
    }
  }

  lemma UnchangedCarried(s: State, s': State, i: Iid)
    requires s'.missed == s.missed
    ensures Carried(s, s', i)
  {
    hide MissedAt;
  }

  lemma StartCarried(s: State, s': State, i: Iid)
    requires StartMiss(s, s')
    ensures Carried(s, s', i)
  {
  }

  lemma CodeCarried(s: State, s': State, i: Iid)
    requires s'.missed == s.missed - {0} && 0 in s'.store.quant
    ensures Carried(s, s', i)
  {
    hide MissedAt;
  }

  lemma {:induction false} MissedIff(c: Config, ss: seq<State>, n: nat, i: Iid)
    requires Run(c, ss) && n < |ss|
    ensures i in ss[n].missed <==> NeverWritten(ss, i, n)
  {
    RunMissed(c, ss, n);
    hide Step, MissedAt;
    if n > 0 {
      MissedIff(c, ss, n - 1, i);
      assert Step(c, ss[n - 1], ss[n]);
      StepCarried(c, ss[n - 1], ss[n], i);
      if i in ss[n].missed {
        Written(ss, i, n);
      }
      if NeverWritten(ss, i, n) {
        Unwritten(ss, i, n);
      }
    }
  }

  lemma Written(ss: seq<State>, i: Iid, n: nat)
    requires 0 < n < |ss| && i !in ss[n].store.quant
    requires NeverWritten(ss, i, n - 1) || MissedAt(ss[n - 1], ss[n], i)
    ensures NeverWritten(ss, i, n)
  {
    var p := n - 1;
    if MissedAt(ss[p], ss[n], i) {
      assert MissedSince(ss, i, p, n);
    } else if j :| MissedSince(ss, i, j, p) {
      hide MissedAt;
      assert MissedSince(ss, i, j, n);
    }
  }

  lemma Unwritten(ss: seq<State>, i: Iid, n: nat)
    requires 0 < n < |ss| && NeverWritten(ss, i, n)
    requires Carried(ss[n - 1], ss[n], i) && (i in ss[n - 1].missed <==> NeverWritten(ss, i, n - 1))
    ensures i in ss[n].missed
  {
    if j :| MissedSince(ss, i, j, n) {
      if j == n - 1 {
        MissedThen(ss[n - 1], ss[n], i);
      } else {
        hide MissedAt;
        assert MissedSince(ss, i, j, n - 1);
      }
    }
  }

  /** Once the index goes quantized, a vector has no code if and only if the index was opened without
      one or the backfill failed on its ID at some step, and none has been written since; and a code
      it has is its own. */
  lemma CodeMissingIff(c: Config, ss: seq<State>, n: nat, e: Eid)
    requires Run(c, ss) && n < |ss| && AllQuantized(ss[n]) && e in ss[n].contents
    ensures e in ss[n].store.ints
    ensures ss[n].store.ints[e] !in ss[n].store.quant <==> NeverWritten(ss, ss[n].store.ints[e], n)
    ensures NeverWritten(ss, ss[n].store.ints[e], n) ||
            HasCode(c, ss[n].store, ss[n].store.ints[e], ss[n].contents[e])
  {
    QuantizedTheorem(c, ss, n, e);
    MissedIff(c, ss, n, ss[n].store.ints[e]);
  }
}
