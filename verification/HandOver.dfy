/**
 When the index comes to operate on quantized vectors. The last step of the backfill stores a flag
 that says so; if the write fails, nobody tries again. From every reachable state it is decided
 whether quantized operation can still come.
 */
module HandOver {
  import opened BackfillRuns
  import opened Provider
  import opened ProviderProofs
  import opened Schedules
  import opened TowardsReuse
  import opened TrainingBlocked
  import Settling

  /** Quantized operation has come; or the flag can still be written, and the backfill is under way
      or can still come to run. */
  ghost predicate CanHandOver(c: Config, s: State) {
    || s.fill.finish.Complete?
    || (c.quantizer.Untrained? && !s.fill.finish.NoFlag? && (s.fill.quantOn || MayTrain(c, s)))
  }

  // ---- How it comes ----

  lemma FlagIsSet(c: Config, s0: State, s: State) returns (s': State)
    requires Leads(c, s0, s) && s.fill.finish.SetFlag?
    ensures Leads(c, s0, s') && AllQuantized(s') && s' == s.(fill := s'.fill)
  {
    hide Leads;
    s' := s.(fill := s.fill.(finish := Complete));
    assert FinishStep(c, s, s');
    hide FinishStep;
    assert Step(c, s, s');
    LeadsStep(c, s0, s, s');
  }

  /** The backfill comes to its flag without a single code written. */
  lemma ComesToFlag(c: Config, s0: State, s: State) returns (s': State)
    requires Leads(c, s0, s) && Sound(c, s) && CanHandOver(c, s) && !AllQuantized(s)
    ensures Leads(c, s0, s') && s'.fill.finish.SetFlag? && s'.alloc.reuse && FilledUp(s'.fill) && Keeps(s, s')
  {
    assert PhaseOk(c, s.alloc, s.fill);
    hide Leads, MayTrain, AllDone, Settling.LiveHasVector, Settling.InsertsAlone, VisitOk;
    s' := s;
    if !s.alloc.reuse && s.fill.quantOn {
      s' := BackfillEnds(c, s0, s);
      ReuseKeeps(s, s');
    } else if !s.alloc.reuse {
      SoundBefore(c, s);
      s' := FromUntrained(c, s0, s);
    }
  }

  /** The index goes quantized. */
  lemma HandsOver(c: Config, s0: State, s: State) returns (s': State)
    requires Leads(c, s0, s) && Sound(c, s) && CanHandOver(c, s)
    ensures Leads(c, s0, s') && AllQuantized(s') && Keeps(s, s')
  {
    if AllQuantized(s) {
      s' := s;
      SameKeeps(c, s);
    } else {
      hide Leads, CanHandOver, Sound;
      var s1 := ComesToFlag(c, s0, s);
      s' := FlagIsSet(c, s0, s1);
      assert Keeps(s, s1) && Live(s') == Live(s1);
    }
  }

  lemma SameKeeps(c: Config, s: State)
    requires Sound(c, s)
    ensures Keeps(s, s)
  {
    hide Settling.LiveHasVector, Settling.InsertsAlone, VisitOk;
  }

  // ---- When it never comes ----

  /** The backfill is over, and its flag could not be stored; or there is nothing to quantize with. */
  ghost predicate Final(c: Config, s: State) {
    || (s.fill.finish.NoFlag? && FilledUp(s.fill))
    || (c.quantizer.NoQuantizer? && s.fill.finish.Waiting? && s.fill.tasks == [])
  }

  lemma StepFinal(c: Config, s: State, s': State)
    requires Final(c, s) && Step(c, s, s')
    ensures Final(c, s')
  {
    hide ThreadStep, VisitStep;
    if t :| ThreadStep(c, s, t, s') {
      ThreadFill(c, s, t, s');
    } else if VisitStep(c, s, s') {
      VisitOnly(c, s, s');
    }
  }

  lemma ThreadFill(c: Config, s: State, t: Tid, s': State)
    requires ThreadStep(c, s, t, s')
    ensures s'.fill == s.fill
  {
    hide Live, UnmapFails, StartDelete;
    if StartDelete(c, s, t, s') {
      StartMoves(c, s, t, s');
    } else if t in s.threads && DeleteStep(s, t, s') {
      DeleteAt(s, t, s');
      hide DeleteStep;
    }
  }

  /** Whatever happens while the index is open, it will not operate on quantized vectors. */
  lemma FinalForever(c: Config, s: State, s': State)
    requires Final(c, s) && Leads(c, s, s')
    ensures Final(c, s') && !AllQuantized(s')
  {
    hide Step, Final;
    var ss: seq<State> :|
      && |ss| > 0 && ss[0] == s && ss[|ss| - 1] == s'
      && forall i :: 0 <= i < |ss| - 1 ==> Step(c, ss[i], ss[i + 1]);
    StepsFinal(c, ss, |ss| - 1);
    FinalFinish(c, s');
  }

  lemma FinalFinish(c: Config, s: State)
    requires Final(c, s)
    ensures !AllQuantized(s)
  {
  }

  lemma {:induction false} StepsFinal(c: Config, ss: seq<State>, n: nat)
    requires n < |ss| && Final(c, ss[0])
    requires forall i :: 0 <= i < |ss| - 1 ==> Step(c, ss[i], ss[i + 1])
    ensures Final(c, ss[n])
  {
    hide Step, Final;
    if n > 0 {
      StepsFinal(c, ss, n - 1);
      assert Step(c, ss[n - 1], ss[n]);
      StepFinal(c, ss[n - 1], ss[n]);
    }
  }

  /** From a reachable state, and whether or not callers are careful from then on, the index can
      come to operate on quantized vectors if and only if it does already, or its quantizer is
      trained or can still be, and its flag has not failed to be written. */
  lemma HandOverIff(c: Config, ss: seq<State>, n: nat)
    requires Run(Careful(c), ss) && n < |ss|
    ensures (exists s' :: Leads(c, ss[n], s') && AllQuantized(s')) <==> CanHandOver(c, ss[n])
  {
    var s := ss[n];
    ReachableSound(c, ss, n);
    LeadsHere(c, s);
    hide Run, Leads, MayTrain;
    if CanHandOver(c, s) {
      hide Sound;
      var s' := HandsOver(c, s, s);
    } else {
      Never(c, s);
      hide CanHandOver, Final, Barred;
      forall s' | Leads(c, s, s')
        ensures !AllQuantized(s')
      {
        if Final(c, s) {
          FinalForever(c, s, s');
        } else {
          BarredForever(c, s, s');
          BarredWaits(c, s');
        }
      }
    }
  }

  lemma Never(c: Config, s: State)
    requires Sound(c, s) && !CanHandOver(c, s)
    ensures Final(c, s) || Barred(c, s)
  {
    assert PhaseOk(c, s.alloc, s.fill);
    hide MayTrain, Settling.LiveHasVector, Settling.InsertsAlone, VisitOk, AllDone;
    if c.quantizer.Untrained? && !s.fill.finish.NoFlag? {
      SoundBefore(c, s);
      hide Sound, Before, Barred;
      MayNotBarred(c, s);
    }
  }

  lemma BarredWaits(c: Config, s: State)
    requires Barred(c, s)
    ensures s.fill.finish.Waiting?
  {
    hide NoVisitSucceeds, VisitHopeless;
  }

  /** From every reachable state in which quantized operation has not come but can, it can also be
      lost for good, with the backfill done and IDs reused: the flag cannot be stored. */
  lemma FlagNeverStored(c: Config, ss: seq<State>, n: nat) returns (s': State)
    requires Run(Careful(c), ss) && n < |ss| && CanHandOver(c, ss[n]) && !AllQuantized(ss[n])
    ensures Leads(c, ss[n], s') && Final(c, s') && s'.alloc.reuse
  {
    var s := ss[n];
    ReachableSound(c, ss, n);
    LeadsHere(c, s);
    hide Run, Leads, MayTrain, AllDone;
    var s1 := ComesToFlag(c, s, s);
    s' := s1.(fill := s1.fill.(finish := NoFlag));
    assert FinishStep(c, s1, s');
    hide FinishStep;
    assert Step(c, s1, s');
    LeadsStep(c, s, s1, s');
  }
}
