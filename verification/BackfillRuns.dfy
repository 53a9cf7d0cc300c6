/**
 A backfill that runs to its end without writing a single code: every task passes over every ID,
 and the last one to finish fails on the start point too.
 */
module BackfillRuns {
  import opened Collections
  import opened Provider
  import opened ProviderProofs
  import opened Schedules
  import Backfill

  lemma BackgroundLeads(c: Config, s0: State, s: State, k: nat, s': State)
    requires Leads(c, s0, s) && BackgroundStep(c, s, k, s')
    ensures Leads(c, s0, s')
  {
    hide Leads, VisitStep, TrainedStep, LaunchStep, FillStep, DoneStep, FinishStep;
    assert Step(c, s, s');
    LeadsStep(c, s0, s, s');
  }

  /** Task `k` moves on by one ID. */
  lemma TaskMoves(c: Config, s0: State, s: State, k: nat) returns (missed: set<Iid>)
    requires Leads(c, s0, s) && k < |s.fill.tasks| && s.fill.tasks[k].Running?
    requires s.fill.tasks[k].read.Some? || AtUnread(s, k)
    ensures Leads(c, s0, s.(fill := WithTask(s.fill, k, Running(s.fill.tasks[k].next + 1, None)), missed := missed))
  {
    hide Leads, AtUnread;
    var next := s.fill.tasks[k].next;
    missed := if s.fill.tasks[k].read.None? && next !in s.store.vec then s.missed else Miss(s, next);
    var s' := s.(fill := WithTask(s.fill, k, Running(next + 1, None)), missed := missed);
    hide WithTask, Miss;
    assert FillSkip(s, k, s') || FillMiss(s, k, s');
    hide FillSkip, FillMiss;
    assert FillStep(c, s, k, s');
    hide FillStep;
    assert BackgroundStep(c, s, k, s');
    BackgroundLeads(c, s0, s, k, s');
  }

  function IdsLeft(s: State, k: nat): nat
    requires k < |s.fill.tasks| && s.fill.tasks[k].Running?
  {
    var end := Backfill.EndId(s.fill.maxId, |s.fill.tasks|, k);
    (if s.fill.tasks[k].next < end then end - s.fill.tasks[k].next else 0) + if s.fill.tasks[k].read.Some? then 1 else 0
  }

  /** Task `k` goes through its IDs and counts itself. */
  lemma {:induction false} TaskFinishes(c: Config, s0: State, s: State, k: nat) returns (missed: set<Iid>)
    requires Leads(c, s0, s) && k < |s.fill.tasks| && s.fill.tasks[k].Running?
    ensures Leads(c, s0, s.(fill := Counted(s.fill, k), missed := missed))
    decreases IdsLeft(s, k)
  {
    hide Leads, Backfill.EndId;
    if s.fill.tasks[k].read.Some? || AtUnread(s, k) {
      missed := TaskMoves(c, s0, s, k);
      var s1 := s.(fill := WithTask(s.fill, k, Running(s.fill.tasks[k].next + 1, None)), missed := missed);
      missed := TaskFinishes(c, s0, s1, k);
      assert s1.fill.tasks[k := Done] == s.fill.tasks[k := Done];
      assert Counted(s1.fill, k) == Counted(s.fill, k);
    } else {
      missed := s.missed;
      var s1 := s.(fill := Counted(s.fill, k));
      assert DoneStep(s, k, s1);
      hide DoneStep;
      assert BackgroundStep(c, s, k, s1);
      BackgroundLeads(c, s0, s, k, s1);
    }
  }

  /** What a task that is through leaves behind. */
  function Counted(fill: Fill, k: nat): Fill
    requires k < |fill.tasks|
  {
    WithTask(fill, k, Done).(completed := fill.completed + 1,
                             finish := if fill.completed + 1 == |fill.tasks| then WriteStart else fill.finish)
  }

  /** Some tasks are running, or the last one has just finished. */
  ghost predicate Working(fill: Fill) {
    && fill.completed == CountDone(fill.tasks)
    && fill.finish == if AllDone(fill.tasks) then WriteStart else Waiting
  }

  lemma {:induction false} TasksFinish(c: Config, s0: State, s: State) returns (fill: Fill, missed: set<Iid>)
    requires Leads(c, s0, s) && Working(s.fill)
    ensures Leads(c, s0, s.(fill := fill, missed := missed)) && fill.finish == WriteStart
    ensures AllDone(fill.tasks) && |fill.tasks| == |s.fill.tasks| && fill.quantOn == s.fill.quantOn
    decreases |s.fill.tasks| - CountDone(s.fill.tasks)
  {
    hide Leads;
    CountDoneFull(s.fill.tasks);
    if AllDone(s.fill.tasks) {
      fill, missed := s.fill, s.missed;
    } else {
      hide AllDone;
      var k := SomeRunning(s.fill.tasks);
      missed := TaskFinishes(c, s0, s, k);
      CountDoneUpdate(s.fill.tasks, k, Done);
      var s1 := s.(fill := Counted(s.fill, k), missed := missed);
      CountDoneFull(s1.fill.tasks);
      fill, missed := TasksFinish(c, s0, s1);
    }
  }

  lemma SomeRunning(tasks: seq<Task>) returns (k: nat)
    requires !AllDone(tasks)
    ensures k < |tasks| && tasks[k].Running?
  {
    k :| 0 <= k < |tasks| && !tasks[k].Done?;
  }

  /** The codes of the backfill are written, or missed. */
  ghost predicate FilledUp(fill: Fill) {
    fill.quantOn && fill.tasks != [] && AllDone(fill.tasks)
  }

  /** IDs are reused, and nothing else has changed but the record of training and backfill. */
  ghost predicate ReusesNow(s: State, s': State) {
    && s' == s.(alloc := s.alloc.(reuse := true), training := s'.training, fill := s'.fill, missed := s'.missed)
    && s'.fill.finish.SetFlag? && FilledUp(s'.fill)
  }

  /** From the end of the tasks on. */
  lemma Finishes(c: Config, s0: State, s: State) returns (s': State)
    requires Leads(c, s0, s) && (s.fill.finish.WriteStart? || s.fill.finish.EnableReuse?) && FilledUp(s.fill)
    ensures Leads(c, s0, s') && ReusesNow(s, s')
  {
    hide Leads;
    var s1 := if s.fill.finish.EnableReuse? then s
              else s.(fill := s.fill.(finish := EnableReuse), missed := Miss(s, 0));
    if s.fill.finish.WriteStart? {
      assert StartMiss(s, s1);
      assert BackgroundStep(c, s, 0, s1);
      BackgroundLeads(c, s0, s, 0, s1);
    }
    s' := s1.(fill := s1.fill.(finish := SetFlag), alloc := s1.alloc.(reuse := true));
    assert FinishStep(c, s1, s');
    hide FinishStep;
    assert BackgroundStep(c, s1, 0, s');
    BackgroundLeads(c, s0, s1, 0, s');
  }

  /** From the start of the tasks on. */
  lemma Works(c: Config, s0: State, s: State) returns (s': State)
    requires Leads(c, s0, s) && Working(s.fill) && s.fill.quantOn && s.fill.tasks != []
    ensures Leads(c, s0, s') && ReusesNow(s, s')
  {
    hide Leads, Working, AllDone;
    var fill, missed := TasksFinish(c, s0, s);
    s' := Finishes(c, s0, s.(fill := fill, missed := missed));
  }

  /** Of the tasks that Garnet asks for, those run that have an index up to the highest ID; each of
      them starts with nothing read. */
  lemma LaunchedIff(maxId: Iid, requested: nat, k: nat)
    requires requested > 0 && maxId < U32_MAX
    ensures k < |Launched(maxId, requested)| <==> k < requested && k <= maxId
    ensures k < |Launched(maxId, requested)| ==>
              Launched(maxId, requested)[k].Running? && Launched(maxId, requested)[k].read.None?
  {
  }

  /** Together they cover every ID up to the highest, however many were asked for. */
  lemma LaunchedCover(maxId: Iid, requested: nat, id: Iid)
    requires requested > 0 && maxId < U32_MAX && id <= maxId
    ensures exists k :: && 0 <= k < |Launched(maxId, requested)| && Launched(maxId, requested)[k].Running?
                        && Launched(maxId, requested)[k].next <= id
                        && id < Backfill.EndId(maxId, |Launched(maxId, requested)|, k)
  {
    LaunchedIff(maxId, requested, 0);
    var tasks := Launched(maxId, requested);
    LaunchedIff(maxId, requested, maxId + 1);
    var k := Backfill.TaskOf(maxId, |tasks|, id);
    Backfill.Covered(maxId, |tasks|, id);
    hide Backfill.TaskOf, Backfill.StartId, Backfill.EndId;
    assert tasks[k].Running?;
  }

  /** From the training on, however many tasks are asked for. */
  lemma Launches(c: Config, s0: State, s: State, requested: nat) returns (s': State)
    requires requested > 0
    requires Leads(c, s0, s) && c.quantizer.Untrained? && s.fill.quantOn && s.fill.tasks == [] && s.fill.maxId < U32_MAX
    requires s.fill.completed == 0 && s.fill.finish == Waiting
    ensures Leads(c, s0, s') && ReusesNow(s, s')
  {
    hide Leads;
    var s1 := s.(fill := s.fill.(tasks := Launched(s.fill.maxId, requested)));
    assert LaunchStep(c, s, s1);
    LaunchedIff(s.fill.maxId, requested, 0);
    CountDoneNone(s1.fill.tasks);
    assert Working(s1.fill);
    hide LaunchStep, Launched, Working;
    assert BackgroundStep(c, s, 0, s1);
    BackgroundLeads(c, s0, s, 0, s1);
    s' := Works(c, s0, s1);
  }

  /** From the moment training has read its vectors and no insert is under way. */
  lemma Trains(c: Config, s0: State, s: State) returns (s': State)
    requires Leads(c, s0, s) && c.quantizer.Untrained? && !s.fill.quantOn && s.training.Visited? && s.fill.tasks == []
    requires s.fill.completed == 0 && s.fill.finish == Waiting && s.alloc.nextId <= U32_MAX
    requires forall t :: t in s.threads ==> !Inserting(s.threads[t])
    ensures Leads(c, s0, s') && ReusesNow(s, s')
  {
    hide Leads;
    var s1 := s.(fill := s.fill.(quantOn := true, maxId := if s.alloc.nextId == 0 then 0 else s.alloc.nextId - 1),
                 training := NotTraining);
    hide Inserting;
    assert TrainedStep(c, s, s1);
    hide TrainedStep;
    assert BackgroundStep(c, s, 0, s1);
    BackgroundLeads(c, s0, s, 0, s1);
    s' := Launches(c, s0, s1, 1);
  }

  /** Once the quantizer is trained, IDs come to be reused, whatever calls are under way. */
  lemma BackfillEnds(c: Config, s0: State, s: State) returns (s': State)
    requires Leads(c, s0, s) && PhaseOk(c, s.alloc, s.fill)
    requires c.quantizer.Untrained? && s.fill.quantOn && !s.alloc.reuse
    ensures Leads(c, s0, s') && ReusesNow(s, s')
  {
    CountDoneFull(s.fill.tasks);
    hide Leads, AllDone;
    if s.fill.finish != Waiting {
      s' := Finishes(c, s0, s);
    } else if s.fill.tasks != [] {
      assert Working(s.fill);
      s' := Works(c, s0, s);
    } else {
      s' := Launches(c, s0, s, 1);
    }
  }
}
