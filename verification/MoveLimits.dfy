/**
 * What the results about moves need: each assumption on other actors is shown to
 * be necessary by a run from the admission of the move, so that service, rollback
 * and the clean finish hold over all runs exactly under those assumptions.
 */
module MoveLimits {
  import opened Options
  import opened Lifecycle
  import opened MoveProtocol
  import opened MoveSafety
  import opened MoveUptime

  function Last(run: seq<System>): System
    requires run != []
  {
    run[|run| - 1]
  }

  /** A run goes on by any admitted event. */
  lemma Extend(env: Environment, run: seq<System>, ev: Event, s: System) returns (longer: seq<System>)
    requires Run(env, run) && Admits(env, Last(run), ev) && s == Apply(Last(run), ev)
    ensures Run(env, longer) && Last(longer) == s && |longer| == |run| + 1 && longer[|run| - 1] == Last(run)
  {
    longer := run + [s];
    forall i | 0 < i < |longer| ensures Next(env, longer[i - 1], longer[i]) {
      if i < |run| {
        assert Next(env, run[i - 1], run[i]);
      } else {
        assert Admits(env, longer[i - 1], ev) && longer[i] == Apply(longer[i - 1], ev);
      }
    }
  }

  const SERVING := Record(Active, true, false)

  /** A store with the source ACTIVE, its weight and the replacement's as given. */
  function Stage(phase: Phase, replacement: Option<Record>, source: nat, weight: nat): Store {
    Store(Some(Operation(0, phase)), Some(SERVING), replacement, [],
          Some(Route(RActive, map[AddressOf(Source) := source, AddressOf(Replacement) := weight])))
  }

  /** Situations before and after CUTTING_OVER is persisted. */
  function Before(st: Store, e: Executor): System {
    System(st, e, {}, st.replacement.Some?, false, false, false)
  }

  function During(st: Store, e: Executor): System {
    System(st, e, {}, true, true, false, false)
  }

  lemma Admitted(env: Environment) returns (run: seq<System>)
    ensures Run(env, run) && Last(run) == Before(Stage(ReplacementStarting, None, 1, 0), Idle)
  {
    run := [Before(Stage(ReplacementStarting, None, 1, 0), Idle)];
  }

  /** The replacement has become ACTIVE and the request has reported it. */
  lemma Reported(env: Environment) returns (run: seq<System>)
    ensures Run(env, run) && Last(run) == Before(Stage(ReplacementReady, Some(SERVING), 1, 1), Idle)
  {
    run := Admitted(env);
    var launched := Stage(ReplacementStarting, Some(SERVING), 1, 1);
    var ready := Stage(ReplacementReady, Some(SERVING), 1, 1);
    run := Extend(env, run, Outside(launched), Before(launched, Idle));
    run := Extend(env, run, Outside(ready), Before(ready, Idle));
  }

  /** An executor has read the operation and the source. */
  lemma Resumed(env: Environment) returns (run: seq<System>)
    ensures Run(env, run)
    ensures Last(run) == Before(Stage(ReplacementReady, Some(SERVING), 1, 1),
                                Running(Operation(0, ReplacementReady), ReadReplacement(Some(SERVING))))
  {
    run := Reported(env);
    var st, op := Stage(ReplacementReady, Some(SERVING), 1, 1), Operation(0, ReplacementReady);
    var go := Execute(Proceed(Nothing));
    run := Extend(env, run, go, Before(st, Running(op, Dispatch)));
    run := Extend(env, run, go, Before(st, Running(op, ReadReplacement(Some(SERVING)))));
  }

  /** It finds the replacement ACTIVE, */
  lemma Decides(env: Environment) returns (run: seq<System>)
    ensures Run(env, run)
    ensures Last(run) == Before(Stage(ReplacementReady, Some(SERVING), 1, 1),
                                Running(Operation(0, ReplacementReady), WriteCuttingOver(SERVING)))
  {
    run := Resumed(env);
    run := Extend(env, run, Execute(Proceed(Nothing)),
                  Before(Stage(ReplacementReady, Some(SERVING), 1, 1),
                         Running(Operation(0, ReplacementReady), WriteCuttingOver(SERVING))));
  }

  /** and persists CUTTING_OVER. */
  lemma Decided(env: Environment) returns (run: seq<System>)
    ensures Run(env, run)
    ensures Last(run) == During(Stage(CuttingOver, Some(SERVING), 1, 1), Running(Operation(0, CuttingOver), CutOver))
  {
    run := Decides(env);
    run := Extend(env, run, Execute(Proceed(Nothing)),
                  During(Stage(CuttingOver, Some(SERVING), 1, 1), Running(Operation(0, CuttingOver), CutOver)));
  }

  lemma SourceSilenced(phase: Phase, replacement: Option<Record>, source: nat, weight: nat)
    ensures SetWeight(Stage(phase, replacement, source, weight), Source, 0) == Stage(phase, replacement, 0, weight)
  {
    assert map[AddressOf(Source) := source, AddressOf(Replacement) := weight][AddressOf(Source) := 0]
        == map[AddressOf(Source) := 0, AddressOf(Replacement) := weight];
  }

  /** The source is without traffic and its executor has died. */
  lemma Silenced(env: Environment) returns (run: seq<System>)
    ensures Run(env, run) && Last(run) == During(Stage(CuttingOver, Some(SERVING), 0, 1), Idle)
  {
    run := Decided(env);
    var st := Stage(CuttingOver, Some(SERVING), 0, 1);
    SourceSilenced(CuttingOver, Some(SERVING), 1, 1);
    run := Extend(env, run, Execute(Proceed(Nothing)),
                  During(st, Running(Operation(0, CuttingOver), AwaitBarrier)));
    run := Extend(env, run, Execute(Crash), During(st, Idle));
  }

  /** Then an ACTIVE replacement that fails takes the service with it. */
  lemma FailureInterrupts(env: Environment) returns (run: seq<System>)
    requires !env.calm
    ensures Run(env, run) && !Served(Last(run).store)
  {
    run := Silenced(env);
    var st := Stage(CuttingOver, None, 0, 0);
    run := Extend(env, run, Outside(st), During(st, Idle));
  }

  /** And a failure report finds the source silenced. */
  lemma CleanedUpLate(env: Environment) returns (run: seq<System>)
    requires env.lateCleanup
    ensures Run(env, run) && Last(run) == During(Stage(ReplacementCleanup, Some(SERVING), 0, 1), Idle)
  {
    run := Silenced(env);
    var st := Stage(ReplacementCleanup, Some(SERVING), 0, 1);
    run := Extend(env, run, Outside(st), During(st, Idle));
  }

  /** So that the next executor begins to tear the replacement down, */
  lemma TearsReplacement(env: Environment) returns (run: seq<System>)
    requires env.lateCleanup
    ensures Run(env, run)
    ensures Last(run) == During(Stage(ReplacementCleanup, Some(SERVING), 0, 1),
                                Running(Operation(0, ReplacementCleanup), Tear(Replacement, true, false, StopRead)))
  {
    run := CleanedUpLate(env);
    var st, op := Stage(ReplacementCleanup, Some(SERVING), 0, 1), Operation(0, ReplacementCleanup);
    var go := Execute(Proceed(Nothing));
    run := Extend(env, run, go, During(st, Running(op, Dispatch)));
    run := Extend(env, run, go, During(st, Running(op, CleanupRead)));
    run := Extend(env, run, go, During(st, Running(op, Tear(Replacement, true, false, StopRead))));
  }

  /** and drains the only instance that serves. */
  lemma CleanupInterrupts(env: Environment) returns (run: seq<System>)
    requires env.lateCleanup
    ensures Run(env, run) && !Served(Last(run).store)
  {
    run := TearsReplacement(env);
    var st, op := Stage(ReplacementCleanup, Some(SERVING), 0, 1), Operation(0, ReplacementCleanup);
    var t := Tear(Replacement, true, false, StopRead);
    var go := Execute(Proceed(Nothing));
    run := Extend(env, run, go, During(st, Running(op, t.(routed := true, tear := StopDrain))));
    var drained := Stage(ReplacementCleanup, Some(SERVING.(state := Draining)), 0, 1);
    run := Extend(env, run, go,
                  During(drained, Running(op, Refresh(false, t.(routed := true, tear := StopPoll)))));
  }

  /**
   * Every state of every run is served if and only if nobody touches an ACTIVE
   * replacement and the failure report does not arrive in CUTTING_OVER.
   */
  lemma ServedExactly(env: Environment)
    ensures (forall run: seq<System>, i: nat :: Run(env, run) && i < |run| ==> Served(run[i].store))
            <==> env.calm && !env.lateCleanup
  {
    if env.calm && !env.lateCleanup {
      forall run: seq<System>, i: nat | Run(env, run) && i < |run| ensures Served(run[i].store) {
        MoveWithoutDowntime(env, run, i);
      }
    } else {
      var run;
      if env.calm { run := CleanupInterrupts(env); } else { run := FailureInterrupts(env); }
      assert !Served(run[|run| - 1].store);
    }
  }

  /** A move being cleaned up has its source serving in every run if and only if that report does not arrive then. */
  lemma RollbackExactly(env: Environment)
    ensures (forall run: seq<System>, i: nat ::
               Run(env, run) && i < |run| && InPhase(run[i].store, ReplacementCleanup) ==> SourceServes(run[i].store))
            <==> !env.lateCleanup
  {
    if env.lateCleanup {
      var run := CleanedUpLate(env);
      assert !SourceServes(run[|run| - 1].store);
    } else {
      forall run: seq<System>, i: nat | Run(env, run) && i < |run| && InPhase(run[i].store, ReplacementCleanup)
        ensures SourceServes(run[i].store)
      {
        WriteAheadAndRollback(env, run, i);
      }
    }
  }

  /** The record may be created between the read that misses it and the removal of the operation. */
  lemma LateCreationLeavesBoth(env: Environment) returns (run: seq<System>)
    requires env.lateCreation
    ensures Run(env, run) && Finishing(Last(run)) && !OneRecordLeft(Last(run).store)
  {
    run := Admitted(env);
    var st, op := Stage(ReplacementStarting, None, 1, 0), Operation(0, ReplacementStarting);
    var go := Execute(Proceed(Nothing));
    run := Extend(env, run, go, Before(st, Running(op, Dispatch)));
    run := Extend(env, run, go, Before(st, Running(op, Finish)));
    var late := Stage(ReplacementStarting, Some(Record(Pending, false, false)), 1, 0);
    run := Extend(env, run, Outside(late), Before(late, Running(op, Finish)));
  }

  /** Every finish of every run leaves one record if and only if nothing is created while an executor finishes. */
  lemma FinishExactly(env: Environment)
    requires env.calm && !env.lateCleanup
    ensures (forall run: seq<System>, i: nat ::
               Run(env, run) && i < |run| && Finishing(run[i]) ==> OneRecordLeft(run[i].store))
            <==> !env.lateCreation
  {
    if env.lateCreation {
      var run := LateCreationLeavesBoth(env);
      assert Finishing(run[|run| - 1]) && !OneRecordLeft(run[|run| - 1].store);
    } else {
      forall run: seq<System>, i: nat | Run(env, run) && i < |run| && Finishing(run[i])
        ensures OneRecordLeft(run[i].store)
      {
        MoveWithoutDowntime(env, run, i);
      }
    }
  }

  // ---------------------------------------------------------------------
  // The recovery's ERROR write
  // ---------------------------------------------------------------------

  /** The executor is about to fail a replacement that serves. */
  predicate Demoting(s: System) {
    s.exec.Running? && s.exec.at == RecoverError && ReplacementServes(s.store)
  }

  /** Whatever the executor judges has not become ACTIVE; a refresh leads to no judgement. */
  predicate JudgesFairly(st: Store, e: Executor) {
    && (Judging(e) ==> StateOf(st.replacement) != Some(Active))
    && (e.Running? && (e.at.Refresh? || e.at.RefreshStore?) ==>
          var next := e.at.next;
          !next.RecoverLookup? && !next.RecoverError? && !next.Refresh? && !next.RefreshStore?)
  }

  lemma StopJudgesFairly(st: Store, op: Operation, t: Point, reply: Reply)
    requires t.Tear? && InStopModel(t.tear)
    ensures var e := StopStep(st, op, t, reply).exec;
            && e.Running? && (e.at.Tear? || (e.at.Refresh? && e.at.next.Tear?))
  {}

  lemma TearJudgesFairly(st: Store, op: Operation, t: Point, reply: Reply)
    requires t.Tear?
    ensures var e := TearStep(st, op, t, reply).exec;
            || e.Idle? || e.at.Tear? || e.at.Finish?
            || (e.at.Refresh? && (e.at.next.Tear? || e.at.next.Return?))
  {
    if InStopModel(t.tear) { StopJudgesFairly(st, op, t, reply); }
  }

  lemma PointJudgesFairly(st: Store, op: Operation, at: Point, reply: Reply)
    requires JudgesFairly(st, Running(op, at))
    ensures var o := PointStep(st, op, at, reply);
            JudgesFairly(o.store, o.exec) && JudgesFairly(o.store, Thrown(op, at))
  {
    if at.Tear? { TearJudgesFairly(st, op, at, reply); }
  }

  lemma StepJudgesFairly(env: Environment, s: System, ev: Event)
    requires !env.lateActivation && JudgesFairly(s.store, s.exec) && Admits(env, s, ev)
    ensures JudgesFairly(Apply(s, ev).store, Apply(s, ev).exec)
  {
    if ev.Execute? && s.exec.Running? && (ev.choice.Proceed? || ev.choice.Lost?) {
      PointJudgesFairly(s.store, s.exec.op, s.exec.at, ev.choice.reply);
    }
  }

  lemma {:induction false} RunJudgesFairly(env: Environment, run: seq<System>, i: nat)
    requires !env.lateActivation && Run(env, run) && i < |run|
    ensures JudgesFairly(run[i].store, run[i].exec)
  {
    if i > 0 {
      RunJudgesFairly(env, run, i - 1);
      assert Next(env, run[i - 1], run[i]);
      var ev :| Admits(env, run[i - 1], ev) && run[i] == Apply(run[i - 1], ev);
      StepJudgesFairly(env, run[i - 1], ev);
    }
  }

  const LAUNCHING := Record(Starting, false, false)

  /** An executor has found a launching replacement and is about to ask its worker. */
  lemma AsksWorker(env: Environment) returns (run: seq<System>)
    ensures Run(env, run)
    ensures Last(run) == Before(Stage(ReplacementStarting, Some(LAUNCHING), 1, 0),
                                Running(Operation(0, ReplacementStarting), RecoverLookup(false)))
  {
    run := Admitted(env);
    var st, op := Stage(ReplacementStarting, Some(LAUNCHING), 1, 0), Operation(0, ReplacementStarting);
    var go := Execute(Proceed(Nothing));
    run := Extend(env, run, Outside(st), Before(st, Idle));
    run := Extend(env, run, go, Before(st, Running(op, Dispatch)));
    run := Extend(env, run, go, Before(st, Running(op, RecoverLookup(false))));
  }

  /** The worker reports it absent. */
  lemma FoundAbsent(env: Environment) returns (run: seq<System>)
    ensures Run(env, run)
    ensures Last(run) == Before(Stage(ReplacementStarting, Some(LAUNCHING), 1, 0),
                                Running(Operation(0, ReplacementStarting), RecoverError))
  {
    run := AsksWorker(env);
    run := Extend(env, run, Execute(Proceed(RunnerAbsent)),
                  Before(Stage(ReplacementStarting, Some(LAUNCHING), 1, 0),
                         Running(Operation(0, ReplacementStarting), RecoverError)));
  }

  /** And then it becomes ACTIVE. */
  lemma ActiveAfterAll(env: Environment) returns (run: seq<System>)
    requires env.lateActivation
    ensures Run(env, run) && Demoting(Last(run))
    ensures Last(run) == Before(Stage(ReplacementStarting, Some(SERVING), 1, 1),
                                Running(Operation(0, ReplacementStarting), RecoverError))
  {
    run := FoundAbsent(env);
    var active := Stage(ReplacementStarting, Some(SERVING), 1, 1);
    run := Extend(env, run, Outside(active), Before(active, Running(Operation(0, ReplacementStarting), RecoverError)));
  }

  /**
   * A runner reported absent after the grace period fails the replacement even if
   * it has become ACTIVE since the executor asked: the transition is a legal one,
   * so the recovery of that success in the error path is not reached.
   */
  lemma AbsentRunnerDemotesActive(env: Environment) returns (run: seq<System>)
    requires env.lateActivation
    ensures Run(env, run) && |run| > 1 && Demoting(run[|run| - 2])
    ensures StateOf(Last(run).store.replacement) == Some(Error)
    ensures Last(run).exec == Running(Operation(0, ReplacementStarting), WriteCleanup)
  {
    run := ActiveAfterAll(env);
    var failed := Stage(ReplacementStarting, Some(SERVING.(state := Error)), 1, 1);
    run := Extend(env, run, Execute(Proceed(Nothing)),
                  Before(failed, Running(Operation(0, ReplacementStarting), WriteCleanup)));
  }

  /**
   * No run ever comes to fail a replacement that serves, if and only if nobody
   * activates it between the lookup of its runner and the write.
   */
  lemma DemotesExactly(env: Environment)
    ensures (forall run: seq<System>, i: nat :: Run(env, run) && i < |run| ==> !Demoting(run[i]))
            <==> !env.lateActivation
  {
    if env.lateActivation {
      var run := ActiveAfterAll(env);
      assert Demoting(run[|run| - 1]);
    } else {
      forall run: seq<System>, i: nat | Run(env, run) && i < |run| ensures !Demoting(run[i]) {
        RunJudgesFairly(env, run, i);
      }
    }
  }
}
