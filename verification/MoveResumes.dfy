/**
 * Every move can be resumed: from any state of any run in which no executor is at
 * work, an executor to which nothing happens ends a move past REPLACEMENT_READY
 * with the replacement serving alone, and a move being cleaned up with the source
 * serving alone, whatever stage of a teardown was reached before.
 */
module MoveResumes {
  import opened Options
  import opened Lifecycle
  import opened MoveProtocol
  import opened MoveSafety
  import opened MoveUptime
  import opened MoveCompletes
  import opened MoveAnswers

  /** What is left of a source that is being torn down. */
  predicate Remnant(st: Store) {
    if st.source.Some?
    then st.source.value.placed && st.source.value.state in {Draining, Stopping, Stopped, Error}
    else !HasEndpoint(st, Source)
  }

  /** Past the removal of the endpoint it stays removed. */
  predicate RemnantPoint(st: Store, t: Point)
    requires t.Tear?
  {
    match t.tear
    case StopRead => true
    case StopError => true
    case TearCatch => true
    case StopPoll => t.routed
    case StopUnroute => t.routed
    case StopReread => !HasEndpoint(st, Source)
    case StopBegin => !HasEndpoint(st, Source)
    case StopSettle => !HasEndpoint(st, Source)
    case StopRunner => !HasEndpoint(st, Source)
    case Remove => !HasEndpoint(st, Source)
    case Lookup => false
    case Adopt => false
    case AdoptRead => false
    case StopDrain => false
    case StopFail => false
  }

  predicate RemnantInv(st: Store, e: Executor) {
    && Remnant(st)
    && (e.Running? && Plain(e.at).Tear? && Plain(e.at).side == Source ==> RemnantPoint(st, Plain(e.at)))
  }

  lemma StopKeepsRemnant(st: Store, op: Operation, t: Point, reply: Reply)
    requires t.Tear? && t.side == Source && InStopModel(t.tear) && RemnantInv(st, Running(op, t))
    ensures var o := StopStep(st, op, t, reply);
            RemnantInv(o.store, o.exec) && RemnantInv(o.store, Thrown(op, t))
  {}

  lemma TearKeepsRemnant(st: Store, op: Operation, t: Point, reply: Reply)
    requires t.Tear? && t.side == Source && RemnantInv(st, Running(op, t))
    ensures var o := TearStep(st, op, t, reply);
            RemnantInv(o.store, o.exec) && RemnantInv(o.store, Thrown(op, t))
  {
    if InStopModel(t.tear) { StopKeepsRemnant(st, op, t, reply); }
  }

  /** Over a run: once SOURCE_DRAINING was persisted. */
  predicate DrainInv(s: System) {
    s.drained ==> RemnantInv(s.store, s.exec)
  }

  lemma TearKeepsDrain(s: System, c: Choice)
    requires MoveInv(s) && DrainInv(s) && s.exec.Running? && s.exec.at.Tear? && (c.Proceed? || c.Lost?)
    ensures DrainInv(Apply(s, Execute(c)))
  {
    if s.exec.at.side == Source {
      if s.drained { TearKeepsRemnant(s.store, s.exec.op, s.exec.at, c.reply); }
    }
    TearFrame(s.store, s.exec.op, s.exec.at, c.reply);
  }

  lemma RefreshKeepsRemnant(st: Store, op: Operation, at: Point, reply: Reply)
    requires (at.Refresh? || at.RefreshStore?) && !at.next.Refresh? && !at.next.RefreshStore?
    requires RemnantInv(st, Running(op, at))
    ensures var o := PointStep(st, op, at, reply);
            o.store.op == st.op && RemnantInv(o.store, o.exec) && RemnantInv(o.store, Thrown(op, at))
  {}

  lemma RefreshKeepsDrain(s: System, c: Choice)
    requires MoveInv(s) && DrainInv(s) && s.exec.Running? && (c.Proceed? || c.Lost?)
    requires s.exec.at.Refresh? || s.exec.at.RefreshStore?
    ensures DrainInv(Apply(s, Execute(c)))
  {
    assert PointStep(s.store, s.exec.op, s.exec.at, c.reply).store.op == s.store.op;
    if s.drained { RefreshKeepsRemnant(s.store, s.exec.op, s.exec.at, c.reply); }
  }

  lemma CommitKeepsDrain(s: System, c: Choice)
    requires MoveInv(s) && DrainInv(s) && s.exec.Running? && s.exec.at.WriteSourceDraining? && (c.Proceed? || c.Lost?)
    ensures DrainInv(Apply(s, Execute(c)))
  {}

  lemma PlainKeepsDrain(s: System, c: Choice)
    requires MoveInv(s) && DrainInv(s) && s.exec.Running? && (c.Proceed? || c.Lost?)
    requires Unhandled(s.exec.at) || Recovering(s.exec.at)
    requires !s.exec.at.WriteSourceDraining?
    ensures DrainInv(Apply(s, Execute(c)))
  {}

  lemma StepKeepsDrain(env: Environment, s: System, ev: Event)
    requires env.calm && !env.lateCleanup && MoveInv(s) && CalmInv(env, s) && DrainInv(s) && Admits(env, s, ev)
    ensures DrainInv(Apply(s, ev))
  {
    if ev.Execute? && s.exec.Running? && (ev.choice.Proceed? || ev.choice.Lost?) {
      var at := s.exec.at;
      if at.Tear? { TearKeepsDrain(s, ev.choice); }
      else if at.Refresh? || at.RefreshStore? { RefreshKeepsDrain(s, ev.choice); }
      else if at.WriteSourceDraining? { CommitKeepsDrain(s, ev.choice); }
      else { PlainKeepsDrain(s, ev.choice); }
    }
  }

  lemma {:induction false} RunKeepsDrain(env: Environment, run: seq<System>, i: nat)
    requires env.calm && !env.lateCleanup && Run(env, run) && i < |run|
    ensures DrainInv(run[i])
  {
    if i > 0 {
      RunKeepsDrain(env, run, i - 1);
      RunKeepsCalm(env, run, i - 1);
      assert Next(env, run[i - 1], run[i]);
      var ev :| Admits(env, run[i - 1], ev) && run[i] == Apply(run[i - 1], ev);
      StepKeepsDrain(env, run[i - 1], ev);
    }
  }

  /** The move goes on: its replacement is ACTIVE, or it has begun to cut over. */
  predicate Forward(st: Store) {
    || (InPhase(st, ReplacementStarting) && StateOf(st.replacement) == Some(Active))
    || (InPhase(st, ReplacementReady) && StateOf(st.replacement) == Some(Active))
    || InPhase(st, CuttingOver)
    || InPhase(st, SourceDraining)
  }

  /** The move is given up: its replacement has failed or is gone before traffic was shifted. */
  predicate Backward(st: Store) {
    || ((InPhase(st, ReplacementStarting) || InPhase(st, ReplacementReady))
        && (st.replacement.None? || StateOf(st.replacement) == Some(Error)))
    || InPhase(st, ReplacementCleanup)
  }

  /** The source is gone for good and the replacement serves with the given record. */
  predicate ReplacementAlone(r: Option<Record>, end: Store) {
    && end.op.None? && end.source.None? && !HasEndpoint(end, Source)
    && end.replacement == r && Served(end)
  }

  /** From READY or later, the executor having read the operation, to the end. */
  lemma {:induction false} EndsForward(c: Course, st: Store) returns (end: Store)
    requires InPhase(st, ReplacementReady) || InPhase(st, CuttingOver) || InPhase(st, SourceDraining)
    requires Reaches(c, At(st, st.op.value, Dispatch)) && ReplacementServes(st)
    requires st.route.value.state == RActive
    requires if InPhase(st, SourceDraining) then Remnant(st) else Ready(st, Active) || Ready(st, Draining)
    ensures Reaches(c, Outcome(end, Idle)) && ReplacementAlone(st.replacement, end)
  {
    var at := st;
    if !InPhase(st, SourceDraining) {
      at := ReachesDraining(c, st);
    }
    end := TerminalEnds(c, at, Source);
  }

  /**
   * A move whose replacement is ACTIVE is completed from wherever it was left: the
   * operation and every trace of the source go, and the replacement serves alone.
   */
  lemma {:induction false} ResumedMoveCompletes(env: Environment, run: seq<System>, i: nat, ready: bool)
    returns (end: Store)
    requires env.calm && !env.lateCleanup && Run(env, run) && i < |run|
    requires run[i].exec == Idle && Forward(run[i].store)
    ensures Reaches(Course(ready, Outcome(run[i].store, Idle)), Outcome(end, Idle))
    ensures ReplacementAlone(run[i].store.replacement, end)
  {
    var st, c := run[i].store, Course(ready, Outcome(run[i].store, Idle));
    RunKeepsCalm(env, run, i);
    RunKeepsDrain(env, run, i);
    Dispatches(c, st);
    if InPhase(st, ReplacementStarting) {
      StepOn(c, At(st, st.op.value, Dispatch), At(st, st.op.value, WriteReady));
      WritesPhase(c, st, WriteReady, ReplacementReady);
      st := st.(op := Some(Operation(st.op.value.id, ReplacementReady)));
    }
    end := EndsForward(c, st);
  }

  /** The replacement is gone for good and the source serves as it did. */
  predicate SourceAlone(st: Store, end: Store) {
    && end.op.None? && end.replacement.None? && end.source == st.source && Served(end)
    && (st.replacement.Some? && st.replacement.value.placed ==> !HasEndpoint(end, Replacement))
  }

  /** From a failed or vanished replacement to the cleanup, or straight to the finish. */
  lemma {:induction false} GivesUp(c: Course, st: Store)
    requires c.from == Outcome(st, Idle) && Backward(st) && !InPhase(st, ReplacementCleanup)
    requires StateOf(st.source) == Some(Active)
    ensures if st.replacement.None? then Reaches(c, At(st, st.op.value, Finish))
            else var op := Operation(st.op.value.id, ReplacementCleanup);
                 Reaches(c, At(st.(op := Some(op)), op, Dispatch))
  {
    var op := st.op.value;
    var cleanup := Operation(op.id, ReplacementCleanup);
    var cleaned := st.(op := Some(cleanup));
    Dispatches(c, st);
    if InPhase(st, ReplacementStarting) {
      StepOn(c, At(st, op, Dispatch), At(st, op, if st.replacement.None? then Finish else WriteCleanup));
      if st.replacement.Some? { WritesPhase(c, st, WriteCleanup, ReplacementCleanup); }
    } else {
      StepOn(c, At(st, op, Dispatch), At(st, op, ReadReplacement(st.source)));
      StepOn(c, At(st, op, ReadReplacement(st.source)),
             At(st, op, if st.replacement.None? then Finish else WriteCleanupAndStop));
      if st.replacement.Some? { StopsAndResumes(c, st); }
    }
  }

  /** Having written the cleanup the executor returns, and the next one takes it up. */
  lemma StopsAndResumes(c: Course, st: Store)
    requires InPhase(st, ReplacementReady) && Reaches(c, At(st, st.op.value, WriteCleanupAndStop))
    ensures var op := Operation(st.op.value.id, ReplacementCleanup);
            Reaches(c, At(st.(op := Some(op)), op, Dispatch))
  {
    var op := Operation(st.op.value.id, ReplacementCleanup);
    var cleaned := st.(op := Some(op));
    StepOn(c, At(st, st.op.value, WriteCleanupAndStop), At(cleaned, op, Return));
    StepOn(c, At(cleaned, op, Return), Outcome(cleaned, Idle));
    StepOn(c, Outcome(cleaned, Idle), At(cleaned, op, Dispatch));
  }

  /**
   * A move given up is rolled back from wherever it was left: the operation and
   * the replacement go, and the source serves alone.
   */
  lemma {:induction false} ResumedRollbackCompletes(env: Environment, run: seq<System>, i: nat, ready: bool)
    returns (end: Store)
    requires env.calm && !env.lateCleanup && Run(env, run) && i < |run|
    requires run[i].exec == Idle && Backward(run[i].store)
    ensures Reaches(Course(ready, Outcome(run[i].store, Idle)), Outcome(end, Idle))
    ensures SourceAlone(run[i].store, end)
  {
    var st, c := run[i].store, Course(ready, Outcome(run[i].store, Idle));
    RunKeepsCalm(env, run, i);
    CalmServed(env, run[i]);
    if InPhase(st, ReplacementCleanup) {
      Dispatches(c, st);
      end := TerminalEnds(c, st, Replacement);
    } else {
      GivesUp(c, st);
      if st.replacement.None? {
        Finishes(c, st);
        end := st.(op := None);
      } else {
        end := TerminalEnds(c, st.(op := Some(Operation(st.op.value.id, ReplacementCleanup))), Replacement);
      }
    }
  }

  /**
   * A start left behind is taken up: answered that the runner is up, the executor
   * completes the move with it; answered that it is absent for good, the executor
   * rolls the move back.
   */
  lemma {:induction false} ResumedStartCompletes(env: Environment, run: seq<System>, i: nat, ready: bool)
    returns (end: Store)
    requires env.calm && !env.lateCleanup && Run(env, run) && i < |run|
    requires run[i].exec == Idle && InPhase(run[i].store, ReplacementStarting) && Launching(run[i].store)
    ensures Reaches(Course(ready, Outcome(run[i].store, Idle)), Outcome(end, Idle))
    ensures var r := run[i].store.replacement.value;
            if ready then ReplacementAlone(Some(r.(state := Active, placed := true)), end)
            else SourceAlone(run[i].store, end)
  {
    var st, c := run[i].store, Course(ready, Outcome(run[i].store, Idle));
    RunKeepsCalm(env, run, i);
    CalmServed(env, run[i]);
    Dispatches(c, st);
    if ready {
      st := StartBecomesReady(c, st, st.replacement.value);
      end := EndsForward(c, st);
    } else {
      st := StartIsFailed(c, st, st.replacement.value);
      end := TerminalEnds(c, st, Replacement);
    }
  }

  /** Neither: somebody else is still at work on the replacement. */
  predicate Undecided(st: Store) {
    && (InPhase(st, ReplacementStarting) || InPhase(st, ReplacementReady))
    && !Forward(st) && !Backward(st)
    && (InPhase(st, ReplacementStarting) ==> !Launching(st))
  }

  /** An executor that has found so, or is about to. */
  predicate Hesitates(st: Store, o: Outcome)
    requires st.op.Some?
  {
    && o.store == st
    && (|| o.exec == Idle
        || o.exec == Running(st.op.value, Dispatch)
        || (InPhase(st, ReplacementReady) && o.exec == Running(st.op.value, ReadReplacement(st.source))))
  }

  lemma StillHesitates(st: Store, ready: bool, o: Outcome)
    requires Undecided(st) && st.source.Some? && Hesitates(st, o)
    ensures Hesitates(st, Step(ready, o))
  {}

  /** Then executors come and go and leave everything as it is. */
  lemma {:induction false} UndecidedWaits(st: Store, ready: bool, n: nat)
    requires Undecided(st) && st.source.Some?
    ensures Hesitates(st, After(ready, Outcome(st, Idle), n))
  {
    if n > 0 {
      UndecidedWaits(st, ready, n - 1);
      StillHesitates(st, ready, After(ready, Outcome(st, Idle), n - 1));
    }
  }
}
