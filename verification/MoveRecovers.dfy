/**
 * What the executor of a move makes of the states that only failures and other
 * actors bring about: a start that the old leader completed after all, a source
 * that is gone, a replacement that failed after traffic was shifted, a teardown
 * that threw, and an operation that is no longer its own. Nothing is asked of
 * the store beyond what each result names.
 */
module MoveRecovers {
  import opened Options
  import opened Lifecycle
  import opened MoveProtocol
  import opened MoveSafety
  import opened MoveCompletes
  import opened MoveResumes

  // ---------------------------------------------------------------------
  // Another operation
  // ---------------------------------------------------------------------

  lemma TearKeepsOperation(st: Store, op: Operation, t: Point, reply: Reply)
    requires t.Tear?
    ensures TearStep(st, op, t, reply).store.op == st.op
  {}

  /** No step of an executor, failed or not, touches an operation other than its own. */
  lemma ForeignOperationKept(st: Store, e: Executor, c: Choice)
    requires e.Running? && st.op.Some? && st.op.value.id != e.op.id
    ensures ExecStep(st, e, c).store.op == st.op
  {
    if e.at.Tear? && (c.Proceed? || c.Lost?) { TearKeepsOperation(st, e.op, e.at, c.reply); }
  }

  // ---------------------------------------------------------------------
  // A start completed by somebody else
  // ---------------------------------------------------------------------

  /** The last write of the recovery was refused, and the replacement is read again. */
  predicate Refused(e: Executor) {
    e.Running? && (e.at == RecoverErrorRead || e.at == RecoverActivateRead)
  }

  /** Found ACTIVE it counts as recovered; otherwise everything is left as it is. */
  lemma {:induction false} RefusedIsSettled(ready: bool, st: Store, e: Executor)
    requires Refused(e) && st.route.Some?
    ensures var c := Course(ready, Outcome(st, e));
            if StateOf(st.replacement) != Some(Active) then Reaches(c, Outcome(st, Idle))
            else
              var now := if e.at == RecoverErrorRead then st else RefreshWrite(st, Some(RActive));
              Reaches(c, At(now, e.op, WriteReady))
  {
    var c := Course(ready, Outcome(st, e));
    Starts(c);
    if StateOf(st.replacement) != Some(Active) {
      StepOn(c, Outcome(st, e), Outcome(st, Idle));
    } else if e.at == RecoverErrorRead {
      StepOn(c, Outcome(st, e), At(st, e.op, WriteReady));
    } else {
      StepOn(c, Outcome(st, e), At(st, e.op, Refresh(false, WriteReady)));
      Refreshes(c, Source, st, e.op, WriteReady);
    }
  }

  /**
   * When the last write of the recovery throws, with or without taking effect,
   * the replacement is read again as after a refusal: an activation of which only
   * the reply was lost is not lost.
   */
  lemma {:induction false} ThrownIsSettled(ready: bool, st: Store, op: Operation, at: Point, c: Choice)
    requires at == RecoverError || at == RecoverActivate
    requires st.route.Some? && (c.Fault? || c.Lost?)
    ensures var o := ExecStep(st, Running(op, at), c);
            && Refused(o.exec)
            && (if StateOf(o.store.replacement) != Some(Active)
                then Reaches(Course(ready, o), Outcome(o.store, Idle))
                else
                  var now := if at == RecoverError then o.store else RefreshWrite(o.store, Some(RActive));
                  Reaches(Course(ready, o), At(now, op, WriteReady)))
    ensures at == RecoverActivate && c.Lost? && StateOf(st.replacement) == Some(Starting) ==>
              StateOf(ExecStep(st, Running(op, at), c).store.replacement) == Some(Active)
  {
    var o := ExecStep(st, Running(op, at), c);
    RefusedIsSettled(ready, o.store, o.exec);
  }

  // ---------------------------------------------------------------------
  // A replacement that failed after the cutover had begun
  // ---------------------------------------------------------------------

  /** The source is still whole, with or without traffic, and the replacement is lost. */
  predicate Relapsed(st: Store) {
    && InPhase(st, CuttingOver) && (st.replacement.None? || StateOf(st.replacement) == Some(Error))
    && StateOf(st.source) == Some(Active) && st.source.value.placed && HasEndpoint(st, Source)
    && st.route.value.state == RActive
  }

  lemma Restores(c: Course, st: Store)
    requires Relapsed(st) && Reaches(c, At(st, st.op.value, Dispatch))
    ensures Reaches(c, At(SetWeight(st, Source, 1), st.op.value,
                          if st.replacement.Some? then WriteCleanupAndStop else Finish))
  {
    var op, source, some := st.op.value, st.source.value, st.replacement.Some?;
    StepOn(c, At(st, op, Dispatch), At(st, op, ReadReplacement(st.source)));
    StepOn(c, At(st, op, ReadReplacement(st.source)), At(st, op, RestoreWeight(source, some)));
    StepOn(c, At(st, op, RestoreWeight(source, some)),
           At(SetWeight(st, Source, 1), op, if some then WriteCleanupAndStop else Finish));
  }

  /** The source gets its traffic back, and the replacement and the operation go. */
  lemma {:induction false} RelapseIsRolledBack(ready: bool, st: Store) returns (end: Store)
    requires Relapsed(st)
    ensures Reaches(Course(ready, Outcome(st, Idle)), Outcome(end, Idle))
    ensures SourceAlone(st, end) && Weight(end, Source) == 1
  {
    var c := Course(ready, Outcome(st, Idle));
    Dispatches(c, st);
    Restores(c, st);
    end := SetWeight(st, Source, 1);
    if st.replacement.None? {
      Finishes(c, end);
      end := end.(op := None);
    } else {
      CleansUp(c, end);
      end := TerminalEnds(c, end.(op := Some(Operation(st.op.value.id, ReplacementCleanup))), Replacement);
    }
  }

  /**
   * Where neither way is safe the move is left for somebody to look at: the
   * replacement is lost and the source no longer ACTIVE, or its endpoint unknown
   * after traffic may have been shifted.
   */
  predicate Hopeless(st: Store) {
    && (InPhase(st, ReplacementReady) || InPhase(st, CuttingOver)) && st.source.Some?
    && (st.replacement.None? || StateOf(st.replacement) == Some(Error))
    && (|| st.source.value.state != Active
        || (InPhase(st, CuttingOver) && (!st.source.value.placed || !HasEndpoint(st, Source))))
  }

  lemma {:induction false} HopelessIsLeft(ready: bool, st: Store)
    requires Hopeless(st)
    ensures Reaches(Course(ready, At(st, st.op.value, Dispatch)), Outcome(st, Idle))
  {
    var c, op, source := Course(ready, At(st, st.op.value, Dispatch)), st.op.value, st.source.value;
    Starts(c);
    StepOn(c, At(st, op, Dispatch), At(st, op, ReadReplacement(st.source)));
    if source.state != Active {
      StepOn(c, At(st, op, ReadReplacement(st.source)), Outcome(st, Idle));
    } else {
      var restore := RestoreWeight(source, st.replacement.Some?);
      StepOn(c, At(st, op, ReadReplacement(st.source)), At(st, op, restore));
      StepOn(c, At(st, op, restore), Outcome(st, Idle));
    }
  }

  /** Nor is a source cut over that cannot be: one that neither serves at a known endpoint nor drains. */
  lemma {:induction false} UnfitSourceIsLeft(ready: bool, st: Store)
    requires (InPhase(st, ReplacementReady) || InPhase(st, CuttingOver)) && st.source.Some?
    requires StateOf(st.replacement) == Some(Active)
    requires !(st.source.value.state == Active && st.source.value.placed) && st.source.value.state != Draining
    ensures var cut := st.(op := Some(Operation(st.op.value.id, CuttingOver)));
            Reaches(Course(ready, At(st, st.op.value, Dispatch)), Outcome(cut, Idle))
  {
    var c, op, source := Course(ready, At(st, st.op.value, Dispatch)), st.op.value, st.source.value;
    Starts(c);
    StepOn(c, At(st, op, Dispatch), At(st, op, ReadReplacement(st.source)));
    StepOn(c, At(st, op, ReadReplacement(st.source)), At(st, op, WriteCuttingOver(source)));
    StepOn(c, At(st, op, WriteCuttingOver(source)), Outcome(st.(op := Some(Operation(op.id, CuttingOver))), Idle));
  }

  /** The cleanup is written, the executor returns, and the next one takes it up. */
  lemma CleansUp(c: Course, st: Store)
    requires InPhase(st, ReplacementReady) || InPhase(st, CuttingOver)
    requires Reaches(c, At(st, st.op.value, WriteCleanupAndStop))
    ensures var op := Operation(st.op.value.id, ReplacementCleanup);
            Reaches(c, At(st.(op := Some(op)), op, Dispatch))
  {
    var op := Operation(st.op.value.id, ReplacementCleanup);
    var cleaned := st.(op := Some(op));
    StepOn(c, At(st, st.op.value, WriteCleanupAndStop), At(cleaned, op, Return));
    Returns(c, cleaned, op);
    StepOn(c, Outcome(cleaned, Idle), At(cleaned, op, Dispatch));
  }

  // ---------------------------------------------------------------------
  // A source that is gone
  // ---------------------------------------------------------------------

  predicate SourceGone(st: Store) {
    (InPhase(st, ReplacementReady) || InPhase(st, CuttingOver)) && st.source.None?
  }

  lemma ReadsGone(c: Course, st: Store)
    requires SourceGone(st) && c.from == Outcome(st, Idle)
    ensures Reaches(c, At(st, st.op.value, ReadReplacement(None)))
  {
    Dispatches(c, st);
    StepOn(c, At(st, st.op.value, Dispatch), At(st, st.op.value, ReadReplacement(None)));
  }

  /** With the replacement serving, or gone as well, the move is over and nothing else is touched. */
  lemma {:induction false} NothingLeftToMove(ready: bool, st: Store)
    requires SourceGone(st) && (st.replacement.None? || StateOf(st.replacement) == Some(Active))
    ensures Reaches(Course(ready, Outcome(st, Idle)), Outcome(st.(op := None), Idle))
  {
    var c := Course(ready, Outcome(st, Idle));
    ReadsGone(c, st);
    StepOn(c, At(st, st.op.value, ReadReplacement(None)), At(st, st.op.value, Finish));
    Finishes(c, st);
  }

  lemma UnrouteStep(ready: bool, st: Store, op: Operation, t: Point)
    requires t.Tear? && t.tear == StopUnroute
    ensures Step(ready, At(st, op, t))
         == At(if t.routed then RemoveEndpoint(st, t.side) else st, op, t.(tear := StopReread))
  {}

  lemma ReadFailedStep(ready: bool, st: Store, op: Operation, t: Point)
    requires t.Tear? && t.tear == StopRead && StateOf(Get(st, t.side)) == Some(Error)
    ensures Step(ready, At(st, op, t)) == At(st, op, t.(routed := Get(st, t.side).value.placed, tear := StopUnroute))
  {}

  /** A failed instance needs no drain: its endpoint goes at once. */
  lemma UnroutesFailed(c: Course, st: Store, op: Operation, t: Point) returns (st': Store, t': Point)
    requires t.Tear? && t.tear == StopRead && StateOf(Get(st, t.side)) == Some(Error) && Reaches(c, At(st, op, t))
    ensures t' == t.(routed := Get(st, t.side).value.placed, tear := StopSettle)
    ensures st' == if t'.routed then RemoveEndpoint(st, t.side) else st
    ensures Reaches(c, At(st', op, t'))
  {
    t' := t.(routed := Get(st, t.side).value.placed, tear := StopSettle);
    st' := if t'.routed then RemoveEndpoint(st, t.side) else st;
    ReadFailedStep(c.ready, st, op, t);
    StepOn(c, At(st, op, t), At(st, op, t'.(tear := StopUnroute)));
    UnrouteStep(c.ready, st, op, t'.(tear := StopUnroute));
    StepOn(c, At(st, op, t'.(tear := StopUnroute)), At(st', op, t'.(tear := StopReread)));
    Rereads(c, st', op, t'.(tear := StopReread));
  }

  /** A failed instance is stopped and forgotten, whatever the routing entry. */
  lemma ForgetsFailed(c: Course, st: Store, op: Operation, t: Point) returns (st': Store)
    requires t.Tear? && t.tear == StopRead && StateOf(Get(st, t.side)) == Some(Error) && Reaches(c, At(st, op, t))
    ensures st'.op == st.op && Get(st', t.side).None? && Get(st', Other(t.side)) == Get(st, Other(t.side))
    ensures Get(st, t.side).value.placed ==> !HasEndpoint(st', t.side)
    ensures Reaches(c, At(st', op, Finish))
  {
    var unrouted, t' := UnroutesFailed(c, st, op, t);
    var stopped := Stops(c, unrouted, op, t');
    st' := RefreshesAsRead(c, stopped, op, false, t'.(tear := StopRunner));
    Forgets(c, st', op, t'.(tear := StopRunner));
    st' := Put(st', t.side, None);
  }

  /** A refresh writes what it reads. */
  lemma RefreshesAsRead(c: Course, st: Store, op: Operation, quiet: bool, next: Point) returns (st': Store)
    requires Reaches(c, At(st, op, Refresh(quiet, next)))
    ensures st' == RefreshWrite(st, RefreshRead(st)) && Reaches(c, At(st', op, next))
  {
    st' := RefreshWrite(st, RefreshRead(st));
    StepOn(c, At(st, op, Refresh(quiet, next)), At(st, op, RefreshStore(RefreshRead(st), quiet, next)));
    StepOn(c, At(st, op, RefreshStore(RefreshRead(st), quiet, next)), At(st', op, next));
  }

  /** A failed replacement without a source is cleaned up before the operation goes. */
  lemma {:induction false} BothLostAreForgotten(ready: bool, st: Store) returns (end: Store)
    requires SourceGone(st) && StateOf(st.replacement) == Some(Error)
    ensures Reaches(Course(ready, Outcome(st, Idle)), Outcome(end, Idle))
    ensures end.op.None? && end.source.None? && end.replacement.None?
    ensures st.replacement.value.placed ==> !HasEndpoint(end, Replacement)
  {
    var c := Course(ready, Outcome(st, Idle));
    ReadsGone(c, st);
    StepOn(c, At(st, st.op.value, ReadReplacement(None)), At(st, st.op.value, WriteCleanupAndStop));
    CleansUp(c, st);
    var cleaned := st.(op := Some(Operation(st.op.value.id, ReplacementCleanup)));
    ReadsTerminal(c, cleaned, Replacement);
    var found, client := LooksUp(c, cleaned, cleaned.op.value, Replacement);
    end := ForgetsFailed(c, found, cleaned.op.value, Tear(Replacement, client, false, StopRead));
    Finishes(c, end);
    end := end.(op := None);
  }

  // ---------------------------------------------------------------------
  // A teardown that threw
  // ---------------------------------------------------------------------

  /** The record failed, and the routing entry of the instances as they then are. */
  function FailedAt(st: Store, side: Side): Store
    requires CanTransition(st, side, Error)
  {
    var failed := Transition(st, side, Error);
    RefreshWrite(failed, RefreshRead(failed))
  }

  lemma FailsQuietly(c: Course, st: Store, op: Operation, side: Side, next: Point)
    requires CanTransition(st, side, Error)
    requires Reaches(c, At(Transition(st, side, Error), op, Refresh(true, next)))
    ensures Reaches(c, At(FailedAt(st, side), op, next))
  {
    var _ := RefreshesAsRead(c, Transition(st, side, Error), op, true, next);
  }

  lemma Returns(c: Course, st: Store, op: Operation)
    requires Reaches(c, At(st, op, Return))
    ensures Reaches(c, Outcome(st, Idle))
  {
    StepOn(c, At(st, op, Return), Outcome(st, Idle));
  }

  lemma CatchStep(ready: bool, st: Store, op: Operation, t: Point)
    requires t.Tear? && t.tear == TearCatch && StateOf(Get(st, t.side)) == Some(Stopped)
    ensures Step(ready, At(st, op, t)) == At(Transition(st, t.side, Error), op, Refresh(true, Return))
  {}

  lemma CatchEnds(c: Course, st: Store, op: Operation, t: Point)
    requires t.Tear? && t.tear == TearCatch && Get(st, t.side).Some? && Reaches(c, At(st, op, t))
    ensures Reaches(c, Outcome(if Get(st, t.side).value.state == Stopped then FailedAt(st, t.side) else st, Idle))
  {
    if Get(st, t.side).value.state == Stopped {
      CatchStep(c.ready, st, op, t);
      StepOn(c, At(st, op, t), At(Transition(st, t.side, Error), op, Refresh(true, Return)));
      FailsQuietly(c, st, op, t.side, Return);
      Returns(c, FailedAt(st, t.side), op);
    } else {
      StepOn(c, At(st, op, t), Outcome(st, Idle));
    }
  }

  lemma StopErrorEnds(c: Course, st: Store, op: Operation, t: Point)
    requires t.Tear? && t.tear == StopError && Get(st, t.side).Some? && Reaches(c, At(st, op, t))
    ensures Reaches(c, Outcome(if Get(st, t.side).value.state != Error then FailedAt(st, t.side) else st, Idle))
  {
    var caught := t.(tear := TearCatch);
    if Get(st, t.side).value.state != Error {
      StepOn(c, At(st, op, t), At(Transition(st, t.side, Error), op, Refresh(true, caught)));
      FailsQuietly(c, st, op, t.side, caught);
      CatchEnds(c, FailedAt(st, t.side), op, caught);
    } else {
      StepOn(c, At(st, op, t), At(st, op, caught));
      CatchEnds(c, st, op, caught);
    }
  }

  /**
   * A stop that threw ends with its record kept and ERROR, and published so; a
   * failure after the stop turns a STOPPED record into ERROR and leaves any other.
   */
  lemma {:induction false} FailedTeardownIsRetained(ready: bool, st: Store, op: Operation, t: Point)
    requires t.Tear? && (t.tear == StopError || t.tear == TearCatch) && Get(st, t.side).Some?
    ensures var c := Course(ready, At(st, op, t));
            var state := Get(st, t.side).value.state;
            Reaches(c, Outcome(if (if t.tear == StopError then state != Error else state == Stopped)
                               then FailedAt(st, t.side) else st, Idle))
  {
    var c := Course(ready, At(st, op, t));
    Starts(c);
    if t.tear == TearCatch {
      CatchEnds(c, st, op, t);
    } else {
      StopErrorEnds(c, st, op, t);
    }
  }

  /** The steps of a stop after its first read, and the refreshes between them. */
  predicate MidStop(at: Point) {
    || (at.Tear? && at.tear in {StopDrain, StopPoll, StopUnroute, StopReread, StopFail, StopBegin, StopSettle})
    || ((at.Refresh? || at.RefreshStore?) && !at.quiet && at.next.Tear?)
  }

  function SideOf(at: Point): Side
    requires MidStop(at)
  {
    if at.Tear? then at.side else at.next.side
  }

  /** Whatever throws there, the record is kept, ERROR, and published so. */
  lemma {:induction false} ThrownStopIsRecorded(ready: bool, st: Store, op: Operation, at: Point)
    requires MidStop(at) && Get(st, SideOf(at)).Some?
    ensures var side := SideOf(at);
            Reaches(Course(ready, ExecStep(st, Running(op, at), Fault)),
                    Outcome(if Get(st, side).value.state != Error then FailedAt(st, side) else st, Idle))
  {
    var t := (if at.Tear? then at else at.next).(tear := StopError);
    assert ExecStep(st, Running(op, at), Fault) == At(st, op, t);
    FailedTeardownIsRetained(ready, st, op, t);
  }

  /** A refresh that only reports a failure may fail itself, and the executor goes on. */
  lemma QuietRefreshMayFail(st: Store, op: Operation, at: Point)
    requires (at.Refresh? || at.RefreshStore?) && at.quiet
    ensures ExecStep(st, Running(op, at), Fault) == At(st, op, at.next)
  {}

  /** A runner that reports ERROR while it drains has its record failed at once, and is asked again. */
  lemma {:induction false} FailedPollIsRecorded(ready: bool, st: Store, op: Operation, t: Point)
    requires t.Tear? && t.tear == StopPoll && Get(st, t.side).Some?
    ensures var c := Course(ready, PointStep(st, op, t, PollReportedError));
            Reaches(c, At(if Get(st, t.side).value.state == Error then st else FailedAt(st, t.side), op, t))
  {
    var c := Course(ready, PointStep(st, op, t, PollReportedError));
    Starts(c);
    if Get(st, t.side).value.state != Error {
      FailsQuietly(c, st, op, t.side, t);
    }
  }
}
