/**
 * What the executor of a move makes of the worker's answers, over all sequences
 * of steps whatsoever: it fails a replacement only on the answer that the runner
 * is absent after the grace period, gives a move up only when the replacement has
 * failed, starts to stop an instance only when its runner is known or known to be
 * absent, and drops a record only when the worker has confirmed that the runner
 * it names is gone.
 */
module MoveAnswers {
  import opened Options
  import opened Lifecycle
  import opened MoveProtocol
  import opened MoveSafety

  /** States and the events between them, from an idle executor on; nothing is asked of the other actors. */
  ghost predicate Traced(run: seq<System>, events: seq<Event>) {
    && |run| == |events| + 1 && run[0].exec == Idle
    && forall i :: 0 <= i < |events| ==> run[i + 1] == Apply(run[i], events[i])
  }

  /** Every run of every environment is such a sequence. */
  lemma {:induction false} RunIsTraced(env: Environment, run: seq<System>) returns (events: seq<Event>)
    requires Run(env, run)
    ensures Traced(run, events)
  {
    events := [];
    while |events| + 1 < |run|
      invariant |events| < |run| && forall i :: 0 <= i < |events| ==> run[i + 1] == Apply(run[i], events[i])
    {
      var n := |events|;
      assert Next(env, run[n], run[n + 1]);
      var ev :| Admits(env, run[n], ev) && run[n + 1] == Apply(run[n], ev);
      events := events + [ev];
    }
  }

  /** The point an executor is at, or returns to from a refresh. */
  function Plain(at: Point): Point {
    if at.Refresh? || at.RefreshStore? then at.next else at
  }

  /** From the first read of stopModel to its runner being stopped. */
  predicate Stopping(p: TearPoint) {
    InStopModel(p) || p == StopRunner
  }

  /** Where refreshes lead. */
  predicate Shaped(e: Executor) {
    e.Running? && (e.at.Refresh? || e.at.RefreshStore?) ==>
      || (e.at.next.Tear? && (Stopping(e.at.next.tear) || (e.at.quiet && e.at.next.tear == TearCatch)))
      || e.at.next.WriteReady? || e.at.next.WriteSourceDraining? || e.at.next.Return?
  }

  /** The executor tears one side of its operation down, in or after the given stage. */
  predicate Tearing(e: Executor, op: Operation, side: Side, client: bool) {
    e.Running? && e.op == op && Plain(e.at).Tear? && Plain(e.at).side == side && Plain(e.at).client == client
  }

  /** It has begun to stop the instance. */
  predicate Stops(e: Executor) {
    && e.Running? && Plain(e.at).Tear?
    && (Stopping(Plain(e.at).tear) || Plain(e.at).tear == Remove)
  }

  /**
   * What lets it begin: a record just read that names its runner or is not an
   * ambiguous start, the answer that an ambiguous start is absent for good, or the
   * record read back after its runner was adopted.
   */
  predicate Cleared(st: Store, e: Executor, c: Choice, op: Operation, side: Side, client: bool) {
    && e.Running? && e.op == op && c.Proceed?
    && (|| (&& e.at == (if side == Source then SourceRead else CleanupRead)
            && Get(st, side).Some? && Get(st, side).value.placed == client
            && (client || !Get(st, side).value.ambiguous))
        || (e.at.Tear? && e.at.side == side && e.at.client == client && e.at.tear == Lookup && c.reply == RunnerAbsent)
        || (&& e.at.Tear? && e.at.side == side && e.at.tear == AdoptRead
            && Get(st, side).Some? && Get(st, side).value.placed == client))
  }

  // ---------------------------------------------------------------------
  // One step
  // ---------------------------------------------------------------------

  /** All that the theorems need to know about a teardown step. */
  ghost predicate TearShape(st: Store, op: Operation, t: Point, c: Choice, o: Outcome)
    requires t.Tear?
  {
    && Shaped(o.exec)
    && (o.exec.Running? ==>
          o.exec.op == op && (Plain(o.exec.at).Tear? || o.exec.at == Finish || Plain(o.exec.at) == Return))
    && (o.exec.Running? && Plain(o.exec.at).Tear? ==>
          && Plain(o.exec.at).side == t.side
          && (t.tear != AdoptRead ==> Plain(o.exec.at).client == t.client))
    && (Stops(o.exec) ==>
          Stops(Running(op, t)) || Cleared(st, Running(op, t), c, op, t.side, Plain(o.exec.at).client))
    && (o.exec.Running? && Plain(o.exec.at).Tear? && Plain(o.exec.at).tear == Remove ==>
          && t.tear == StopRunner && o.exec.at == t.(tear := Remove)
          && c.Proceed? && (t.client ==> c.reply == RunnerStopped))
    && (Get(st, t.side).Some? && Get(o.store, t.side).None? ==> t.tear == Remove)
    && Get(o.store, if t.side == Source then Replacement else Source)
       == Get(st, if t.side == Source then Replacement else Source)
  }

  predicate Quietening(p: TearPoint) {
    p == StopRead || p == StopDrain || p == StopPoll || p == StopUnroute
  }

  lemma QuietenShape(st: Store, op: Operation, t: Point, reply: Reply)
    requires t.Tear? && Quietening(t.tear)
    ensures TearShape(st, op, t, Proceed(reply), StopStep(st, op, t, reply))
  {}

  lemma SettleShape(st: Store, op: Operation, t: Point, reply: Reply)
    requires t.Tear? && InStopModel(t.tear) && !Quietening(t.tear)
    ensures TearShape(st, op, t, Proceed(reply), StopStep(st, op, t, reply))
  {}

  lemma StopShape(st: Store, op: Operation, t: Point, reply: Reply)
    requires t.Tear? && InStopModel(t.tear)
    ensures TearShape(st, op, t, Proceed(reply), StopStep(st, op, t, reply))
  {
    if Quietening(t.tear) { QuietenShape(st, op, t, reply); } else { SettleShape(st, op, t, reply); }
  }

  lemma StopLostShape(st: Store, op: Operation, t: Point, reply: Reply)
    requires t.Tear? && InStopModel(t.tear)
    ensures TearShape(st, op, t, Lost(reply), Outcome(StopStep(st, op, t, reply).store, Thrown(op, t)))
  {}

  predicate Entering(p: TearPoint) {
    p == Lookup || p == Adopt || p == AdoptRead
  }

  lemma EnterShape(st: Store, op: Operation, t: Point, reply: Reply)
    requires t.Tear? && Entering(t.tear)
    ensures TearShape(st, op, t, Proceed(reply), TearStep(st, op, t, reply))
  {}

  lemma LeaveShape(st: Store, op: Operation, t: Point, reply: Reply)
    requires t.Tear? && !InStopModel(t.tear) && !Entering(t.tear)
    ensures TearShape(st, op, t, Proceed(reply), TearStep(st, op, t, reply))
  {}

  lemma EdgeLostShape(st: Store, op: Operation, t: Point, reply: Reply)
    requires t.Tear? && !InStopModel(t.tear)
    ensures TearShape(st, op, t, Lost(reply), Outcome(TearStep(st, op, t, reply).store, Thrown(op, t)))
  {}

  /** And about any other step. */
  ghost predicate PlainShape(st: Store, e: Executor, c: Choice, o: Outcome)
    requires e.Running?
  {
    && Shaped(o.exec)
    && (o.exec.Running? && o.exec.at == RecoverError ==>
          o.exec.op == e.op && e.at.RecoverLookup? && c == Proceed(RunnerAbsent))
    && (o.exec.Running? && o.exec.at == WriteCleanup ==>
          o.exec.op == e.op && !e.at.WriteCleanup? && StateOf(o.store.replacement) == Some(Error))
    && (Stops(o.exec) ==>
          var t := Plain(o.exec.at);
          || (Tearing(e, o.exec.op, t.side, t.client) && Stops(e))
          || Cleared(st, e, c, o.exec.op, t.side, t.client))
    && !(o.exec.Running? && Plain(o.exec.at).Tear? && Plain(o.exec.at).tear == Remove)
    && (st.source.Some? ==> o.store.source.Some?) && (st.replacement.Some? ==> o.store.replacement.Some?)
    && (StateOf(o.store.replacement) == Some(Error) && StateOf(st.replacement) != Some(Error) ==> e.at == RecoverError)
  }

  lemma RecoverShape(st: Store, op: Operation, at: Point, reply: Reply)
    requires Recovering(at)
    ensures PlainShape(st, Running(op, at), Proceed(reply), PointStep(st, op, at, reply))
  {}

  lemma RefreshShape(st: Store, op: Operation, at: Point, reply: Reply)
    requires (at.Refresh? || at.RefreshStore?) && Shaped(Running(op, at))
    ensures PlainShape(st, Running(op, at), Proceed(reply), PointStep(st, op, at, reply))
  {}

  lemma ProceedShape(st: Store, op: Operation, at: Point, reply: Reply)
    requires !at.Tear? && !Recovering(at) && !at.Refresh? && !at.RefreshStore?
    ensures PlainShape(st, Running(op, at), Proceed(reply), PointStep(st, op, at, reply))
  {}

  lemma LostRecoverShape(st: Store, op: Operation, at: Point, reply: Reply)
    requires Recovering(at)
    ensures PlainShape(st, Running(op, at), Lost(reply), Outcome(PointStep(st, op, at, reply).store, Thrown(op, at)))
  {}

  lemma LostShape(st: Store, op: Operation, at: Point, reply: Reply)
    requires !at.Tear? && !Recovering(at) && Shaped(Running(op, at))
    ensures PlainShape(st, Running(op, at), Lost(reply), Outcome(PointStep(st, op, at, reply).store, Thrown(op, at)))
  {}

  lemma FaultShape(st: Store, op: Operation, at: Point)
    requires Shaped(Running(op, at))
    ensures !at.Tear? ==> PlainShape(st, Running(op, at), Fault, Outcome(st, Thrown(op, at)))
    ensures at.Tear? ==> TearShape(st, op, at, Fault, Outcome(st, Thrown(op, at)))
  {}

  /** All that the theorems need to know about any step of the executor. */
  ghost predicate StepShape(st: Store, e: Executor, c: Choice, o: Outcome) {
    if e.Idle? then o.exec.Idle? || o.exec.at == Dispatch
    else if e.at.Tear? then TearShape(st, e.op, e.at, c, o)
    else PlainShape(st, e, c, o)
  }

  lemma TearStepShape(st: Store, op: Operation, t: Point, reply: Reply)
    requires t.Tear?
    ensures TearShape(st, op, t, Proceed(reply), TearStep(st, op, t, reply))
  {
    if InStopModel(t.tear) { StopShape(st, op, t, reply); }
    else if Entering(t.tear) { EnterShape(st, op, t, reply); }
    else { LeaveShape(st, op, t, reply); }
  }

  lemma EveryProceedShaped(st: Store, e: Executor, reply: Reply)
    requires e.Running? && Shaped(e)
    ensures StepShape(st, e, Proceed(reply), PointStep(st, e.op, e.at, reply))
  {
    if e.at.Tear? { TearStepShape(st, e.op, e.at, reply); }
    else if Recovering(e.at) { RecoverShape(st, e.op, e.at, reply); }
    else if e.at.Refresh? || e.at.RefreshStore? { RefreshShape(st, e.op, e.at, reply); }
    else { ProceedShape(st, e.op, e.at, reply); }
  }

  lemma EveryLostShaped(st: Store, e: Executor, reply: Reply)
    requires e.Running? && Shaped(e)
    ensures StepShape(st, e, Lost(reply), Outcome(PointStep(st, e.op, e.at, reply).store, Thrown(e.op, e.at)))
  {
    if Recovering(e.at) { LostRecoverShape(st, e.op, e.at, reply); }
    else if !e.at.Tear? { LostShape(st, e.op, e.at, reply); }
    else if InStopModel(e.at.tear) { StopLostShape(st, e.op, e.at, reply); }
    else { EdgeLostShape(st, e.op, e.at, reply); }
  }

  lemma CrashShaped(st: Store, e: Executor)
    requires e.Running?
    ensures StepShape(st, e, Crash, Outcome(st, Idle))
  {}

  lemma EveryStepShaped(st: Store, e: Executor, c: Choice)
    requires Shaped(e)
    ensures StepShape(st, e, c, ExecStep(st, e, c)) && Shaped(ExecStep(st, e, c).exec)
  {
    if e.Running? {
      match c
      case Crash => CrashShaped(st, e);
      case Fault => FaultShape(st, e.op, e.at);
      case Proceed(reply) => EveryProceedShaped(st, e, reply);
      case Lost(reply) => EveryLostShaped(st, e, reply);
    }
  }

  // ---------------------------------------------------------------------
  // Whole runs
  // ---------------------------------------------------------------------

  lemma {:induction false} TracedShaped(run: seq<System>, events: seq<Event>, i: nat)
    requires Traced(run, events) && i < |run|
    ensures Shaped(run[i].exec)
  {
    if i > 0 {
      TracedShaped(run, events, i - 1);
      if events[i - 1].Execute? { EveryStepShaped(run[i - 1].store, run[i - 1].exec, events[i - 1].choice); }
    }
  }

  /** The shape of step i. */
  lemma TracedStep(run: seq<System>, events: seq<Event>, i: nat)
    requires Traced(run, events) && i < |events| && events[i].Execute?
    ensures Shaped(run[i].exec)
    ensures StepShape(run[i].store, run[i].exec, events[i].choice, Outcome(run[i + 1].store, run[i + 1].exec))
  {
    TracedShaped(run, events, i);
    EveryStepShaped(run[i].store, run[i].exec, events[i].choice);
  }

  /** The executor has been where it is ever since step j. */
  predicate Since(run: seq<System>, j: nat, i: nat)
    requires i < |run|
  {
    j < i && forall k :: j < k <= i ==> run[k].exec == run[i].exec
  }

  /** Step j was the executor's, taken with this choice. */
  predicate Took(events: seq<Event>, j: nat, c: Choice) {
    j < |events| && events[j] == Execute(c)
  }

  predicate AnsweredAbsent(run: seq<System>, events: seq<Event>, j: nat, op: Operation) {
    && j < |run| && run[j].exec.Running? && run[j].exec.op == op && run[j].exec.at.RecoverLookup?
    && Took(events, j, Proceed(RunnerAbsent))
  }

  /**
   * An executor about to fail the replacement was answered, to its last lookup and
   * since then has done nothing else, that the runner is absent after the grace
   * period.
   */
  lemma {:induction false} FailsOnlyTheAbsent(run: seq<System>, events: seq<Event>, i: nat) returns (j: nat)
    requires Traced(run, events) && i < |run|
    requires run[i].exec.Running? && run[i].exec.at == RecoverError
    ensures Since(run, j, i) && AnsweredAbsent(run, events, j, run[i].exec.op)
  {
    j := i - 1;
    if run[i - 1].exec == run[i].exec {
      j := FailsOnlyTheAbsent(run, events, i - 1);
    } else {
      TracedStep(run, events, i - 1);
    }
  }

  /** Any other answer leaves everything as it is: the start goes on, or a later executor asks again. */
  lemma OtherAnswersWait(s: System, reply: Reply)
    requires s.exec.Running? && (s.exec.at.RecoverLookup? || (s.exec.at.Tear? && s.exec.at.tear == Lookup))
    requires reply == NoWorker || reply == RunnerStarting || reply == RunnerAbsentInGrace
    ensures var s' := Apply(s, Execute(Proceed(reply)));
            s'.store == s.store && s'.exec == Idle
  {}

  /** The executor itself makes the replacement ERROR only so, or while it tears the replacement down. */
  lemma {:induction false} ErrorOnlyFromAnswer(run: seq<System>, events: seq<Event>, i: nat)
    requires Traced(run, events) && i < |events| && events[i].Execute?
    requires StateOf(run[i].store.replacement) != Some(Error) && StateOf(run[i + 1].store.replacement) == Some(Error)
    ensures run[i].exec.Running?
    ensures run[i].exec.at == RecoverError || (run[i].exec.at.Tear? && run[i].exec.at.side == Replacement)
  {
    TracedStep(run, events, i);
  }

  /** A move still starting is given up only with its replacement failed. */
  lemma {:induction false} GivesUpOnlyTheFailed(run: seq<System>, events: seq<Event>, i: nat) returns (j: nat)
    requires Traced(run, events) && i < |run|
    requires run[i].exec.Running? && run[i].exec.at == WriteCleanup
    ensures Since(run, j, i) && StateOf(run[j + 1].store.replacement) == Some(Error)
    ensures j < |events| && events[j].Execute?
  {
    j := i - 1;
    if run[i - 1].exec == run[i].exec {
      j := GivesUpOnlyTheFailed(run, events, i - 1);
    } else {
      TracedStep(run, events, i - 1);
    }
  }

  /** Since step j the executor has been stopping the same instance. */
  predicate StopsSince(run: seq<System>, j: nat, i: nat, op: Operation, side: Side, client: bool)
    requires i < |run|
  {
    j < i && forall k :: j < k <= i ==> Tearing(run[k].exec, op, side, client) && Stops(run[k].exec)
  }

  predicate ClearedAt(run: seq<System>, events: seq<Event>, j: nat, op: Operation, side: Side, client: bool) {
    && j < |run| && j < |events| && events[j].Execute?
    && Cleared(run[j].store, run[j].exec, events[j].choice, op, side, client)
  }

  lemma StopsStep(run: seq<System>, events: seq<Event>, i: nat)
    requires Traced(run, events) && i < |events| && Stops(run[i + 1].exec)
    ensures var op, t := run[i + 1].exec.op, Plain(run[i + 1].exec.at);
            || (Tearing(run[i].exec, op, t.side, t.client) && Stops(run[i].exec))
            || ClearedAt(run, events, i, op, t.side, t.client)
  {
    if events[i].Execute? { TracedStep(run, events, i); }
  }

  /** An executor that is stopping an instance was cleared to, and has been stopping it ever since. */
  lemma {:induction false} StopsOnlyWhenCleared(run: seq<System>, events: seq<Event>, i: nat) returns (j: nat)
    requires Traced(run, events) && i < |run| && Stops(run[i].exec)
    ensures var e, t := run[i].exec, Plain(run[i].exec.at);
            StopsSince(run, j, i, e.op, t.side, t.client) && ClearedAt(run, events, j, e.op, t.side, t.client)
  {
    j := i - 1;
    StopsStep(run, events, j);
    var e, t := run[i].exec, Plain(run[i].exec.at);
    if Tearing(run[i - 1].exec, e.op, t.side, t.client) && Stops(run[i - 1].exec) {
      j := StopsOnlyWhenCleared(run, events, i - 1);
    }
  }

  /** Told to stop the runner of the instance, the worker confirmed that it is gone. */
  predicate ConfirmedAt(run: seq<System>, events: seq<Event>, j: nat, op: Operation, t: Point)
    requires t.Tear?
  {
    && j < |run| && run[j].exec == Running(op, t.(tear := StopRunner))
    && j < |events| && events[j].Execute? && events[j].choice.Proceed?
    && (t.client ==> events[j].choice.reply == RunnerStopped)
  }

  lemma {:induction false} RemovesOnlyTheStopped(run: seq<System>, events: seq<Event>, i: nat) returns (j: nat)
    requires Traced(run, events) && i < |run|
    requires run[i].exec.Running? && run[i].exec.at.Tear? && run[i].exec.at.tear == Remove
    ensures Since(run, j, i) && ConfirmedAt(run, events, j, run[i].exec.op, run[i].exec.at)
  {
    j := i - 1;
    if run[i - 1].exec == run[i].exec {
      j := RemovesOnlyTheStopped(run, events, i - 1);
    } else {
      TracedStep(run, events, i - 1);
    }
  }

  /**
   * An executor drops a record only at the end of a teardown of that side in which
   * the worker confirmed that the runner the record named is gone.
   */
  lemma {:induction false} DropsOnlyTheStopped(run: seq<System>, events: seq<Event>, i: nat, side: Side)
    returns (j: nat)
    requires Traced(run, events) && i < |events| && events[i].Execute?
    requires Get(run[i].store, side).Some? && Get(run[i + 1].store, side).None?
    ensures run[i].exec.Running? && run[i].exec.at.Tear? && run[i].exec.at.side == side
    ensures Since(run, j, i) && ConfirmedAt(run, events, j, run[i].exec.op, run[i].exec.at)
  {
    TracedStep(run, events, i);
    j := RemovesOnlyTheStopped(run, events, i);
  }

  // ---------------------------------------------------------------------
  // Draining before stopping
  // ---------------------------------------------------------------------

  /** It is past the drain: the endpoint, the state, the runner and the record are taken away from here on. */
  predicate PastDrain(e: Executor) {
    && e.Running? && Plain(e.at).Tear?
    && Plain(e.at).tear in {StopUnroute, StopReread, StopFail, StopBegin, StopSettle, StopRunner, Remove}
  }

  /** What lets it pass with a runner to ask: the answer that it has drained, or a record that does not serve. */
  predicate FoundQuiet(st: Store, e: Executor, c: Choice, op: Operation, side: Side) {
    && e.Running? && e.op == op && e.at.Tear? && e.at.side == side && e.at.client && c.Proceed?
    && (|| (e.at.tear == StopPoll && c.reply == Drained)
        || (&& e.at.tear == StopRead && Get(st, side).Some?
            && Get(st, side).value.state != Active && Get(st, side).value.state != Draining))
  }

  /** What one step says about that. */
  predicate DrainShape(st: Store, e: Executor, c: Choice, o: Outcome) {
    PastDrain(o.exec) && Plain(o.exec.at).client ==>
      var op, side := o.exec.op, Plain(o.exec.at).side;
      (Tearing(e, op, side, true) && PastDrain(e)) || FoundQuiet(st, e, c, op, side)
  }

  lemma StopDrainShape(st: Store, op: Operation, t: Point, reply: Reply)
    requires t.Tear? && InStopModel(t.tear)
    ensures DrainShape(st, Running(op, t), Proceed(reply), StopStep(st, op, t, reply))
  {}

  lemma TearDrainShape(st: Store, op: Operation, t: Point, reply: Reply)
    requires t.Tear?
    ensures DrainShape(st, Running(op, t), Proceed(reply), TearStep(st, op, t, reply))
  {
    if InStopModel(t.tear) { StopDrainShape(st, op, t, reply); }
  }

  lemma PlainDrainShape(st: Store, op: Operation, at: Point, reply: Reply)
    requires !at.Tear? && Shaped(Running(op, at))
    ensures DrainShape(st, Running(op, at), Proceed(reply), PointStep(st, op, at, reply))
  {}

  lemma EveryDrainShaped(st: Store, e: Executor, c: Choice)
    requires Shaped(e)
    ensures DrainShape(st, e, c, ExecStep(st, e, c))
  {
    if e.Running? && c.Proceed? {
      if e.at.Tear? { TearDrainShape(st, e.op, e.at, c.reply); } else { PlainDrainShape(st, e.op, e.at, c.reply); }
    }
  }

  predicate QuietAt(run: seq<System>, events: seq<Event>, j: nat, op: Operation, side: Side) {
    && j < |run| && j < |events| && events[j].Execute?
    && FoundQuiet(run[j].store, run[j].exec, events[j].choice, op, side)
  }

  lemma DrainStep(run: seq<System>, events: seq<Event>, i: nat)
    requires Traced(run, events) && i < |events| && PastDrain(run[i + 1].exec) && Plain(run[i + 1].exec.at).client
    ensures var op, side := run[i + 1].exec.op, Plain(run[i + 1].exec.at).side;
            (Tearing(run[i].exec, op, side, true) && PastDrain(run[i].exec)) || QuietAt(run, events, i, op, side)
  {
    TracedShaped(run, events, i);
    if events[i].Execute? { EveryDrainShaped(run[i].store, run[i].exec, events[i].choice); }
  }

  /**
   * An executor that takes an instance with a known runner away has, earlier in
   * the same teardown, been answered that the runner has drained, or found a
   * record that was neither ACTIVE nor DRAINING.
   */
  lemma {:induction false} DrainsBeforeStopping(run: seq<System>, events: seq<Event>, i: nat) returns (j: nat)
    requires Traced(run, events) && i < |run| && PastDrain(run[i].exec) && Plain(run[i].exec.at).client
    ensures var op, side := run[i].exec.op, Plain(run[i].exec.at).side;
            && j < i && QuietAt(run, events, j, op, side)
            && forall k :: j < k <= i ==> Tearing(run[k].exec, op, side, true) && PastDrain(run[k].exec)
  {
    j := i - 1;
    var op, side := run[i].exec.op, Plain(run[i].exec.at).side;
    DrainStep(run, events, j);
    if Tearing(run[i - 1].exec, op, side, true) && PastDrain(run[i - 1].exec) {
      j := DrainsBeforeStopping(run, events, i - 1);
    }
  }
}
