/**
 * A move is resumable: from whatever state crashes and failures have left it in,
 * an executor to which nothing happens brings it to its end. This module follows
 * the executor step by step from a given store.
 */
module MoveCompletes {
  import opened Options
  import opened Lifecycle
  import opened MoveProtocol
  import opened MoveSafety

  /** The reply that lets each outside call succeed; `ready` is the worker's answer about a start. */
  function GoodReply(ready: bool, e: Executor): Reply {
    if e.Idle? then Nothing
    else if e.at.AwaitBarrier? then BarrierPassed
    else if e.at.RecoverLookup? || (e.at.Tear? && e.at.tear.Lookup?) then
      (if ready then RunnerReady else RunnerAbsent)
    else if e.at.Tear? && e.at.tear.StopPoll? then Drained
    else if e.at.Tear? && e.at.tear.StopRunner? then RunnerStopped
    else Nothing
  }

  /** The executor's next step when nothing fails. */
  function Step(ready: bool, o: Outcome): Outcome {
    ExecStep(o.store, o.exec, Proceed(GoodReply(ready, o.exec)))
  }

  /** What the executor does from `o` on, one step after another. */
  function After(ready: bool, o: Outcome, n: nat): Outcome {
    if n == 0 then o else Step(ready, After(ready, o, n - 1))
  }

  /** Where an executor starts, and what the worker answers on the way. */
  datatype Course = Course(ready: bool, from: Outcome)

  /** The executor gets there. */
  ghost predicate Reaches(c: Course, o: Outcome) {
    exists n: nat :: After(c.ready, c.from, n) == o
  }

  lemma Starts(c: Course)
    ensures Reaches(c, c.from)
  {
    assert After(c.ready, c.from, 0) == c.from;
  }

  lemma StepOn(c: Course, p: Outcome, q: Outcome)
    requires Reaches(c, p) && q == Step(c.ready, p)
    ensures Reaches(c, q)
  {
    var n: nat :| After(c.ready, c.from, n) == p;
    assert After(c.ready, c.from, n + 1) == q;
  }

  // ---------------------------------------------------------------------
  // Tearing one side down
  // ---------------------------------------------------------------------

  function Other(side: Side): Side {
    if side == Source then Replacement else Source
  }

  /** Nothing about the operation or the other side has changed. */
  predicate Spares(side: Side, st: Store, st': Store) {
    && st'.op == st.op && st'.others == st.others
    && Get(st', Other(side)) == Get(st, Other(side)) && Weight(st', Other(side)) == Weight(st, Other(side))
  }

  /** The other side is ACTIVE, whatever has become of this one. */
  predicate Backed(side: Side, st: Store) {
    StateOf(Get(st, Other(side))) == Some(Active) && st.route.Some?
  }

  /** With an instance ACTIVE, a refresh lists and writes ACTIVE. */
  lemma RefreshIsActive(side: Side, st: Store)
    requires Backed(side, st)
    ensures RefreshRead(st) == Some(RActive)
  {
    var states := InstanceStates(st);
    assert states[if side == Source && st.source.Some? then 1 else 0] == Active;
    RoutesActiveExactly(states);
  }

  lemma Refreshes(c: Course, side: Side, st: Store, op: Operation, next: Point)
    requires Backed(side, st) && Reaches(c, At(st, op, Refresh(false, next)))
    ensures Reaches(c, At(RefreshWrite(st, Some(RActive)), op, next))
  {
    RefreshIsActive(side, st);
    var stored := RefreshStore(Some(RActive), false, next);
    StepOn(c, At(st, op, Refresh(false, next)), At(st, op, stored));
    StepOn(c, At(st, op, stored), At(RefreshWrite(st, Some(RActive)), op, next));
  }

  /** An ambiguous start without a recorded runner is looked up first. */
  lemma LooksUp(c: Course, st: Store, op: Operation, side: Side) returns (st': Store, client: bool)
    requires Get(st, side).Some? && Reaches(c, At(st, op, TearStart(side, Get(st, side).value)))
    ensures Spares(side, st, st') && st'.route == st.route && StateOf(Get(st', side)) == StateOf(Get(st, side))
    ensures Get(st, side).value.placed ==> Get(st', side).value.placed
    ensures Reaches(c, At(st', op, Tear(side, client, false, StopRead)))
  {
    var r := Get(st, side).value;
    st', client := st, r.placed;
    if r.ambiguous && !r.placed {
      var t := Tear(side, false, false, Lookup);
      if c.ready {
        st', client := Put(st, side, Some(r.(placed := true))), true;
        StepOn(c, At(st, op, t), At(st, op, t.(tear := Adopt)));
        StepOn(c, At(st, op, t.(tear := Adopt)), At(st', op, t.(tear := AdoptRead)));
        StepOn(c, At(st', op, t.(tear := AdoptRead)), At(st', op, Tear(side, true, false, StopRead)));
      } else {
        StepOn(c, At(st, op, t), At(st, op, t.(tear := StopRead)));
      }
    }
  }

  /** An ACTIVE instance is taken out of service. */
  lemma Drains(c: Course, st: Store, op: Operation, t: Point) returns (st': Store)
    requires t.Tear? && t.tear == StopDrain && Backed(t.side, st) && StateOf(Get(st, t.side)) == Some(Active)
    requires Reaches(c, At(st, op, t))
    ensures Spares(t.side, st, st') && st'.route.Some?
    ensures Get(st', t.side) == Some(Get(st, t.side).value.(state := Draining))
    ensures Reaches(c, At(st', op, t.(tear := if t.client then StopPoll else StopUnroute)))
  {
    var drained := Transition(st, t.side, Draining);
    var next := t.(tear := if t.client then StopPoll else StopUnroute);
    StepOn(c, At(st, op, t), At(drained, op, Refresh(false, next)));
    Refreshes(c, t.side, drained, op, next);
    st' := RefreshWrite(drained, Some(RActive));
  }

  lemma Polls(c: Course, st: Store, op: Operation, t: Point)
    requires t.Tear? && t.tear == StopPoll && Reaches(c, At(st, op, t))
    ensures Reaches(c, At(st, op, t.(tear := StopUnroute)))
  {
    StepOn(c, At(st, op, t), At(st, op, t.(tear := StopUnroute)));
  }

  /** From the first read to the point where nothing is in flight any more. */
  lemma Quietens(c: Course, st: Store, op: Operation, t: Point) returns (st': Store)
    requires t.Tear? && t.tear == StopRead && Backed(t.side, st) && Get(st, t.side).Some?
    requires Reaches(c, At(st, op, t))
    ensures Spares(t.side, st, st') && st'.route.Some?
    ensures Get(st', t.side).Some? && Get(st', t.side).value.state != Active
    ensures Reaches(c, At(st', op, t.(routed := Get(st, t.side).value.placed, tear := StopUnroute)))
  {
    var r := Get(st, t.side).value;
    var t' := t.(routed := r.placed);
    st' := st;
    if r.state == Active {
      StepOn(c, At(st, op, t), At(st, op, t'.(tear := StopDrain)));
      st' := Drains(c, st, op, t'.(tear := StopDrain));
      if t.client { Polls(c, st', op, t'.(tear := StopPoll)); }
    } else if r.state == Draining && t.client {
      StepOn(c, At(st, op, t), At(st, op, t'.(tear := StopPoll)));
      Polls(c, st, op, t'.(tear := StopPoll));
    } else {
      StepOn(c, At(st, op, t), At(st, op, t'.(tear := StopUnroute)));
    }
  }

  /** The endpoint goes. */
  lemma Unroutes(c: Course, st: Store, op: Operation, t: Point) returns (st': Store)
    requires t.Tear? && t.tear == StopUnroute && st.route.Some? && Reaches(c, At(st, op, t))
    ensures Spares(t.side, st, st') && st'.route.Some? && Get(st', t.side) == Get(st, t.side)
    ensures t.routed ==> !HasEndpoint(st', t.side)
    ensures Reaches(c, At(st', op, t.(tear := StopReread)))
  {
    st' := if t.routed then RemoveEndpoint(st, t.side) else st;
    StepOn(c, At(st, op, t), At(st', op, t.(tear := StopReread)));
  }

  /** The record is as good as forgotten: whatever it says, only its removal is left. */
  predicate Settled(side: Side, st: Store, st': Store) {
    && Spares(side, st, st') && st'.route == st.route && Get(st', side).Some?
  }

  /** The last edge to STOPPED. */
  lemma Stops(c: Course, st: Store, op: Operation, t: Point) returns (st': Store)
    requires t.Tear? && t.tear == StopSettle && Reaches(c, At(st, op, t))
    requires StateOf(Get(st, t.side)) == Some(Stopping) || StateOf(Get(st, t.side)) == Some(Error)
    ensures Settled(t.side, st, st')
    ensures Reaches(c, At(st', op, Refresh(false, t.(tear := StopRunner))))
  {
    st' := Transition(st, t.side, Stopped);
    StepOn(c, At(st, op, t), At(st', op, Refresh(false, t.(tear := StopRunner))));
  }

  /** The edge before it, by way of STOPPING or ERROR. */
  lemma BeginsStop(c: Course, st: Store, op: Operation, t: Point) returns (st': Store)
    requires t.Tear? && (t.tear == StopBegin || t.tear == StopFail) && Reaches(c, At(st, op, t))
    requires CanTransition(st, t.side, if t.tear == StopBegin then Stopping else Error)
    ensures Settled(t.side, st, st')
    ensures StateOf(Get(st', t.side)) == Some(Stopping) || StateOf(Get(st', t.side)) == Some(Error)
    ensures Reaches(c, At(st', op, t.(tear := StopSettle)))
  {
    st' := Transition(st, t.side, if t.tear == StopBegin then Stopping else Error);
    StepOn(c, At(st, op, t), At(st', op, t.(tear := StopSettle)));
  }

  /** Where the second read of the record leads. */
  function NextStop(state: State): TearPoint {
    match state
    case Pending => StopFail
    case Starting => StopFail
    case Draining => StopBegin
    case Sleeping => StopBegin
    case Stopping => StopSettle
    case Error => StopSettle
    case Active => StopRunner
    case Stopped => StopRunner
  }

  lemma Rereads(c: Course, st: Store, op: Operation, t: Point)
    requires t.Tear? && t.tear == StopReread && Get(st, t.side).Some? && Reaches(c, At(st, op, t))
    ensures var p := NextStop(Get(st, t.side).value.state);
            var next := t.(tear := p);
            Reaches(c, At(st, op, if p == StopRunner then Refresh(false, next) else next))
  {
    var p := NextStop(Get(st, t.side).value.state);
    var next := t.(tear := p);
    StepOn(c, At(st, op, t), At(st, op, if p == StopRunner then Refresh(false, next) else next));
  }

  /** From whatever state it is in, an instance that is not ACTIVE settles. */
  lemma Settles(c: Course, st: Store, op: Operation, t: Point) returns (st': Store)
    requires t.Tear? && t.tear == StopReread && Reaches(c, At(st, op, t))
    requires Get(st, t.side).Some? && Get(st, t.side).value.state != Active
    ensures Settled(t.side, st, st')
    ensures Reaches(c, At(st', op, Refresh(false, t.(tear := StopRunner))))
  {
    var p := NextStop(Get(st, t.side).value.state);
    Rereads(c, st, op, t);
    st' := st;
    if p == StopFail || p == StopBegin {
      st' := BeginsStop(c, st, op, t.(tear := p));
      st' := Stops(c, st', op, t.(tear := StopSettle));
    } else if p == StopSettle {
      st' := Stops(c, st, op, t.(tear := StopSettle));
    }
  }

  /** The runner is stopped and the record dropped. */
  lemma Forgets(c: Course, st: Store, op: Operation, t: Point)
    requires t.Tear? && t.tear == StopRunner && Reaches(c, At(st, op, t))
    ensures Reaches(c, At(Put(st, t.side, None), op, Finish))
  {
    StepOn(c, At(st, op, t), At(st, op, t.(tear := Remove)));
    StepOn(c, At(st, op, t.(tear := Remove)), At(Put(st, t.side, None), op, Finish));
  }

  /** One side is gone and the other untouched. */
  predicate Gone(side: Side, st: Store, st': Store) {
    && Spares(side, st, st') && Get(st', side).None?
    && st'.route.Some? && st'.route.value.state == RActive
  }

  /** A teardown runs through from every lifecycle state of its instance. */
  lemma TearsDown(c: Course, st: Store, op: Operation, side: Side) returns (st': Store)
    requires Backed(side, st) && Get(st, side).Some?
    requires Reaches(c, At(st, op, TearStart(side, Get(st, side).value)))
    ensures Gone(side, st, st') && (Get(st, side).value.placed ==> !HasEndpoint(st', side))
    ensures Reaches(c, At(st', op, Finish))
  {
    var client, t;
    st', client := LooksUp(c, st, op, side);
    t := Tear(side, client, Get(st', side).value.placed, StopUnroute);
    st' := Quietens(c, st', op, Tear(side, client, false, StopRead));
    st' := Unroutes(c, st', op, t);
    st' := Settles(c, st', op, t.(tear := StopReread));
    Refreshes(c, side, st', op, t.(tear := StopRunner));
    st' := RefreshWrite(st', Some(RActive));
    Forgets(c, st', op, t.(tear := StopRunner));
    st' := Put(st', side, None);
  }

  // ---------------------------------------------------------------------
  // From each phase to the end
  // ---------------------------------------------------------------------

  /** An idle executor reads the operation. */
  lemma Dispatches(c: Course, st: Store)
    requires c.from == Outcome(st, Idle) && st.op.Some?
    ensures Reaches(c, At(st, st.op.value, Dispatch))
  {
    Starts(c);
    StepOn(c, Outcome(st, Idle), At(st, st.op.value, Dispatch));
  }

  lemma Finishes(c: Course, st: Store)
    requires st.op.Some? && Reaches(c, At(st, st.op.value, Finish))
    ensures Reaches(c, Outcome(st.(op := None), Idle))
  {
    StepOn(c, At(st, st.op.value, Finish), Outcome(st.(op := None), Idle));
  }

  /** In a terminal phase the executor reads the record of the side to tear down. */
  lemma ReadsTerminal(c: Course, st: Store, side: Side)
    requires InPhase(st, if side == Source then SourceDraining else ReplacementCleanup)
    requires Reaches(c, At(st, st.op.value, Dispatch))
    ensures var r := Get(st, side);
            Reaches(c, At(st, st.op.value, if r.None? then Finish else TearStart(side, r.value)))
  {
    var op, r := st.op.value, Get(st, side);
    var read := if side == Source then SourceRead else CleanupRead;
    StepOn(c, At(st, op, Dispatch), At(st, op, read));
    StepOn(c, At(st, op, read), At(st, op, if r.None? then Finish else TearStart(side, r.value)));
  }

  /** A terminal phase ends with its side gone and the other untouched. */
  lemma TerminalEnds(c: Course, st: Store, side: Side) returns (end: Store)
    requires InPhase(st, if side == Source then SourceDraining else ReplacementCleanup)
    requires Backed(side, st) && st.route.value.state == RActive
    requires Reaches(c, At(st, st.op.value, Dispatch))
    ensures end.op.None? && Gone(side, st.(op := None), end)
    ensures (if Get(st, side).Some? then Get(st, side).value.placed else !HasEndpoint(st, side)) ==>
              !HasEndpoint(end, side)
    ensures Reaches(c, Outcome(end, Idle))
  {
    ReadsTerminal(c, st, side);
    end := st;
    if Get(st, side).Some? {
      end := TearsDown(c, st, st.op.value, side);
    }
    Finishes(c, end);
    end := end.(op := None);
  }

  /** The replacement serves, and the source is whole in the given state. */
  predicate Ready(st: Store, state: State) {
    && st.op.Some? && ReplacementServes(st) && HasEndpoint(st, Source)
    && st.source.Some? && st.source.value.state == state && st.source.value.placed
  }

  /** What cutting over leaves alone. */
  predicate Same(st: Store, st': Store) {
    && st'.replacement == st.replacement && Weight(st', Replacement) == Weight(st, Replacement)
    && st'.others == st.others
  }

  /** From READY or CUTTING_OVER, the latter perhaps not for the first time, to the persisted cutover. */
  lemma Decides(c: Course, st: Store) returns (st': Store)
    requires InPhase(st, ReplacementReady) || InPhase(st, CuttingOver)
    requires Reaches(c, At(st, st.op.value, Dispatch))
    requires Ready(st, Active) || Ready(st, Draining)
    ensures st' == st.(op := Some(Operation(st.op.value.id, CuttingOver)))
    ensures Reaches(c, At(st', st'.op.value, if st.source.value.state == Active then CutOver else WriteSourceDraining))
  {
    var op, cut := st.op.value, Operation(st.op.value.id, CuttingOver);
    st' := st.(op := Some(cut));
    StepOn(c, At(st, op, Dispatch), At(st, op, ReadReplacement(st.source)));
    StepOn(c, At(st, op, ReadReplacement(st.source)), At(st, op, WriteCuttingOver(st.source.value)));
    StepOn(c, At(st, op, WriteCuttingOver(st.source.value)),
           At(st', cut, if st.source.value.state == Active then CutOver else WriteSourceDraining));
  }

  /** Cut over, wait for the proxies, take the source out of service. */
  lemma CutsOver(c: Course, st: Store) returns (st': Store)
    requires Ready(st, Active) && InPhase(st, CuttingOver) && Reaches(c, At(st, st.op.value, CutOver))
    ensures Ready(st', Draining) && InPhase(st', CuttingOver) && Same(st, st')
    ensures Reaches(c, At(st', st'.op.value, Refresh(false, WriteSourceDraining)))
  {
    var cut := st.op.value;
    var silent := SetWeight(st, Source, 0);
    st' := Transition(silent, Source, Draining);
    StepOn(c, At(st, cut, CutOver), At(silent, cut, AwaitBarrier));
    StepOn(c, At(silent, cut, AwaitBarrier), At(silent, cut, DrainSource));
    StepOn(c, At(silent, cut, DrainSource), At(st', cut, Refresh(false, WriteSourceDraining)));
  }

  /** SOURCE_DRAINING is persisted. */
  lemma Commits(c: Course, st: Store)
    requires InPhase(st, CuttingOver) && Reaches(c, At(st, st.op.value, WriteSourceDraining))
    ensures var drain := Operation(st.op.value.id, SourceDraining);
            Reaches(c, At(st.(op := Some(drain)), drain, Dispatch))
  {
    var drain := Operation(st.op.value.id, SourceDraining);
    StepOn(c, At(st, st.op.value, WriteSourceDraining), At(st.(op := Some(drain)), drain, Dispatch));
  }

  /** From READY or CUTTING_OVER to SOURCE_DRAINING. */
  lemma ReachesDraining(c: Course, st: Store) returns (st': Store)
    requires InPhase(st, ReplacementReady) || InPhase(st, CuttingOver)
    requires Reaches(c, At(st, st.op.value, Dispatch))
    requires Ready(st, Active) || (Ready(st, Draining) && st.route.value.state == RActive)
    ensures Ready(st', Draining) && InPhase(st', SourceDraining) && Same(st, st')
    ensures st'.route.value.state == RActive && Reaches(c, At(st', st'.op.value, Dispatch))
  {
    st' := Decides(c, st);
    if st.source.value.state == Active {
      st' := CutsOver(c, st');
      Refreshes(c, Source, st', st'.op.value, WriteSourceDraining);
      st' := RefreshWrite(st', Some(RActive));
    }
    Commits(c, st');
    st' := st'.(op := Some(Operation(st'.op.value.id, SourceDraining)));
  }

  // ---------------------------------------------------------------------
  // Taking up a start
  // ---------------------------------------------------------------------

  /** The source serves and the replacement has the given record. */
  predicate Launched(st: Store, r: Record) {
    && InPhase(st, ReplacementStarting) && st.replacement == Some(r)
    && StateOf(st.source) == Some(Active) && st.source.value.placed && HasEndpoint(st, Source) && st.route.Some?
  }

  lemma AsksWorker(c: Course, st: Store, r: Record)
    requires Launched(st, r) && (r.state == Pending || r.state == Starting)
    requires Reaches(c, At(st, st.op.value, Dispatch))
    ensures Reaches(c, At(st, st.op.value, RecoverLookup(r.state == Pending)))
  {
    StepOn(c, At(st, st.op.value, Dispatch), At(st, st.op.value, RecoverLookup(r.state == Pending)));
  }

  /** Answered ready, the executor records the runner's endpoint. */
  lemma Adopts(c: Course, st: Store, r: Record)
    requires c.ready && Launched(st, r) && (r.state == Pending || r.state == Starting)
    requires Reaches(c, At(st, st.op.value, RecoverLookup(r.state == Pending)))
    ensures Reaches(c, At(st.(replacement := Some(r.(state := Starting, placed := true))), st.op.value, RecoverRoute))
  {
    var op := st.op.value;
    var starting := st.(replacement := Some(r.(state := Starting)));
    if r.state == Pending {
      StepOn(c, At(st, op, RecoverLookup(true)), At(st, op, RecoverStart));
      StepOn(c, At(st, op, RecoverStart), At(starting, op, RecoverEndpoint));
    } else {
      assert starting == st;
      StepOn(c, At(st, op, RecoverLookup(false)), At(st, op, RecoverEndpoint));
    }
    StepOn(c, At(starting, op, RecoverEndpoint),
           At(st.(replacement := Some(r.(state := Starting, placed := true))), op, RecoverRoute));
  }

  /** It routes traffic to it and makes it ACTIVE. */
  lemma Activates(c: Course, st: Store, r: Record) returns (st': Store)
    requires Launched(st, r) && r.state == Starting && r.placed
    requires Reaches(c, At(st, st.op.value, RecoverRoute))
    ensures Launched(st', r.(state := Active)) && st'.op == st.op && Weight(st', Replacement) == 1
    ensures st'.source == st.source && st'.others == st.others
    ensures Reaches(c, At(st', st.op.value, Refresh(false, WriteReady)))
  {
    var op := st.op.value;
    var routed := AddEndpoint(st, Replacement, 1);
    st' := routed.(replacement := Some(r.(state := Active)));
    StepOn(c, At(st, op, RecoverRoute), At(routed, op, RecoverActivate));
    StepOn(c, At(routed, op, RecoverActivate), At(st', op, Refresh(false, WriteReady)));
  }

  /** The phase of the operation is written and the executor goes on from it. */
  lemma WritesPhase(c: Course, st: Store, at: Point, to: Phase)
    requires InPhase(st, ReplacementStarting) && Reaches(c, At(st, st.op.value, at))
    requires (at == WriteReady && to == ReplacementReady) || (at == WriteCleanup && to == ReplacementCleanup)
    ensures var op := Operation(st.op.value.id, to);
            Reaches(c, At(st.(op := Some(op)), op, Dispatch))
  {
    var op := Operation(st.op.value.id, to);
    StepOn(c, At(st, st.op.value, at), At(st.(op := Some(op)), op, Dispatch));
  }

  /** A start whose runner is up becomes READY with the replacement serving. */
  lemma StartBecomesReady(c: Course, st: Store, r: Record) returns (st': Store)
    requires c.ready && Launched(st, r) && (r.state == Pending || r.state == Starting)
    requires Reaches(c, At(st, st.op.value, Dispatch))
    ensures Ready(st', Active) && InPhase(st', ReplacementReady) && st'.source == st.source
    ensures st'.replacement == Some(r.(state := Active, placed := true)) && st'.route.value.state == RActive
    ensures Reaches(c, At(st', st'.op.value, Dispatch))
  {
    AsksWorker(c, st, r);
    Adopts(c, st, r);
    var adopted := r.(state := Starting, placed := true);
    st' := Activates(c, st.(replacement := Some(adopted)), adopted);
    Refreshes(c, Replacement, st', st'.op.value, WriteReady);
    st' := RefreshWrite(st', Some(RActive));
    WritesPhase(c, st', WriteReady, ReplacementReady);
    st' := st'.(op := Some(Operation(st'.op.value.id, ReplacementReady)));
  }

  /** A start whose runner is absent for good is failed and cleaned up. */
  lemma StartIsFailed(c: Course, st: Store, r: Record) returns (st': Store)
    requires !c.ready && Launched(st, r) && (r.state == Pending || r.state == Starting)
    requires Reaches(c, At(st, st.op.value, Dispatch))
    ensures InPhase(st', ReplacementCleanup) && Spares(Replacement, st, st'.(op := st.op)) && st'.route == st.route
    ensures st'.replacement == Some(r.(state := Error))
    ensures Reaches(c, At(st', st'.op.value, Dispatch))
  {
    AsksWorker(c, st, r);
    var op, failed := st.op.value, st.(replacement := Some(r.(state := Error)));
    StepOn(c, At(st, op, RecoverLookup(r.state == Pending)), At(st, op, RecoverError));
    StepOn(c, At(st, op, RecoverError), At(failed, op, WriteCleanup));
    WritesPhase(c, failed, WriteCleanup, ReplacementCleanup);
    st' := failed.(op := Some(Operation(op.id, ReplacementCleanup)));
  }

  /** From any store, READY or cutting over with both sides whole, to the replacement serving alone. */
  lemma UndisturbedMoveCompletes(ready: bool, st: Store) returns (end: Store)
    requires Ready(st, Active) && (InPhase(st, ReplacementReady) || InPhase(st, CuttingOver))
    ensures Reaches(Course(ready, Outcome(st, Idle)), Outcome(end, Idle))
    ensures end.op.None? && end.source.None? && !HasEndpoint(end, Source)
    ensures Same(st, end) && Served(end)
  {
    var c := Course(ready, Outcome(st, Idle));
    Dispatches(c, st);
    var at := ReachesDraining(c, st);
    end := TerminalEnds(c, at, Source);
  }
}
