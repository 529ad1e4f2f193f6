/**
 * The resumable move transaction (control-plane/src/services/move-orchestration.ts)
 * as a step machine over the shared store: every await of `resume` is one step,
 * every Lua script is atomic, and the process may die or see a failed call
 * between any two steps.
 *
 * The two instances of a move live at different addresses, so an address is
 * named after the instance that owns it.
 */
module MoveProtocol {
  import opened Options
  import opened Lifecycle

  // ---------------------------------------------------------------------
  // The durable operation record
  // ---------------------------------------------------------------------

  datatype Phase =
    | ReplacementStarting
    | ReplacementReady
    | CuttingOver
    | SourceDraining
    | ReplacementCleanup

  datatype Operation = Operation(id: nat, phase: Phase)

  /** The phase changes that the update script lets through. */
  predicate AllowedPhase(from: Phase, to: Phase) {
    match from
    case ReplacementStarting => to == ReplacementReady || to == ReplacementCleanup
    case ReplacementReady => to == CuttingOver || to == ReplacementCleanup
    case CuttingOver => to == SourceDraining || to == ReplacementCleanup
    case SourceDraining => false
    case ReplacementCleanup => false
  }

  /** updateMoveOperation: None when the operation is gone, foreign, or refuses the phase. */
  function UpdatePhase(op: Option<Operation>, id: nat, to: Phase): Option<Operation> {
    if op.None? || op.value.id != id then None
    else if op.value.phase == to || AllowedPhase(op.value.phase, to) then Some(Operation(id, to))
    else None
  }

  /** removeMoveOperation: the stored operation afterwards. */
  function RemoveOperation(op: Option<Operation>, id: nat): Option<Operation> {
    if op.Some? && op.value.id == id then None else op
  }

  // ---------------------------------------------------------------------
  // The shared store
  // ---------------------------------------------------------------------

  datatype Side = Source | Replacement

  datatype Address = AddressOf(side: Side) | Elsewhere(n: nat)

  /**
   * A lifecycle record. `placed` says that runner host, port and id are stored;
   * they are always written together.
   */
  datatype Record = Record(state: State, placed: bool, ambiguous: bool)

  /** A routing entry: model state and the traffic weight of each endpoint. */
  datatype Route = Route(state: RoutingState, weights: map<Address, nat>)

  datatype Store = Store(
    op: Option<Operation>,
    source: Option<Record>,
    replacement: Option<Record>,
    others: seq<State>,
    route: Option<Route>)

  function Get(st: Store, side: Side): Option<Record> {
    match side
    case Source => st.source
    case Replacement => st.replacement
  }

  function Put(st: Store, side: Side, r: Option<Record>): Store {
    match side
    case Source => st.(source := r)
    case Replacement => st.(replacement := r)
  }

  function Weight(st: Store, side: Side): nat {
    if st.route.Some? && AddressOf(side) in st.route.value.weights
    then st.route.value.weights[AddressOf(side)] else 0
  }

  /** The lifecycle compare-and-set succeeds. */
  predicate CanTransition(st: Store, side: Side, to: State) {
    Get(st, side).Some? && ValidTransition(Get(st, side).value.state, to)
  }

  function Transition(st: Store, side: Side, to: State): Store
    requires CanTransition(st, side, to)
  {
    Put(st, side, Some(Get(st, side).value.(state := to)))
  }

  function AddEndpoint(st: Store, side: Side, weight: nat): Store {
    var r := if st.route.Some? then st.route.value else Route(RStarting, map[]);
    st.(route := Some(r.(weights := r.weights[AddressOf(side) := weight])))
  }

  function RemoveEndpoint(st: Store, side: Side): Store {
    if st.route.None? then st
    else st.(route := Some(st.route.value.(weights := st.route.value.weights - {AddressOf(side)})))
  }

  predicate HasEndpoint(st: Store, side: Side) {
    st.route.Some? && AddressOf(side) in st.route.value.weights
  }

  function SetWeight(st: Store, side: Side, weight: nat): Store
    requires HasEndpoint(st, side)
  {
    AddEndpoint(st, side, weight)
  }

  /** The states a listing of the model's instances returns. */
  function InstanceStates(st: Store): seq<State> {
    (if st.source.Some? then [st.source.value.state] else [])
    + (if st.replacement.Some? then [st.replacement.value.state] else [])
    + st.others
  }

  /** First half of refreshModelRoutingState: list the instances and derive the state. */
  function RefreshRead(st: Store): Option<RoutingState> {
    RoutingStateOf(InstanceStates(st))
  }

  /** Second half: write the state, or drop the entry together with its endpoints. */
  function RefreshWrite(st: Store, r: Option<RoutingState>): Store {
    match r
    case Some(s) =>
      var weights := if st.route.Some? then st.route.value.weights else map[];
      st.(route := Some(Route(s, weights)))
    case None => st.(route := None)
  }

  // ---------------------------------------------------------------------
  // The executor
  // ---------------------------------------------------------------------

  /** Program points of `teardown` with `stopModel` unfolded into it. */
  datatype TearPoint =
    | Lookup           // getRunnerByInstance
    | Adopt            // setRunnerEndpoint with the worker's answer
    | AdoptRead        // read the record back
    | StopRead         // stopModel: first read of the record
    | StopDrain        // ACTIVE -> DRAINING
    | StopPoll         // waitForDrain
    | StopUnroute      // removeEndpoint
    | StopReread       // second read of the record
    | StopFail         // PENDING/STARTING -> ERROR
    | StopBegin        // DRAINING/SLEEPING -> STOPPING
    | StopSettle       // -> STOPPED
    | StopError        // catch of stopModel: -> ERROR, rethrow
    | StopRunner       // worker stopRunner
    | Remove           // removeInstance
    | TearCatch        // catch of teardown

  /**
   * Program points of `resume`; each names the await that comes next. In a
   * teardown `client` says that the caller's record named a runner and `routed`
   * that the record `stopModel` read did.
   */
  datatype Point =
    | Dispatch                                  // branch on the phase of the operation just obtained
    | RecoverLookup(pending: bool)              // getRunnerByInstance
    | RecoverError                              // -> ERROR after the grace period
    | RecoverErrorRead                          // re-read after a refused ERROR
    | RecoverStart                              // PENDING -> STARTING
    | RecoverEndpoint                           // setRunnerEndpoint
    | RecoverRoute                              // addEndpoint, weight 1
    | RecoverActivate                           // -> ACTIVE
    | RecoverActivateRead                       // re-read after a refused ACTIVE
    | WriteReady
    | WriteCleanup
    | WriteCleanupAndStop                       // the same write, after which `resume` returns
    | CleanupRead
    | ReadReplacement(seen: Option<Record>)
    | RestoreWeight(source: Record, cleanup: bool)
    | WriteCuttingOver(source: Record)
    | CutOver                                   // the cutover script
    | AwaitBarrier
    | DrainSource                               // ACTIVE -> DRAINING
    | WriteSourceDraining
    | SourceRead
    | Tear(side: Side, client: bool, routed: bool, tear: TearPoint)
    | Finish
    | Return
    | Refresh(quiet: bool, next: Point)         // refreshModelRoutingState, listing
    | RefreshStore(r: Option<RoutingState>, quiet: bool, next: Point)

  datatype Executor = Idle | Running(op: Operation, at: Point)

  /** What a call outside the store answers; a reply that does not fit the call is a failure. */
  datatype Reply =
    | Nothing
    | NoWorker
    | RunnerStarting
    | RunnerAbsentInGrace
    | RunnerAbsent
    | RunnerReady
    | BarrierPassed
    | Drained
    | PollReportedError
    | RunnerStopped

  datatype Choice =
    | Crash               // the process dies, or has lost leadership
    | Fault               // the awaited call throws
    | Lost(reply: Reply)  // the awaited call takes effect and then throws
    | Proceed(reply: Reply)

  datatype Outcome = Outcome(store: Store, exec: Executor)

  function At(st: Store, op: Operation, at: Point): Outcome {
    Outcome(st, Running(op, at))
  }

  function Stop(st: Store): Outcome {
    Outcome(st, Idle)
  }

  /**
   * Where a throw at `at` lands; leaving `resume` altogether is Idle. A refresh
   * inside a best-effort error transition is quiet: its failure is swallowed.
   */
  function Thrown(op: Operation, at: Point): Executor {
    match at
    case Tear(side, client, routed, p) =>
      if p in {StopDrain, StopPoll, StopUnroute, StopReread, StopFail, StopBegin, StopSettle}
      then Running(op, Tear(side, client, routed, StopError))
      else if p == TearCatch then Idle
      else Running(op, Tear(side, client, routed, TearCatch))
    case RecoverError => Running(op, RecoverErrorRead)
    case RecoverActivate => Running(op, RecoverActivateRead)
    case Refresh(quiet, next) => ThrownInRefresh(op, quiet, next)
    case RefreshStore(_, quiet, next) => ThrownInRefresh(op, quiet, next)
    case _ => Idle
  }

  function ThrownInRefresh(op: Operation, quiet: bool, next: Point): Executor {
    if quiet then Running(op, next)
    else if next.Tear? then Running(op, next.(tear := StopError))
    else Idle
  }

  function AfterPhaseWrite(st: Store, op: Operation, to: Phase, next: Point): Outcome {
    var updated := UpdatePhase(st.op, op.id, to);
    if updated.None? then Stop(st) else At(st.(op := updated), updated.value, next)
  }

  /** The start of `teardown` on the record just read: ask the worker about an ambiguous start. */
  function TearStart(side: Side, r: Record): Point {
    Tear(side, r.placed, false, if r.ambiguous && !r.placed then Lookup else StopRead)
  }

  predicate InStopModel(p: TearPoint) {
    || p == StopRead || p == StopDrain || p == StopPoll || p == StopUnroute || p == StopReread
    || p == StopFail || p == StopBegin || p == StopSettle || p == StopError
  }

  /** The steps of `stopModel` on behalf of the teardown `t`. */
  function StopStep(st: Store, op: Operation, t: Point, reply: Reply): Outcome
    requires t.Tear? && InStopModel(t.tear)
  {
    var side := t.side;
    var rec := Get(st, side);
    match t.tear
    case StopRead =>
      if rec.None? then At(st, op, t.(tear := TearCatch))
      else
        var t' := t.(routed := rec.value.placed);
        if rec.value.state == Active then At(st, op, t'.(tear := StopDrain))
        else if rec.value.state == Draining && t.client then At(st, op, t'.(tear := StopPoll))
        else At(st, op, t'.(tear := StopUnroute))
    case StopDrain =>
      if CanTransition(st, side, Draining)
      then At(Transition(st, side, Draining), op,
              Refresh(false, t.(tear := if t.client then StopPoll else StopUnroute)))
      else At(st, op, t.(tear := StopError))
    case StopPoll =>
      (match reply
       case Drained => At(st, op, t.(tear := StopUnroute))
       case PollReportedError =>
         if CanTransition(st, side, Error)
         then At(Transition(st, side, Error), op, Refresh(true, t))
         else At(st, op, t)
       case _ => At(st, op, t.(tear := StopError)))
    case StopUnroute =>
      At(if t.routed then RemoveEndpoint(st, side) else st, op, t.(tear := StopReread))
    case StopReread =>
      if rec.None? then At(st, op, Refresh(false, t.(tear := StopRunner)))
      else (match rec.value.state
            case Pending => At(st, op, t.(tear := StopFail))
            case Starting => At(st, op, t.(tear := StopFail))
            case Draining => At(st, op, t.(tear := StopBegin))
            case Sleeping => At(st, op, t.(tear := StopBegin))
            case Stopping => At(st, op, t.(tear := StopSettle))
            case Error => At(st, op, t.(tear := StopSettle))
            case Active => At(st, op, Refresh(false, t.(tear := StopRunner)))
            case Stopped => At(st, op, Refresh(false, t.(tear := StopRunner))))
    case StopFail =>
      if CanTransition(st, side, Error)
      then At(Transition(st, side, Error), op, t.(tear := StopSettle))
      else At(st, op, t.(tear := StopError))
    case StopBegin =>
      if CanTransition(st, side, Stopping)
      then At(Transition(st, side, Stopping), op, t.(tear := StopSettle))
      else At(st, op, t.(tear := StopError))
    case StopSettle =>
      if CanTransition(st, side, Stopped)
      then At(Transition(st, side, Stopped), op, Refresh(false, t.(tear := StopRunner)))
      else At(st, op, t.(tear := StopError))
    case StopError =>
      if CanTransition(st, side, Error)
      then At(Transition(st, side, Error), op, Refresh(true, t.(tear := TearCatch)))
      else At(st, op, t.(tear := TearCatch))
  }

  function TearStep(st: Store, op: Operation, t: Point, reply: Reply): Outcome
    requires t.Tear?
  {
    var side := t.side;
    var rec := Get(st, side);
    if InStopModel(t.tear) then StopStep(st, op, t, reply)
    else
    match t.tear
    case Lookup =>
      (match reply
       case NoWorker => Stop(st)
       case RunnerStarting => Stop(st)
       case RunnerAbsentInGrace => Stop(st)
       case RunnerAbsent => At(st, op, t.(tear := StopRead))
       case RunnerReady => At(st, op, t.(tear := Adopt))
       case _ => At(st, op, t.(tear := TearCatch)))
    case Adopt =>
      if rec.None? then At(st, op, t.(tear := TearCatch))
      else At(Put(st, side, Some(rec.value.(placed := true))), op, t.(tear := AdoptRead))
    case AdoptRead =>
      if rec.None? then Stop(st)
      else At(st, op, t.(client := rec.value.placed, tear := StopRead))
    case StopRunner =>
      if !t.client || reply == RunnerStopped then At(st, op, t.(tear := Remove))
      else At(st, op, t.(tear := TearCatch))
    case Remove => At(Put(st, side, None), op, Finish)
    case TearCatch =>
      if rec.Some? && rec.value.state == Stopped
      then At(Transition(st, side, Error), op, Refresh(true, Return))
      else Stop(st)
  }

  /** One step of `resume` at program point `at`, given the reply of the awaited call. */
  function PointStep(st: Store, op: Operation, at: Point, reply: Reply): Outcome {
    match at
    case Dispatch =>
      (match op.phase
       case ReplacementStarting =>
         if st.replacement.None? then At(st, op, Finish)
         else (match st.replacement.value.state
               case Pending => At(st, op, RecoverLookup(true))
               case Starting => At(st, op, RecoverLookup(false))
               case Active => At(st, op, WriteReady)
               case Error => At(st, op, WriteCleanup)
               case _ => Stop(st))
       case ReplacementReady => At(st, op, ReadReplacement(st.source))
       case CuttingOver => At(st, op, ReadReplacement(st.source))
       case SourceDraining => At(st, op, SourceRead)
       case ReplacementCleanup => At(st, op, CleanupRead))
    case RecoverLookup(pending) =>
      (match reply
       case RunnerAbsent => At(st, op, RecoverError)
       case RunnerReady => At(st, op, if pending then RecoverStart else RecoverEndpoint)
       case _ => Stop(st))
    case RecoverError =>
      if CanTransition(st, Replacement, Error)
      then At(Transition(st, Replacement, Error), op, WriteCleanup)
      else At(st, op, RecoverErrorRead)
    case RecoverErrorRead =>
      if StateOf(st.replacement) == Some(Active) then At(st, op, WriteReady) else Stop(st)
    case RecoverStart =>
      if CanTransition(st, Replacement, Starting)
      then At(Transition(st, Replacement, Starting), op, RecoverEndpoint)
      else Stop(st)
    case RecoverEndpoint =>
      if st.replacement.None? then Stop(st)
      else At(Put(st, Replacement, Some(st.replacement.value.(placed := true))), op, RecoverRoute)
    case RecoverRoute => At(AddEndpoint(st, Replacement, 1), op, RecoverActivate)
    case RecoverActivate =>
      if CanTransition(st, Replacement, Active)
      then At(Put(st, Replacement, Some(st.replacement.value.(state := Active, placed := true))), op,
              Refresh(false, WriteReady))
      else At(st, op, RecoverActivateRead)
    case RecoverActivateRead =>
      if StateOf(st.replacement) == Some(Active)
      then At(st, op, Refresh(false, WriteReady)) else Stop(st)
    case WriteReady => AfterPhaseWrite(st, op, ReplacementReady, Dispatch)
    case WriteCleanup => AfterPhaseWrite(st, op, ReplacementCleanup, Dispatch)
    case WriteCleanupAndStop => AfterPhaseWrite(st, op, ReplacementCleanup, Return)
    case CleanupRead =>
      if st.replacement.None? then At(st, op, Finish)
      else At(st, op, TearStart(Replacement, st.replacement.value))
    case ReadReplacement(seen) =>
      var replacement := StateOf(st.replacement);
      if seen.None? then
        (if replacement == Some(Active) then At(st, op, Finish)
         else if replacement == Some(Error) then At(st, op, WriteCleanupAndStop)
         else if replacement.None? then At(st, op, Finish)
         else Stop(st))
      else if replacement == Some(Active) then At(st, op, WriteCuttingOver(seen.value))
      else if replacement.Some? && replacement.value != Error then Stop(st)
      else if seen.value.state != Active then Stop(st)
      else if op.phase == CuttingOver then At(st, op, RestoreWeight(seen.value, replacement.Some?))
      else At(st, op, if replacement.Some? then WriteCleanupAndStop else Finish)
    case RestoreWeight(source, cleanup) =>
      if !source.placed || !HasEndpoint(st, Source) then Stop(st)
      else At(SetWeight(st, Source, 1), op, if cleanup then WriteCleanupAndStop else Finish)
    case WriteCuttingOver(source) =>
      var written := AfterPhaseWrite(st, op, CuttingOver, CutOver);
      if written.exec.Idle? || (source.state == Active && source.placed) then written
      else if source.state == Draining then written.(exec := written.exec.(at := WriteSourceDraining))
      else Stop(written.store)
    case CutOver =>
      if !HasEndpoint(st, Source) then Stop(st) else At(SetWeight(st, Source, 0), op, AwaitBarrier)
    case AwaitBarrier => if reply == BarrierPassed then At(st, op, DrainSource) else Stop(st)
    case DrainSource =>
      if CanTransition(st, Source, Draining)
      then At(Transition(st, Source, Draining), op, Refresh(false, WriteSourceDraining))
      else Stop(st)
    case WriteSourceDraining => AfterPhaseWrite(st, op, SourceDraining, Dispatch)
    case SourceRead =>
      if st.source.None? then At(st, op, Finish)
      else At(st, op, TearStart(Source, st.source.value))
    case Tear(_, _, _, _) => TearStep(st, op, at, reply)
    case Finish => Stop(st.(op := RemoveOperation(st.op, op.id)))
    case Return => Stop(st)
    case Refresh(quiet, next) => At(st, op, RefreshStore(RefreshRead(st), quiet, next))
    case RefreshStore(r, _, next) => At(RefreshWrite(st, r), op, next)
  }

  function StateOf(r: Option<Record>): Option<State> {
    if r.Some? then Some(r.value.state) else None
  }

  /** One step of an executor; an idle executor starts `resume` by reading the operation. */
  function ExecStep(st: Store, e: Executor, c: Choice): Outcome {
    match c
    case Crash => Stop(st)
    case Fault => Outcome(st, if e.Idle? then Idle else Thrown(e.op, e.at))
    case Lost(reply) =>
      if e.Idle? then Stop(st) else Outcome(PointStep(st, e.op, e.at, reply).store, Thrown(e.op, e.at))
    case Proceed(reply) =>
      if e.Idle? then (if st.op.None? then Stop(st) else At(st, st.op.value, Dispatch))
      else PointStep(st, e.op, e.at, reply)
  }

  // ---------------------------------------------------------------------
  // Phases only ever move forward
  // ---------------------------------------------------------------------

  /** How far a phase has got; the two terminal phases share the last rank. */
  function PhaseRank(p: Phase): nat {
    match p
    case ReplacementStarting => 0
    case ReplacementReady => 1
    case CuttingOver => 2
    case SourceDraining => 3
    case ReplacementCleanup => 3
  }

  /**
   * A phase write is accepted exactly on the operation's own id, for the present
   * phase, the next one, or the cleanup from any phase before the terminal ones.
   */
  lemma PhaseAdvances(op: Option<Operation>, id: nat, to: Phase)
    ensures UpdatePhase(op, id, to).Some? <==>
              && op.Some? && op.value.id == id
              && var from := op.value.phase;
                 || from == to
                 || (PhaseRank(from) < 3 && (PhaseRank(to) == PhaseRank(from) + 1 || to == ReplacementCleanup))
    ensures UpdatePhase(op, id, to).Some? ==> UpdatePhase(op, id, to).value == Operation(id, to)
  {}
}
