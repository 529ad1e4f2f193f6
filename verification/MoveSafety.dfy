/**
 * Safety of the move transaction over whole runs with one executor at a time:
 * the executor may die at any await and be restarted by a later one, any call
 * may fail, and other actors work on the shared store in between.
 */
module MoveSafety {
  import opened Options
  import opened Lifecycle
  import opened MoveProtocol

  /**
   * `pending` holds the results of routing refreshes that other actors have
   * computed and not yet written. The last four fields record the run: whether
   * the replacement's record was ever created, whether CUTTING_OVER and
   * SOURCE_DRAINING were ever persisted, and whether the routing barrier has
   * returned since the source's weight last changed.
   */
  datatype System = System(
    store: Store,
    exec: Executor,
    pending: set<Option<RoutingState>>,
    created: bool,
    cut: bool,
    drained: bool,
    barrier: bool)

  datatype Event =
    | Execute(choice: Choice)
    | RefreshBegin                        // another actor lists the instances
    | RefreshEnd(r: Option<RoutingState>) // and writes what it derived, possibly much later
    | Outside(store: Store)               // any other change made by another actor

  /**
   * Which outside changes a run admits beyond those of every run. `calm`: a
   * replacement that is ACTIVE is left alone. `lateCreation`: its record may be
   * created while an executor that missed it is about to finish. `lateCleanup`:
   * the failure report of the request may arrive in CUTTING_OVER.
   * `lateActivation`: the replacement may become ACTIVE between the executor's
   * lookup of its runner and the ERROR write that follows an absent one.
   */
  datatype Environment = Environment(calm: bool, lateCreation: bool, lateCleanup: bool, lateActivation: bool)

  predicate InPhase(st: Store, p: Phase) {
    st.op.Some? && st.op.value.phase == p
  }

  /** The system with a new store, its phase recorded. */
  function With(s: System, st: Store, e: Executor, barrier: bool): System {
    System(st, e, s.pending,
           s.created || st.replacement.Some?,
           s.cut || InPhase(st, CuttingOver),
           s.drained || InPhase(st, SourceDraining),
           barrier)
  }

  function BarrierAfter(s: System, c: Choice): bool {
    if s.exec.Idle? || c.Crash? || c.Fault? then s.barrier
    else if s.exec.at == CutOver || s.exec.at.RestoreWeight? then false
    else if s.exec.at == AwaitBarrier && c.Proceed? then c.reply == BarrierPassed
    else s.barrier
  }

  function Apply(s: System, ev: Event): System {
    match ev
    case Execute(c) =>
      var o := ExecStep(s.store, s.exec, c);
      With(s, o.store, o.exec, BarrierAfter(s, c))
    case RefreshBegin => s.(pending := s.pending + {RefreshRead(s.store)})
    case RefreshEnd(r) => s.(store := RefreshWrite(s.store, r))
    case Outside(st) => With(s, st, s.exec, s.barrier)
  }

  /**
   * The request that started the move reports its deployment, once that has
   * created the record: READY on success, CLEANUP on failure. When it cannot
   * even launch the deployment it removes the operation, and so does a delete of
   * the model in CLEANUP.
   */
  predicate OutsidePhase(env: Environment, s: System, op': Option<Operation>) {
    var op := s.store.op;
    || op' == op
    || (op.Some? && op'.None? && op.value.phase in {ReplacementStarting, ReplacementReady, ReplacementCleanup})
    || (&& op.Some? && op'.Some? && op'.value.id == op.value.id && s.created
        && (|| (op.value.phase == ReplacementStarting && op'.value.phase == ReplacementReady)
            || (&& op'.value.phase == ReplacementCleanup
                && (|| op.value.phase in {ReplacementStarting, ReplacementReady}
                    || (op.value.phase == CuttingOver && env.lateCleanup)))))
  }

  /** Other actors leave the source's record and endpoint alone and do not drop the routing entry. */
  ghost predicate SourceUntouched(st: Store, st': Store) {
    && st'.source == st.source
    && (st.route.Some? ==>
          && st'.route.Some?
          && st'.route.value.state == st.route.value.state
          && HasEndpoint(st', Source) == HasEndpoint(st, Source)
          && Weight(st', Source) == Weight(st, Source))
  }

  predicate Launching(st: Store) {
    StateOf(st.replacement) == Some(Pending) || StateOf(st.replacement) == Some(Starting)
  }

  /** The replacement's record is created once: its id is minted for this move. */
  predicate CreatedOnce(env: Environment, s: System, st': Store) {
    s.store.replacement.None? && st'.replacement.Some? ==>
      && !s.created
      && (env.lateCreation || s.exec.Idle? || s.exec.at != Finish)
  }

  /** The executor is asking for the replacement's runner, or is about to fail a replacement without one. */
  predicate Judging(e: Executor) {
    e.Running? && (e.at.RecoverLookup? || e.at.RecoverError?)
  }

  predicate ActivatedInTime(env: Environment, s: System, st': Store) {
    StateOf(st'.replacement) == Some(Active) && StateOf(s.store.replacement) != Some(Active) ==>
      env.lateActivation || !Judging(s.exec)
  }

  /**
   * An ACTIVE replacement is left alone, and whoever activates it has registered
   * its endpoint first. One that has failed or is gone may lose its endpoint, one
   * that is launching or ACTIVE does not; nobody restarts one that has failed.
   */
  ghost predicate ActiveUntouched(st: Store, st': Store) {
    && (StateOf(st.replacement) == Some(Active) ==> st'.replacement == st.replacement)
    && (Launching(st') || StateOf(st'.replacement) == Some(Active) ==>
          Weight(st, Replacement) > 0 ==> Weight(st', Replacement) > 0)
    && (StateOf(st'.replacement) == Some(Active) && StateOf(st.replacement) != Some(Active) ==>
          Weight(st', Replacement) > 0)
    && (Launching(st') ==> st.replacement.None? || Launching(st))
  }

  ghost predicate Admits(env: Environment, s: System, ev: Event) {
    match ev
    case Execute(_) => true
    case RefreshBegin => true
    case RefreshEnd(r) => r in s.pending
    case Outside(st) =>
      && OutsidePhase(env, s, st.op)
      && SourceUntouched(s.store, st)
      && CreatedOnce(env, s, st)
      && ActivatedInTime(env, s, st)
      && (env.calm ==> ActiveUntouched(s.store, st))
  }

  /** The state right after the move was admitted and its operation recorded. */
  ghost predicate Initial(s: System) {
    && s.store.op.Some? && s.store.op.value.phase == ReplacementStarting
    && s.store.source.Some? && s.store.source.value.state == Active && s.store.source.value.placed
    && s.store.replacement.None?
    && s.store.route.Some? && s.store.route.value.state == RActive
    && Weight(s.store, Source) > 0
    && s.exec == Idle && s.pending == {} && !s.created && !s.cut && !s.drained && !s.barrier
  }

  ghost predicate Next(env: Environment, s: System, s': System) {
    exists ev :: Admits(env, s, ev) && s' == Apply(s, ev)
  }

  /** A run: the states a move goes through, in order. */
  ghost predicate Run(env: Environment, run: seq<System>) {
    && run != []
    && Initial(run[0])
    && forall i :: 0 < i < |run| ==> Next(env, run[i - 1], run[i])
  }

  predicate SourceServes(st: Store) {
    StateOf(st.source) == Some(Active) && Weight(st, Source) > 0
  }

  predicate ReplacementServes(st: Store) {
    StateOf(st.replacement) == Some(Active) && Weight(st, Replacement) > 0
  }

  /** The model takes traffic: it is routed ACTIVE and one of the two instances serves. */
  predicate Served(st: Store) {
    && st.route.Some? && st.route.value.state == RActive
    && (SourceServes(st) || ReplacementServes(st))
  }

  // ---------------------------------------------------------------------
  // Invariant, whatever happens to the replacement
  // ---------------------------------------------------------------------

  /** What the executor knows about the store at each program point outside a refresh. */
  ghost predicate PlainPointInv(s: System, op: Operation, at: Point) {
    var st := s.store;
    match at
    case Dispatch => true
    case Return => true
    case RecoverLookup(_) => op.phase == ReplacementStarting
    case RecoverError => op.phase == ReplacementStarting
    case RecoverErrorRead => op.phase == ReplacementStarting
    case RecoverStart => op.phase == ReplacementStarting
    case RecoverEndpoint => op.phase == ReplacementStarting
    case RecoverRoute => op.phase == ReplacementStarting
    case RecoverActivate => op.phase == ReplacementStarting
    case RecoverActivateRead => op.phase == ReplacementStarting
    case WriteReady => op.phase == ReplacementStarting
    case WriteCleanup => op.phase == ReplacementStarting
    case WriteCleanupAndStop =>
      op.phase == ReplacementReady || (op.phase == CuttingOver && SourceServes(st))
    case CleanupRead => op.phase == ReplacementCleanup
    case ReadReplacement(seen) =>
      op.phase in {ReplacementReady, CuttingOver} && seen == st.source
    case RestoreWeight(source, _) =>
      op.phase == CuttingOver && st.source == Some(source) && source.state == Active
    case WriteCuttingOver(source) =>
      op.phase in {ReplacementReady, CuttingOver} && st.source == Some(source)
    case CutOver => op.phase == CuttingOver && StateOf(st.source) == Some(Active)
    case AwaitBarrier =>
      op.phase == CuttingOver && StateOf(st.source) == Some(Active) && Weight(st, Source) == 0
    case DrainSource =>
      && op.phase == CuttingOver && StateOf(st.source) == Some(Active)
      && Weight(st, Source) == 0 && s.barrier
    case WriteSourceDraining =>
      op.phase == CuttingOver && StateOf(st.source) == Some(Draining)
    case SourceRead => op.phase == SourceDraining
    case Tear(side, _, _, _) =>
      op.phase == (if side == Source then SourceDraining else ReplacementCleanup)
    case Finish => op.phase == CuttingOver ==> SourceServes(st)
    case Refresh(_, _) => false
    case RefreshStore(_, _, _) => false
  }

  ghost predicate PointInv(s: System, op: Operation, at: Point) {
    var plain := if at.Refresh? || at.RefreshStore? then at.next else at;
    && PlainPointInv(s, op, plain)
    && (at.RefreshStore? && !s.drained ==> at.r.Some?)
  }

  /** Before the source is torn down it is whole, and only CUTTING_OVER may take its traffic. */
  ghost predicate SourceInv(s: System) {
    var st := s.store;
    && st.source.Some? && st.source.value.placed
    && st.source.value.state in {Active, Draining}
    && HasEndpoint(st, Source)
    && None !in s.pending
    && (SourceServes(st) || InPhase(st, CuttingOver))
    && (st.source.value.state == Draining ==> s.barrier && Weight(st, Source) == 0)
  }

  ghost predicate MoveInv(s: System) {
    var st := s.store;
    && (InPhase(st, CuttingOver) || s.drained ==> s.cut)
    && (InPhase(st, SourceDraining) ==> s.drained)
    && (!s.drained ==> SourceInv(s))
    && (s.drained ==>
          s.barrier && (st.op.None? || InPhase(st, SourceDraining)))
    && (s.exec.Running? ==>
          InStep(st, s.exec.op) && PointInv(s, s.exec.op, s.exec.at) && (st.op.None? ==> !s.drained))
  }

  /** The executor's copy of the operation lags behind the stored one only where that is harmless. */
  predicate InStep(st: Store, op: Operation) {
    if st.op.None? then op.phase != CuttingOver && op.phase != SourceDraining
    else
      && st.op.value.id == op.id
      && PhaseRank(op.phase) <= PhaseRank(st.op.value.phase)
      && (PhaseRank(op.phase) >= 2 || InPhase(st, CuttingOver) || InPhase(st, SourceDraining) ==>
            st.op.value.phase == op.phase)
  }

  lemma RefreshKeepsEntry(s: System)
    requires MoveInv(s) && !s.drained
    ensures RefreshRead(s.store).Some?
  {
    var states := InstanceStates(s.store);
    assert states[0] == s.store.source.value.state;
    RoutableInstanceKeepsEntry(states);
  }

  /** A throw, a crash and the start of `resume` change nothing in the store. */
  lemma DisruptionKeepsMoveInv(s: System, c: Choice)
    requires MoveInv(s) && (c.Crash? || c.Fault? || s.exec.Idle?)
    ensures MoveInv(Apply(s, Execute(c)))
  {}

  /** Nothing about the operation or the source has changed. */
  ghost predicate SourceSame(st: Store, st': Store) {
    && st'.op == st.op && st'.source == st.source
    && (st.route.Some? ==> st'.route.Some? && st'.route.value.state == st.route.value.state)
    && HasEndpoint(st', Source) == HasEndpoint(st, Source)
    && Weight(st', Source) == Weight(st, Source)
  }

  /** Where a teardown step may lead. */
  predicate TearTarget(op: Operation, side: Side, e: Executor) {
    || e.Idle?
    || (&& e.op == op
        && (|| (e.at.Tear? && e.at.side == side)
            || e.at.Finish?
            || (e.at.Refresh? && (e.at.next.Return? || (e.at.next.Tear? && e.at.next.side == side)))))
  }

  ghost predicate TearOutcome(st: Store, op: Operation, side: Side, o: Outcome) {
    && o.store.op == st.op
    && TearTarget(op, side, o.exec)
    && (side == Replacement ==> SourceSame(st, o.store))
  }

  lemma StopFrame(st: Store, op: Operation, t: Point, reply: Reply)
    requires t.Tear? && InStopModel(t.tear)
    ensures TearOutcome(st, op, t.side, StopStep(st, op, t, reply))
  {}

  lemma TearFrame(st: Store, op: Operation, t: Point, reply: Reply)
    requires t.Tear?
    ensures TearOutcome(st, op, t.side, TearStep(st, op, t, reply))
  {
    if InStopModel(t.tear) { StopFrame(st, op, t, reply); }
  }

  lemma TearKeepsMoveInv(s: System, o: Outcome)
    requires MoveInv(s) && s.exec.Running? && s.exec.at.Tear?
    requires TearOutcome(s.store, s.exec.op, s.exec.at.side, o)
    ensures MoveInv(With(s, o.store, o.exec, s.barrier))
  {}

  predicate Recovering(at: Point) {
    || at.RecoverLookup? || at.RecoverError? || at.RecoverErrorRead? || at.RecoverStart?
    || at.RecoverEndpoint? || at.RecoverRoute? || at.RecoverActivate? || at.RecoverActivateRead?
  }

  predicate RecoverTarget(op: Operation, e: Executor) {
    || e.Idle?
    || (&& e.op == op
        && (|| Recovering(e.at) || e.at.WriteReady? || e.at.WriteCleanup?
            || (e.at.Refresh? && e.at.next.WriteReady?)))
  }

  lemma RecoverFrame(st: Store, op: Operation, at: Point, reply: Reply)
    requires Recovering(at)
    ensures var o := PointStep(st, op, at, reply);
            SourceSame(st, o.store) && RecoverTarget(op, o.exec)
  {}

  lemma RecoverKeepsMoveInv(s: System, o: Outcome)
    requires MoveInv(s) && s.exec.Running? && s.exec.op.phase == ReplacementStarting
    requires SourceSame(s.store, o.store) && RecoverTarget(s.exec.op, o.exec)
    ensures MoveInv(With(s, o.store, o.exec, s.barrier))
  {}

  lemma RefreshListKeepsMoveInv(s: System, reply: Reply)
    requires MoveInv(s) && s.exec.Running? && s.exec.at.Refresh?
    ensures MoveInv(Apply(s, Execute(Proceed(reply))))
  {
    if !s.drained { RefreshKeepsEntry(s); }
  }

  /** A refresh that writes a state keeps every weight. */
  lemma RefreshWriteFrame(st: Store, r: Option<RoutingState>, side: Side)
    ensures var st' := RefreshWrite(st, r);
            && st'.op == st.op && st'.source == st.source && st'.replacement == st.replacement
            && (r.Some? ==> HasEndpoint(st', side) == HasEndpoint(st, side) && Weight(st', side) == Weight(st, side))
  {}

  /** A step that changes only the route, and of that nothing about the source unless it is drained. */
  lemma RouteOnlyKeepsMoveInv(s: System, st: Store, e: Executor)
    requires MoveInv(s) && s.exec.Running? && s.exec.at.RefreshStore?
    requires st.op == s.store.op && st.source == s.store.source && st.replacement == s.store.replacement
    requires !s.drained ==> HasEndpoint(st, Source) == HasEndpoint(s.store, Source)
    requires !s.drained ==> Weight(st, Source) == Weight(s.store, Source)
    requires e == Running(s.exec.op, s.exec.at.next) || e == Thrown(s.exec.op, s.exec.at)
    ensures MoveInv(With(s, st, e, s.barrier))
  {}

  lemma RefreshStoreKeepsMoveInv(s: System, reply: Reply)
    requires MoveInv(s) && s.exec.Running? && s.exec.at.RefreshStore?
    ensures MoveInv(Apply(s, Execute(Proceed(reply))))
  {
    var st := RefreshWrite(s.store, s.exec.at.r);
    RefreshWriteFrame(s.store, s.exec.at.r, Source);
    assert Apply(s, Execute(Proceed(reply))) == With(s, st, Running(s.exec.op, s.exec.at.next), s.barrier);
    RouteOnlyKeepsMoveInv(s, st, Running(s.exec.op, s.exec.at.next));
  }

  lemma RefreshKeepsMoveInv(s: System, reply: Reply)
    requires MoveInv(s) && s.exec.Running? && (s.exec.at.Refresh? || s.exec.at.RefreshStore?)
    ensures MoveInv(Apply(s, Execute(Proceed(reply))))
  {
    if s.exec.at.Refresh? { RefreshListKeepsMoveInv(s, reply); } else { RefreshStoreKeepsMoveInv(s, reply); }
  }

  lemma StartWriteKeepsMoveInv(s: System, reply: Reply)
    requires MoveInv(s) && s.exec.Running?
    requires s.exec.at.WriteReady? || s.exec.at.WriteCleanup? || s.exec.at.WriteCleanupAndStop?
    ensures MoveInv(Apply(s, Execute(Proceed(reply))))
  {}

  lemma CutWriteKeepsMoveInv(s: System, reply: Reply)
    requires MoveInv(s) && s.exec.Running?
    requires s.exec.at.WriteCuttingOver? || s.exec.at.WriteSourceDraining?
    ensures MoveInv(Apply(s, Execute(Proceed(reply))))
  {}

  lemma FinishKeepsMoveInv(s: System, reply: Reply)
    requires MoveInv(s) && s.exec.Running? && s.exec.at.Finish?
    ensures MoveInv(Apply(s, Execute(Proceed(reply))))
  {}

  predicate CuttingPoint(at: Point) {
    at.RestoreWeight? || at.CutOver? || at.AwaitBarrier? || at.DrainSource?
  }

  lemma WeightKeepsMoveInv(s: System, reply: Reply)
    requires MoveInv(s) && s.exec.Running? && (s.exec.at.RestoreWeight? || s.exec.at.CutOver?)
    ensures MoveInv(Apply(s, Execute(Proceed(reply))))
  {}

  lemma DrainKeepsMoveInv(s: System, reply: Reply)
    requires MoveInv(s) && s.exec.Running? && (s.exec.at.AwaitBarrier? || s.exec.at.DrainSource?)
    ensures MoveInv(Apply(s, Execute(Proceed(reply))))
  {}

  lemma CuttingKeepsMoveInv(s: System, reply: Reply)
    requires MoveInv(s) && s.exec.Running? && CuttingPoint(s.exec.at)
    ensures MoveInv(Apply(s, Execute(Proceed(reply))))
  {
    if s.exec.at.RestoreWeight? || s.exec.at.CutOver? {
      WeightKeepsMoveInv(s, reply);
    } else {
      DrainKeepsMoveInv(s, reply);
    }
  }

  lemma DispatchKeepsMoveInv(s: System, reply: Reply)
    requires MoveInv(s) && s.exec.Running? && s.exec.at.Dispatch?
    ensures MoveInv(Apply(s, Execute(Proceed(reply))))
  {}

  lemma ReadKeepsMoveInv(s: System, reply: Reply)
    requires MoveInv(s) && s.exec.Running?
    requires s.exec.at.CleanupRead? || s.exec.at.SourceRead? || s.exec.at.Return?
    ensures MoveInv(Apply(s, Execute(Proceed(reply))))
  {}

  lemma ReadReplacementKeepsMoveInv(s: System, reply: Reply)
    requires MoveInv(s) && s.exec.Running? && s.exec.at.ReadReplacement?
    ensures MoveInv(Apply(s, Execute(Proceed(reply))))
  {
    assert !s.drained && s.exec.at.seen.Some?;
    assert PointStep(s.store, s.exec.op, s.exec.at, reply).store == s.store;
  }

  lemma FramedStepKeepsMoveInv(s: System, reply: Reply)
    requires MoveInv(s) && s.exec.Running? && (s.exec.at.Tear? || Recovering(s.exec.at))
    ensures MoveInv(Apply(s, Execute(Proceed(reply))))
  {
    var o := PointStep(s.store, s.exec.op, s.exec.at, reply);
    assert Apply(s, Execute(Proceed(reply))) == With(s, o.store, o.exec, s.barrier);
    if s.exec.at.Tear? {
      TearFrame(s.store, s.exec.op, s.exec.at, reply);
      TearKeepsMoveInv(s, o);
    } else {
      RecoverFrame(s.store, s.exec.op, s.exec.at, reply);
      RecoverKeepsMoveInv(s, o);
    }
  }

  lemma ProceedKeepsMoveInv(s: System, reply: Reply)
    requires MoveInv(s) && s.exec.Running?
    ensures MoveInv(Apply(s, Execute(Proceed(reply))))
  {
    var at := s.exec.at;
    if at.Dispatch? { DispatchKeepsMoveInv(s, reply); }
    else if at.ReadReplacement? { ReadReplacementKeepsMoveInv(s, reply); }
    else if at.Refresh? || at.RefreshStore? { RefreshKeepsMoveInv(s, reply); }
    else if at.Tear? || Recovering(at) { FramedStepKeepsMoveInv(s, reply); }
    else if at.WriteReady? || at.WriteCleanup? || at.WriteCleanupAndStop? { StartWriteKeepsMoveInv(s, reply); }
    else if at.WriteCuttingOver? || at.WriteSourceDraining? { CutWriteKeepsMoveInv(s, reply); }
    else if at.Finish? { FinishKeepsMoveInv(s, reply); }
    else if CuttingPoint(at) { CuttingKeepsMoveInv(s, reply); }
    else { ReadKeepsMoveInv(s, reply); }
  }

  /** Points without a handler of their own: a throw leaves `resume`. */
  predicate Unhandled(at: Point) {
    !at.Tear? && !Recovering(at) && !at.Refresh? && !at.RefreshStore?
  }

  lemma LostIsIdle(s: System, reply: Reply)
    requires s.exec.Running? && Unhandled(s.exec.at)
    ensures var p, q := Apply(s, Execute(Proceed(reply))), Apply(s, Execute(Lost(reply)));
            q == p.(exec := Idle, barrier := if s.exec.at == AwaitBarrier then s.barrier else p.barrier)
  {}

  lemma LostFramedKeepsMoveInv(s: System, reply: Reply)
    requires MoveInv(s) && s.exec.Running? && (s.exec.at.Tear? || Recovering(s.exec.at))
    ensures MoveInv(Apply(s, Execute(Lost(reply))))
  {
    var o := PointStep(s.store, s.exec.op, s.exec.at, reply);
    var lost := Outcome(o.store, Thrown(s.exec.op, s.exec.at));
    assert Apply(s, Execute(Lost(reply))) == With(s, lost.store, lost.exec, s.barrier);
    if s.exec.at.Tear? {
      TearFrame(s.store, s.exec.op, s.exec.at, reply);
      TearKeepsMoveInv(s, lost);
    } else {
      RecoverFrame(s.store, s.exec.op, s.exec.at, reply);
      RecoverKeepsMoveInv(s, lost);
    }
  }

  lemma LostRefreshStoreKeepsMoveInv(s: System, reply: Reply)
    requires MoveInv(s) && s.exec.Running? && s.exec.at.RefreshStore?
    ensures MoveInv(Apply(s, Execute(Lost(reply))))
  {
    var st := RefreshWrite(s.store, s.exec.at.r);
    RefreshWriteFrame(s.store, s.exec.at.r, Source);
    assert Apply(s, Execute(Lost(reply))) == With(s, st, Thrown(s.exec.op, s.exec.at), s.barrier);
    RouteOnlyKeepsMoveInv(s, st, Thrown(s.exec.op, s.exec.at));
  }

  lemma LostRefreshKeepsMoveInv(s: System, reply: Reply)
    requires MoveInv(s) && s.exec.Running? && (s.exec.at.Refresh? || s.exec.at.RefreshStore?)
    ensures MoveInv(Apply(s, Execute(Lost(reply))))
  {
    if s.exec.at.Refresh? {
      assert Apply(s, Execute(Lost(reply))) == Apply(s, Execute(Fault));
      DisruptionKeepsMoveInv(s, Fault);
    } else {
      LostRefreshStoreKeepsMoveInv(s, reply);
    }
  }

  /** A call that takes effect and then throws is no worse than one that succeeds and a crash. */
  lemma LostKeepsMoveInv(s: System, reply: Reply)
    requires MoveInv(s) && s.exec.Running?
    ensures MoveInv(Apply(s, Execute(Lost(reply))))
  {
    if Unhandled(s.exec.at) {
      ProceedKeepsMoveInv(s, reply);
      LostIsIdle(s, reply);
    } else if s.exec.at.Tear? || Recovering(s.exec.at) {
      LostFramedKeepsMoveInv(s, reply);
    } else {
      LostRefreshKeepsMoveInv(s, reply);
    }
  }

  lemma ExecKeepsMoveInv(s: System, c: Choice)
    requires MoveInv(s)
    ensures MoveInv(Apply(s, Execute(c)))
  {
    if c.Crash? || c.Fault? || s.exec.Idle? {
      DisruptionKeepsMoveInv(s, c);
    } else if c.Proceed? {
      ProceedKeepsMoveInv(s, c.reply);
    } else {
      LostKeepsMoveInv(s, c.reply);
    }
  }

  lemma OutsideKeepsMoveInv(env: Environment, s: System, st: Store)
    requires MoveInv(s) && !env.lateCleanup && OutsidePhase(env, s, st.op) && SourceUntouched(s.store, st)
    ensures MoveInv(Apply(s, Outside(st)))
  {}

  lemma RefreshBeginKeepsMoveInv(s: System)
    requires MoveInv(s)
    ensures MoveInv(Apply(s, RefreshBegin))
  {
    if !s.drained { RefreshKeepsEntry(s); }
  }

  lemma RefreshEndKeepsMoveInv(s: System, r: Option<RoutingState>)
    requires MoveInv(s) && r in s.pending
    ensures MoveInv(Apply(s, RefreshEnd(r)))
  {}

  lemma StepKeepsMoveInv(env: Environment, s: System, ev: Event)
    requires MoveInv(s) && !env.lateCleanup && Admits(env, s, ev)
    ensures MoveInv(Apply(s, ev))
  {
    match ev
    case Execute(c) => ExecKeepsMoveInv(s, c);
    case RefreshBegin => RefreshBeginKeepsMoveInv(s);
    case RefreshEnd(r) => RefreshEndKeepsMoveInv(s, r);
    case Outside(st) => OutsideKeepsMoveInv(env, s, st);
  }

  lemma {:induction false} RunKeepsMoveInv(env: Environment, run: seq<System>, i: nat)
    requires !env.lateCleanup && Run(env, run) && i < |run|
    ensures MoveInv(run[i])
  {
    if i > 0 {
      RunKeepsMoveInv(env, run, i - 1);
      assert Next(env, run[i - 1], run[i]);
      var ev :| Admits(env, run[i - 1], ev) && run[i] == Apply(run[i - 1], ev);
      StepKeepsMoveInv(env, run[i - 1], ev);
    }
  }

  /**
   * Write-ahead and rollback. Whatever happens to the replacement, in every
   * state of every run: the source has lost its traffic only if CUTTING_OVER was
   * persisted; it is drained or gone only if the barrier returned; and while the
   * move is being cleaned up, or was given up, the source serves again.
   */
  lemma {:induction false} WriteAheadAndRollback(env: Environment, run: seq<System>, i: nat)
    requires !env.lateCleanup && Run(env, run) && i < |run|
    ensures Weight(run[i].store, Source) == 0 ==> run[i].cut
    ensures StateOf(run[i].store.source) != Some(Active) ==> run[i].barrier && run[i].cut
    ensures InPhase(run[i].store, ReplacementCleanup) ==> SourceServes(run[i].store)
    ensures run[i].store.op.None? && !run[i].drained ==> SourceServes(run[i].store)
  {
    RunKeepsMoveInv(env, run, i);
  }
}
