/**
 * A move never interrupts service: as long as other actors leave the source and
 * an already ACTIVE replacement alone, and the failure report of the request does
 * not arrive in CUTTING_OVER, every state of every run, crashes and failed calls
 * included, has the model routed ACTIVE with one instance serving.
 */
module MoveUptime {
  import opened Options
  import opened Lifecycle
  import opened MoveProtocol
  import opened MoveSafety

  /** One record is left and the other is gone. */
  predicate OneRecordLeft(st: Store) {
    st.source.None? != st.replacement.None?
  }

  ghost predicate CalmPointInv(env: Environment, s: System, op: Operation, at: Point) {
    var st := s.store;
    && (at.RecoverActivate? || at.RecoverActivateRead? ==>
          Launching(st) || StateOf(st.replacement) == Some(Active) ==> Weight(st, Replacement) > 0)
    && (at.WriteCuttingOver? ==> ReplacementServes(st) || InPhase(st, ReplacementCleanup) || st.op.None?)
    && !at.RestoreWeight?
    && (at.RefreshStore? ==> at.r == Some(RActive))
    && (at.Finish? && op.phase != ReplacementStarting ==> OneRecordLeft(st))
    && (at.Finish? && op.phase == ReplacementStarting && !env.lateCreation ==> st.replacement.None?)
    && (at.Refresh? || at.RefreshStore? ==>
          at.next.Tear? || at.next.WriteReady? || at.next.WriteSourceDraining? || at.next.Return?)
    && (s.created || (op.phase == ReplacementStarting && (at.Dispatch? || at.Finish?)))
  }

  ghost predicate CalmInv(env: Environment, s: System) {
    var st := s.store;
    && st.route.Some? && st.route.value.state == RActive
    && s.pending <= {Some(RActive)}
    && (st.replacement.Some? ==> s.created)
    && (st.op.Some? && !InPhase(st, ReplacementStarting) ==> s.created)
    && (InPhase(st, CuttingOver) || s.drained ==> ReplacementServes(st))
    && (st.op.Some? && !InPhase(st, ReplacementCleanup) && StateOf(st.replacement) == Some(Active) ==>
          Weight(st, Replacement) > 0)
    && (s.exec.Running? ==> CalmPointInv(env, s, s.exec.op, s.exec.at))
  }

  lemma CalmServed(env: Environment, s: System)
    requires MoveInv(s) && CalmInv(env, s)
    ensures Served(s.store) && RefreshRead(s.store) == Some(RActive)
  {
    var states := InstanceStates(s.store);
    if SourceServes(s.store) {
      assert states[0] == Active;
    } else {
      assert ReplacementServes(s.store);
      assert states[if s.store.source.Some? then 1 else 0] == Active;
    }
    RoutesActiveExactly(states);
  }

  lemma DisruptionKeepsCalm(env: Environment, s: System, c: Choice)
    requires MoveInv(s) && CalmInv(env, s) && (c.Crash? || c.Fault? || s.exec.Idle?)
    ensures CalmInv(env, Apply(s, Execute(c)))
  {}

  lemma RefreshKeepsCalm(env: Environment, s: System, reply: Reply)
    requires MoveInv(s) && CalmInv(env, s) && s.exec.Running? && s.exec.at.Refresh?
    ensures CalmInv(env, Apply(s, Execute(Proceed(reply)))) && CalmInv(env, Apply(s, Execute(Lost(reply))))
  {
    CalmServed(env, s);
    assert Apply(s, Execute(Lost(reply))) == Apply(s, Execute(Fault));
    DisruptionKeepsCalm(env, s, Fault);
  }

  lemma RefreshStoreKeepsCalm(env: Environment, s: System, reply: Reply)
    requires MoveInv(s) && CalmInv(env, s) && s.exec.Running? && s.exec.at.RefreshStore?
    ensures CalmInv(env, Apply(s, Execute(Proceed(reply))))
  {}

  lemma LostRefreshStoreKeepsCalm(env: Environment, s: System, reply: Reply)
    requires MoveInv(s) && CalmInv(env, s) && s.exec.Running? && s.exec.at.RefreshStore?
    ensures CalmInv(env, Apply(s, Execute(Lost(reply))))
  {}

  /** A teardown leaves the other side alone and ends, if at all, with its own record gone. */
  ghost predicate TearLeaves(st: Store, side: Side, o: Outcome) {
    && (st.route.Some? ==> o.store.route.Some? && o.store.route.value.state == st.route.value.state)
    && (side == Source ==>
          o.store.replacement == st.replacement && Weight(o.store, Replacement) == Weight(st, Replacement))
    && (o.exec.Running? && o.exec.at.Finish? ==> Get(o.store, side).None?)
  }

  lemma StopLeaves(st: Store, op: Operation, t: Point, reply: Reply)
    requires t.Tear? && InStopModel(t.tear)
    ensures TearLeaves(st, t.side, StopStep(st, op, t, reply))
  {}

  lemma TearStepLeaves(st: Store, op: Operation, t: Point, reply: Reply)
    requires t.Tear?
    ensures TearLeaves(st, t.side, TearStep(st, op, t, reply))
  {
    if InStopModel(t.tear) { StopLeaves(st, op, t, reply); }
  }

  lemma TearKeepsCalm(env: Environment, s: System, o: Outcome)
    requires MoveInv(s) && CalmInv(env, s) && s.exec.Running? && s.exec.at.Tear?
    requires TearOutcome(s.store, s.exec.op, s.exec.at.side, o) && TearLeaves(s.store, s.exec.at.side, o)
    ensures CalmInv(env, With(s, o.store, o.exec, s.barrier))
  {}

  lemma ActivateKeepsCalm(env: Environment, s: System, reply: Reply)
    requires MoveInv(s) && CalmInv(env, s) && s.exec.Running?
    requires s.exec.at.RecoverRoute? || s.exec.at.RecoverActivate? || s.exec.at.RecoverActivateRead?
    ensures CalmInv(env, Apply(s, Execute(Proceed(reply))))
  {}

  lemma LaunchKeepsCalm(env: Environment, s: System, reply: Reply)
    requires MoveInv(s) && CalmInv(env, s) && s.exec.Running? && Recovering(s.exec.at)
    requires !s.exec.at.RecoverRoute? && !s.exec.at.RecoverActivate? && !s.exec.at.RecoverActivateRead?
    ensures CalmInv(env, Apply(s, Execute(Proceed(reply))))
  {}

  lemma RecoverKeepsCalm(env: Environment, s: System, reply: Reply)
    requires MoveInv(s) && CalmInv(env, s) && s.exec.Running? && Recovering(s.exec.at)
    ensures CalmInv(env, Apply(s, Execute(Proceed(reply))))
  {
    var at := s.exec.at;
    if at.RecoverRoute? || at.RecoverActivate? || at.RecoverActivateRead? {
      ActivateKeepsCalm(env, s, reply);
    } else {
      LaunchKeepsCalm(env, s, reply);
    }
  }

  lemma LostTransitionKeepsCalm(env: Environment, s: System, reply: Reply)
    requires MoveInv(s) && CalmInv(env, s) && s.exec.Running?
    requires s.exec.at.RecoverError? || s.exec.at.RecoverActivate?
    ensures CalmInv(env, Apply(s, Execute(Lost(reply))))
  {}

  lemma LostRecoverKeepsCalm(env: Environment, s: System, reply: Reply)
    requires MoveInv(s) && CalmInv(env, s) && s.exec.Running? && Recovering(s.exec.at)
    ensures CalmInv(env, Apply(s, Execute(Lost(reply))))
  {
    if s.exec.at.RecoverError? || s.exec.at.RecoverActivate? {
      LostTransitionKeepsCalm(env, s, reply);
    } else {
      RecoverKeepsCalm(env, s, reply);
      assert Apply(s, Execute(Lost(reply))) == Apply(s, Execute(Proceed(reply))).(exec := Idle);
    }
  }

  lemma StartWriteKeepsCalm(env: Environment, s: System, reply: Reply)
    requires MoveInv(s) && CalmInv(env, s) && s.exec.Running?
    requires s.exec.at.WriteReady? || s.exec.at.WriteCleanup? || s.exec.at.WriteCleanupAndStop?
    ensures CalmInv(env, Apply(s, Execute(Proceed(reply))))
  {}

  lemma CutWriteKeepsCalm(env: Environment, s: System, reply: Reply)
    requires MoveInv(s) && CalmInv(env, s) && s.exec.Running?
    requires s.exec.at.WriteCuttingOver? || s.exec.at.WriteSourceDraining? || s.exec.at.Finish?
    ensures CalmInv(env, Apply(s, Execute(Proceed(reply))))
  {}

  lemma CutKeepsCalm(env: Environment, s: System, reply: Reply)
    requires MoveInv(s) && CalmInv(env, s) && s.exec.Running? && CuttingPoint(s.exec.at)
    ensures CalmInv(env, Apply(s, Execute(Proceed(reply))))
  {}

  lemma DispatchKeepsCalm(env: Environment, s: System, reply: Reply)
    requires MoveInv(s) && CalmInv(env, s) && s.exec.Running? && s.exec.at.Dispatch?
    ensures CalmInv(env, Apply(s, Execute(Proceed(reply))))
  {}

  lemma ReadKeepsCalm(env: Environment, s: System, reply: Reply)
    requires MoveInv(s) && CalmInv(env, s) && s.exec.Running?
    requires s.exec.at.ReadReplacement? || s.exec.at.CleanupRead? || s.exec.at.SourceRead? || s.exec.at.Return?
    ensures CalmInv(env, Apply(s, Execute(Proceed(reply))))
  {}

  lemma UnhandledKeepsCalm(env: Environment, s: System, reply: Reply)
    requires MoveInv(s) && CalmInv(env, s) && s.exec.Running? && Unhandled(s.exec.at)
    ensures CalmInv(env, Apply(s, Execute(Proceed(reply))))
  {
    var at := s.exec.at;
    if CuttingPoint(at) { CutKeepsCalm(env, s, reply); }
    else if at.Dispatch? { DispatchKeepsCalm(env, s, reply); }
    else if at.ReadReplacement? || at.CleanupRead? || at.SourceRead? || at.Return? { ReadKeepsCalm(env, s, reply); }
    else if at.WriteReady? || at.WriteCleanup? || at.WriteCleanupAndStop? { StartWriteKeepsCalm(env, s, reply); }
    else { CutWriteKeepsCalm(env, s, reply); }
  }

  /** What a teardown step leaves behind, its reply lost or not. */
  lemma TearStepFramed(st: Store, op: Operation, t: Point, reply: Reply)
    requires t.Tear?
    ensures var o := TearStep(st, op, t, reply);
            var lost := Outcome(o.store, Thrown(op, t));
            && TearOutcome(st, op, t.side, o) && TearLeaves(st, t.side, o)
            && TearOutcome(st, op, t.side, lost) && TearLeaves(st, t.side, lost)
  {
    TearFrame(st, op, t, reply);
    TearStepLeaves(st, op, t, reply);
  }

  lemma TearProceedKeepsCalm(env: Environment, s: System, reply: Reply)
    requires MoveInv(s) && CalmInv(env, s) && s.exec.Running? && s.exec.at.Tear?
    ensures CalmInv(env, Apply(s, Execute(Proceed(reply))))
  {
    var o := TearStep(s.store, s.exec.op, s.exec.at, reply);
    TearStepFramed(s.store, s.exec.op, s.exec.at, reply);
    TearKeepsCalm(env, s, o);
    assert Apply(s, Execute(Proceed(reply))) == With(s, o.store, o.exec, s.barrier);
  }

  lemma TearLostKeepsCalm(env: Environment, s: System, reply: Reply)
    requires MoveInv(s) && CalmInv(env, s) && s.exec.Running? && s.exec.at.Tear?
    ensures CalmInv(env, Apply(s, Execute(Lost(reply))))
  {
    var o := TearStep(s.store, s.exec.op, s.exec.at, reply);
    var lost := Outcome(o.store, Thrown(s.exec.op, s.exec.at));
    TearStepFramed(s.store, s.exec.op, s.exec.at, reply);
    TearKeepsCalm(env, s, lost);
    assert Apply(s, Execute(Lost(reply))) == With(s, lost.store, lost.exec, s.barrier);
  }

  lemma ExecKeepsCalm(env: Environment, s: System, c: Choice)
    requires MoveInv(s) && CalmInv(env, s)
    ensures CalmInv(env, Apply(s, Execute(c)))
  {
    if c.Crash? || c.Fault? || s.exec.Idle? {
      DisruptionKeepsCalm(env, s, c);
    } else {
      var at := s.exec.at;
      if at.Refresh? { RefreshKeepsCalm(env, s, c.reply); }
      else if at.RefreshStore? {
        RefreshStoreKeepsCalm(env, s, c.reply);
        LostRefreshStoreKeepsCalm(env, s, c.reply);
      }
      else if at.Tear? {
        if c.Proceed? { TearProceedKeepsCalm(env, s, c.reply); } else { TearLostKeepsCalm(env, s, c.reply); }
      }
      else if Recovering(at) {
        if c.Proceed? { RecoverKeepsCalm(env, s, c.reply); } else { LostRecoverKeepsCalm(env, s, c.reply); }
      }
      else {
        UnhandledKeepsCalm(env, s, c.reply);
        LostIsIdle(s, c.reply);
      }
    }
  }

  lemma OutsideKeepsCalm(env: Environment, s: System, st: Store)
    requires env.calm && !env.lateCleanup && MoveInv(s) && CalmInv(env, s) && Admits(env, s, Outside(st))
    ensures CalmInv(env, Apply(s, Outside(st)))
  {}

  lemma OutsideRefreshKeepsCalm(env: Environment, s: System, r: Option<RoutingState>)
    requires MoveInv(s) && CalmInv(env, s)
    ensures CalmInv(env, Apply(s, RefreshBegin))
    ensures r in s.pending ==> CalmInv(env, Apply(s, RefreshEnd(r)))
  {
    CalmServed(env, s);
  }

  lemma StepKeepsCalm(env: Environment, s: System, ev: Event)
    requires env.calm && !env.lateCleanup && MoveInv(s) && CalmInv(env, s) && Admits(env, s, ev)
    ensures CalmInv(env, Apply(s, ev))
  {
    match ev
    case Execute(c) => ExecKeepsCalm(env, s, c);
    case RefreshBegin => OutsideRefreshKeepsCalm(env, s, None);
    case RefreshEnd(r) => OutsideRefreshKeepsCalm(env, s, r);
    case Outside(st) => OutsideKeepsCalm(env, s, st);
  }

  lemma {:induction false} RunKeepsCalm(env: Environment, run: seq<System>, i: nat)
    requires env.calm && !env.lateCleanup && Run(env, run) && i < |run|
    ensures MoveInv(run[i]) && CalmInv(env, run[i])
  {
    RunKeepsMoveInv(env, run, i);
    if i > 0 {
      RunKeepsCalm(env, run, i - 1);
      assert Next(env, run[i - 1], run[i]);
      var ev :| Admits(env, run[i - 1], ev) && run[i] == Apply(run[i - 1], ev);
      StepKeepsCalm(env, run[i - 1], ev);
    }
  }

  predicate Finishing(s: System) {
    s.exec.Running? && s.exec.at == Finish
  }

  /**
   * No downtime, and no loose ends: every state of every run is served, and when
   * the move is about to finish exactly one of the two records is left; unless it
   * finishes because it found no replacement and one may still be created.
   */
  lemma {:induction false} MoveWithoutDowntime(env: Environment, run: seq<System>, i: nat)
    requires env.calm && !env.lateCleanup && Run(env, run) && i < |run|
    ensures Served(run[i].store)
    ensures Finishing(run[i]) && (run[i].exec.op.phase != ReplacementStarting || !env.lateCreation) ==>
              OneRecordLeft(run[i].store)
  {
    RunKeepsCalm(env, run, i);
    CalmServed(env, run[i]);
  }
}
