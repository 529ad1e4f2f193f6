/**
 * What a deployment and the reconciliation passes come to when nothing gets in
 * their way, and why a deployment fails when it does
 * (control-plane/src/services/deploy-orchestration.ts,
 * control-plane/src/services/reconciliation.ts), over the steps and runs of
 * AmbiguousStart.
 */
module DeployOutcome {
  import opened Options
  import opened Lifecycle
  import opened AmbiguousStart

  // ---------------------------------------------------------------------
  // Success
  // ---------------------------------------------------------------------

  /** What a deployment can rely on between its steps, whatever the passes do. */
  predicate StageInv(w: World) {
    && (w.record.Some? && w.record.value.ambiguous ==> w.deploy == Ended)
    && (w.deploy.Persisting? ==>
          && !w.deploy.copy.ambiguous
          && (w.record.Some? && w.record.value.state == Starting ==> w.deploy.copy.state == Starting))
    && ((w.deploy == Polling || w.deploy == Activating) && w.record.Some? ==> w.record.value.identified)
    && (w.deploy == Activated && w.record.Some? ==> w.record.value.state != Starting && w.record.value.identified)
  }

  lemma StepKeepsStages(k: Limits, w: World, ev: Event)
    requires StageInv(w) && Enabled(k, w, ev)
    ensures StageInv(Apply(k, w, ev))
  {}

  lemma {:induction false} RunKeepsStages(k: Limits, run: seq<World>, i: nat)
    requires Run(k, run) && i < |run|
    ensures StageInv(run[i])
  {
    if i > 0 {
      RunKeepsStages(k, run, i - 1);
      assert Next(k, run[i - 1], run[i]);
      var ev :| Enabled(k, run[i - 1], ev) && run[i] == Apply(k, run[i - 1], ev);
      StepKeepsStages(k, run[i - 1], ev);
    }
  }

  /** A deployment whose runner has been named and whose record is still STARTING, no pass at work. */
  predicate Promising(w: World) {
    AfterReply(w.deploy) && w.record.Some? && w.record.value.state == Starting && w.recovery == Waiting
  }

  /** It stores the endpoint if it has not yet. */
  lemma Identifies(k: Limits, run: seq<World>) returns (longer: seq<World>)
    requires Run(k, run) && Promising(Last(run))
    ensures Run(k, longer) && Promising(Last(longer))
    ensures Last(longer).deploy == Polling || Last(longer).deploy == Activating
    ensures var w := Last(run);
            Last(longer) == w.(record := Last(longer).record, deploy := Last(longer).deploy)
  {
    longer := run;
    RunKeepsStages(k, run, |run| - 1);
    if Last(longer).deploy == Replied {
      longer := Extend(k, longer, Advance);
    }
    if Last(longer).deploy.Persisting? {
      longer := Extend(k, longer, Advance);
    }
  }

  /**
   * From wherever it stands after the reply, an undisturbed deployment ends with
   * the record ACTIVE and identified, the hold released and the runner untouched.
   */
  lemma DeploymentSucceeds(k: Limits, run: seq<World>) returns (longer: seq<World>)
    requires Run(k, run) && Promising(Last(run))
    ensures Run(k, longer)
    ensures var w := Last(run);
            Last(longer)
            == w.(record := Some(Record(Active, false, true, w.now)), held := false, deploy := Ended)
  {
    longer := Identifies(k, run);
    RunKeepsStages(k, longer, |longer| - 1);
    if Last(longer).deploy == Polling {
      longer := Extend(k, longer, Advance);
    }
    longer := Extend(k, longer, Advance);
    longer := Extend(k, longer, Advance);
  }

  /** And one that has not been sent is sent, named and completed when the worker is up. */
  lemma FreshDeploymentSucceeds(k: Limits) returns (run: seq<World>)
    ensures Run(k, run)
    ensures Last(run) == World(0, Some(Record(Active, false, true, 0)), false, Live, 0, k.reply, true, Ended, Waiting)
  {
    run := NamedStart(k);
    run := DeploymentSucceeds(k, run);
  }

  // ---------------------------------------------------------------------
  // Failure
  // ---------------------------------------------------------------------

  /** States and the events between them. */
  ghost predicate Traced(k: Limits, run: seq<World>, events: seq<Event>) {
    && |run| == |events| + 1 && Initial(k, run[0])
    && forall i :: 0 <= i < |events| ==> Enabled(k, run[i], events[i]) && run[i + 1] == Apply(k, run[i], events[i])
  }

  /** Every run is one. */
  lemma {:induction false} RunIsTraced(k: Limits, run: seq<World>) returns (events: seq<Event>)
    requires Run(k, run)
    ensures Traced(k, run, events)
  {
    events := [];
    while |events| + 1 < |run|
      invariant |events| < |run|
      invariant forall i :: 0 <= i < |events| ==>
                  Enabled(k, run[i], events[i]) && run[i + 1] == Apply(k, run[i], events[i])
    {
      var n := |events|;
      assert Next(k, run[n], run[n + 1]);
      var ev :| Enabled(k, run[n], ev) && run[n + 1] == Apply(k, run[n], ev);
      events := events + [ev];
    }
  }

  /** The record can no longer become ACTIVE, and is not. */
  predicate Refuses(record: Option<Record>) {
    record.None? || (record.value.state != Starting && record.value.state != Active)
  }

  /**
   * Why a deployment turns to failure: it threw, the reply was an error, or the
   * record was gone or refused ACTIVE. The capacity is kept exactly after a lost
   * reply, a conflict and a server error.
   */
  predicate Causes(w: World, ev: Event, keeps: bool) {
    || (ev == Throw && !keeps)
    || (ev.Receive? && ev.reply == NoReply && keeps)
    || (ev.Receive? && ev.reply.Status? && (keeps <==> ev.reply.code == 409 || ev.reply.code >= 500))
    || (ev == Advance && !keeps && w.deploy == Replied && w.record.None?)
    || (ev == Advance && !keeps && w.deploy == Activating && Refuses(w.record))
  }

  /** Each cause fails it, and nothing else does. */
  lemma ComesToFail(k: Limits, w: World, ev: Event, keeps: bool)
    requires Enabled(k, w, ev) && w.deploy != Failing(keeps)
    ensures Apply(k, w, ev).deploy == Failing(keeps) <==> Causes(w, ev, keeps)
  {}

  /** It takes itself for activated only with the record ACTIVE, by its own write or somebody else's. */
  lemma ActivatesOnlyActive(k: Limits, w: World, ev: Event)
    requires Enabled(k, w, ev) && w.deploy != Activated
    ensures Apply(k, w, ev).deploy == Activated <==> ev == Advance && w.deploy == Activating && !Refuses(w.record)
    ensures Apply(k, w, ev).deploy == Activated ==>
              Apply(k, w, ev).record.Some? && Apply(k, w, ev).record.value.state == Active
  {}

  /** Over all runs, a deployment about to write ERROR has come to it for such a cause and done nothing since. */
  lemma {:induction false} FailsOnlyForCause(k: Limits, run: seq<World>, events: seq<Event>, i: nat) returns (j: nat)
    requires Traced(k, run, events) && i < |run| && run[i].deploy.Failing?
    ensures j < i && Causes(run[j], events[j], run[i].deploy.ambiguous)
    ensures forall m :: j < m <= i ==> run[m].deploy == run[i].deploy
  {
    j := i - 1;
    if run[i - 1].deploy == run[i].deploy {
      j := FailsOnlyForCause(k, run, events, i - 1);
    } else {
      ComesToFail(k, run[i - 1], events[i - 1], run[i].deploy.ambiguous);
    }
  }

  /** Left alone it records the failure; the capacity is released unless the runner's fate is in doubt. */
  lemma FailureIsRecorded(k: Limits, run: seq<World>) returns (longer: seq<World>)
    requires Run(k, run) && Last(run).deploy.Failing?
    requires Last(run).record.Some? && ValidTransition(Last(run).record.value.state, Error)
    ensures Run(k, longer)
    ensures var w := Last(run);
            var r, doubt := w.record.value, w.deploy.ambiguous;
            Last(longer) == w.(record := Some(Record(Error, doubt, r.identified, w.now)),
                               held := w.held && doubt, deploy := Ended)
  {
    RunKeepsStages(k, run, |run| - 1);
    longer := Extend(k, run, WriteError(true));
    if !Last(run).deploy.ambiguous {
      longer := Extend(k, longer, Release);
    }
  }

  // ---------------------------------------------------------------------
  // The age of a record
  // ---------------------------------------------------------------------

  /** Until it has stored the endpoint, the copy it holds and the record agree on when they came to the same state. */
  predicate StampInv(w: World) {
    && (w.deploy in {Preparing, AwaitingReply, Replied} || w.deploy.Persisting? ==>
          w.record.Some? ==> w.record.value.state == Starting || w.record.value.state == Error)
    && (w.deploy.Persisting? && w.record.Some? && w.record.value.state == w.deploy.copy.state ==>
          w.record.value.changedAt == w.deploy.copy.changedAt)
  }

  /** A record that keeps its state keeps its stamp. */
  predicate SameAge(r: Option<Record>, r': Option<Record>) {
    r.Some? && r'.Some? && r.value.state == r'.value.state ==> r.value.changedAt == r'.value.changedAt
  }

  lemma StepKeepsStamp(k: Limits, w: World, ev: Event)
    requires StageInv(w) && StampInv(w) && Enabled(k, w, ev)
    ensures StampInv(Apply(k, w, ev)) && SameAge(w.record, Apply(k, w, ev).record)
  {}

  lemma {:induction false} RunKeepsStamp(k: Limits, run: seq<World>, i: nat)
    requires Run(k, run) && i < |run|
    ensures StampInv(run[i])
  {
    if i > 0 {
      RunKeepsStamp(k, run, i - 1);
      RunKeepsStages(k, run, i - 1);
      assert Next(k, run[i - 1], run[i]);
      var ev :| Enabled(k, run[i - 1], ev) && run[i] == Apply(k, run[i - 1], ev);
      StepKeepsStamp(k, run[i - 1], ev);
    }
  }

  /** Over all runs the stamp that the passes go by tells when the record came to its state: no other write moves it. */
  lemma StampFollowsState(k: Limits, run: seq<World>, i: nat)
    requires Run(k, run) && 0 < i < |run|
    ensures SameAge(run[i - 1].record, run[i].record)
  {
    RunKeepsStamp(k, run, i - 1);
    RunKeepsStages(k, run, i - 1);
    assert Next(k, run[i - 1], run[i]);
    var ev :| Enabled(k, run[i - 1], ev) && run[i] == Apply(k, run[i - 1], ev);
    StepKeepsStamp(k, run[i - 1], ev);
  }

  // ---------------------------------------------------------------------
  // The passes
  // ---------------------------------------------------------------------

  /** A flagged start whose runner turns out to be up is stopped, dropped and freed, without waiting. */
  lemma FlaggedRunnerIsStopped(k: Limits, run: seq<World>) returns (longer: seq<World>)
    requires Run(k, run) && Ambiguous(Last(run)) && Last(run).runner == Live && Last(run).recovery == Waiting
    ensures Run(k, longer)
    ensures Last(longer) == Last(run).(record := None, held := false, runner := Gone)
  {
    longer := Extend(k, run, ListAmbiguous);
    longer := Extend(k, longer, Look);
    longer := Extend(k, longer, StopRunner);
    longer := Extend(k, longer, Drop);
    longer := Extend(k, longer, Free);
  }

  /** One that is still booting, or on its way within the grace period, is left alone. */
  lemma FlaggedStartIsLeft(k: Limits, w: World)
    requires Ambiguous(w) && w.recovery == Waiting
    requires w.runner == Booting || (w.runner != Live && w.now - w.record.value.changedAt <= k.grace)
    ensures Apply(k, Apply(k, w, ListAmbiguous), Look) == w
  {}

  /** A record whose runner is missing, ACTIVE or STARTING for longer than the grace period, is dropped and freed. */
  lemma MissingRunnerIsDropped(k: Limits, run: seq<World>) returns (longer: seq<World>)
    requires Run(k, run) && Last(run).recovery == Waiting && Last(run).runner == Gone
    requires var w := Last(run);
             && w.record.Some? && w.record.value.identified
             && (w.record.value.state == Active
                 || (w.record.value.state == Starting && w.now - w.record.value.changedAt > k.grace))
    ensures Run(k, longer) && Last(longer) == Last(run).(record := None, held := false)
  {
    longer := Extend(k, run, ListNamed);
    longer := Extend(k, longer, Look);
    longer := Extend(k, longer, Demote(true));
    longer := Extend(k, longer, Drop);
    longer := Extend(k, longer, Free);
  }

  /** With its runner there, or within the grace period, the same pass leaves it alone. */
  lemma PresentRunnerIsLeft(k: Limits, w: World)
    requires w.recovery == Waiting && w.record.Some?
    requires w.record.value.state == Active || w.record.value.state == Starting
    ensures var listed := Apply(k, w, ListNamed);
            && (w.record.value.state == Starting && w.now - w.record.value.changedAt <= k.grace ==> listed == w)
            && (!w.record.value.identified ==> listed == w)
            && (listed != w && (w.runner == Live || w.runner == Booting) ==> Apply(k, listed, Look) == w)
  {}

  /** A start older than the deploy timeout is failed without a flag, and no younger one is. */
  lemma OverdueStartIsFailed(k: Limits, w: World)
    requires w.recovery == Waiting && w.record.Some? && w.record.value.state == Starting
    ensures var listed := Apply(k, w, ListStuck);
            if w.now - w.record.value.changedAt > k.timeout
            then Apply(k, listed, Demote(true))
                 == w.(record := Some(w.record.value.(state := Error, changedAt := w.now)))
            else listed == w
  {}
}
