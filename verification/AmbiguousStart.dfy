/**
 * Starting a runner whose reply may be lost: deployModel
 * (control-plane/src/services/deploy-orchestration.ts) beside the three
 * reconciliation passes that touch the same record, recoverStuckInstances,
 * reconcileMissingRunners and recoverAmbiguousStarts
 * (control-plane/src/services/reconciliation.ts), as a step machine for one
 * instance, its worker and the clock. Every await is a point where the others
 * may step in.
 */
module AmbiguousStart {
  import opened Options
  import opened Lifecycle

  /** What becomes of the start request at the worker. */
  datatype Runner =
    | NotSent
    | InFlight      // sent, not yet arrived
    | Booting       // the worker is starting it
    | Live
    | Gone          // lost, rejected, failed, stopped or exited

  /** The runner runs, or may yet do so. */
  predicate MayLive(r: Runner) {
    r == InFlight || r == Booting || r == Live
  }

  /** The lifecycle record; `identified` says that the runner's id and endpoint are stored. */
  datatype Record = Record(state: State, ambiguous: bool, identified: bool, changedAt: int)

  /** How far deployModel has got. */
  datatype Deploy =
    | Preparing                 // before POST /runners
    | AwaitingReply
    | Replied                   // the worker named the runner
    | Persisting(copy: Record)  // setRunnerEndpoint has read the record, writes it next
    | Polling                   // waitForReady
    | Activating                // endpoint registered, STARTING -> ACTIVE next
    | Activated                 // refresh and release next
    | Failing(ambiguous: bool)  // catch: transition to ERROR next
    | Releasing                 // catch: release the capacity
    | Ended

  /** How far a reconciliation tick has got with this instance; `at` is the time it began. */
  datatype Recovery =
    | Waiting
    | Overdue                          // stuck in STARTING: demote it
    | Probing                          // has a runner id: ask the worker for it
    | Demoting                         // that runner is missing: demote, then drop
    | Listed(at: int, changedAt: int)  // ambiguous start: look it up by instance id
    | Halting                          // it was ready: stop it
    | Removing                         // drop the record
    | Freeing                          // release the capacity

  /**
   * `held` is the capacity hold, `named` whether a reply ever named the runner,
   * `deadline` when the present stage of the deployment ends at the latest.
   */
  datatype World = World(
    now: int,
    record: Option<Record>,
    held: bool,
    runner: Runner,
    sentAt: int,
    deadline: int,
    named: bool,
    deploy: Deploy,
    recovery: Recovery)

  /**
   * The longest a request travels; the grace of the probes and the deploy timeout
   * of the stuck pass; the longest from the record to the request, from the
   * request to its reply or the client's timeout, and from a lost reply to the
   * attempt to record it; and whether the endpoint write may throw, the ERROR
   * write may fail, and ownership may be lost.
   */
  datatype Limits = Limits(
    delay: nat,
    grace: nat,
    timeout: nat,
    prepare: nat,
    reply: nat,
    write: nat,
    endpointThrows: bool,
    writeFails: bool,
    ownerChanges: bool)

  datatype Reply =
    | Ok                    // the runner is up and named
    | NoReply               // transport failure or timeout
    | Status(code: nat)     // an HTTP error

  datatype Event =
    | Dispatch
    | Receive(reply: Reply)
    | Advance               // the next step of deployModel succeeds
    | Throw                 // or fails
    | LoseOwnership         // the ownership fence: leave everything to the next leader
    | WriteError(ok: bool)  // the ERROR transition, possibly swallowed
    | Release               // the capacity of a definite failure
    | Arrive(accepted: bool)
    | Boot(ok: bool)
    | Exit
    | ListStuck
    | ListNamed
    | ListAmbiguous
    | Demote(ok: bool)
    | Look
    | GiveUp                // a failed call, or a worker that is offline
    | StopRunner
    | Drop
    | Free
    | Pass(d: nat)

  /** The worker's side: below 500 only a conflict leaves open whether it has started or will start the runner. */
  predicate SaysNotStarted(r: Reply) {
    r.Status? && r.code < 500 && r.code != 409
  }

  /** The deployment's side: the replies after which it keeps the capacity. */
  predicate LeavesDoubt(r: Reply) {
    r == NoReply || (r.Status? && (r.code == 409 || r.code >= 500))
  }

  predicate AfterReply(d: Deploy) {
    d == Replied || d.Persisting? || d == Polling || d == Activating || d == Activated
  }

  /** The stages that end in time. */
  predicate Timed(d: Deploy) {
    d == Preparing || d == AwaitingReply || d == Failing(true)
  }

  predicate Enabled(k: Limits, w: World, ev: Event) {
    match ev
    case Dispatch => w.deploy == Preparing
    case Receive(reply) =>
      && w.deploy == AwaitingReply
      && (reply == Ok ==> w.runner == Live || w.runner == Gone)
      && (SaysNotStarted(reply) ==> w.runner == Gone)
    case Advance => AfterReply(w.deploy)
    case Throw =>
      || w.deploy == Preparing
      || (AfterReply(w.deploy) && (w.deploy == Replied || w.deploy.Persisting? ==> k.endpointThrows))
    case LoseOwnership => w.deploy != Ended && w.deploy != Releasing && k.ownerChanges
    case WriteError(ok) => w.deploy.Failing? && (ok || k.writeFails)
    case Release => w.deploy == Releasing
    case Arrive(_) => w.runner == InFlight
    case Boot(_) => w.runner == Booting
    case Exit => w.runner == Live
    case ListStuck => w.recovery == Waiting
    case ListNamed => w.recovery == Waiting
    case ListAmbiguous => w.recovery == Waiting
    case Demote(_) => w.recovery == Overdue || w.recovery == Demoting
    case Look => w.recovery == Probing || w.recovery.Listed?
    case GiveUp => w.recovery != Waiting
    case StopRunner => w.recovery == Halting
    case Drop => w.recovery == Removing
    case Free => w.recovery == Freeing
    case Pass(d) =>
      && (w.runner == InFlight ==> w.now + d <= w.sentAt + k.delay)
      && (Timed(w.deploy) ==> w.now + d <= w.deadline)
  }

  function SetState(w: World, to: State, ambiguous: bool): World {
    if w.record.Some? && ValidTransition(w.record.value.state, to)
    then w.(record := Some(Record(to, w.record.value.ambiguous || ambiguous, w.record.value.identified, w.now)))
    else w
  }

  /** The steps of deployModel after the reply. */
  function AdvanceDeploy(w: World): World {
    if w.deploy == Replied then
      if w.record.None? then w.(deploy := Failing(false)) else w.(deploy := Persisting(w.record.value))
    else if w.deploy.Persisting? then
      w.(record := Some(w.deploy.copy.(identified := true)), deploy := Polling)
    else if w.deploy == Polling then w.(deploy := Activating)
    else if w.deploy == Activating then
      var w' := SetState(w, Active, false);
      if w'.record.Some? && w'.record.value.state == Active then w'.(deploy := Activated)
      else w.(deploy := Failing(false))
    else if w.deploy == Activated then w.(held := false, deploy := Ended)
    else w
  }

  /** What a pass concludes from the worker's answer. */
  function LookUp(k: Limits, w: World): World
    requires w.recovery == Probing || w.recovery.Listed?
  {
    if w.recovery == Probing then
      w.(recovery := if w.runner == Booting || w.runner == Live then Waiting else Demoting)
    else if w.runner == Booting then w.(recovery := Waiting)
    else if w.runner == Live then w.(recovery := Halting)
    else if w.recovery.at - w.recovery.changedAt <= k.grace then w.(recovery := Waiting)
    else w.(recovery := Removing)
  }

  /** The records each pass picks. */
  predicate Stuck(k: Limits, w: World) {
    w.record.Some? && w.record.value.state == Starting && w.now - w.record.value.changedAt > k.timeout
  }

  predicate Named(k: Limits, w: World) {
    && w.record.Some? && w.record.value.identified
    && (w.record.value.state == Active
        || (w.record.value.state == Starting && w.now - w.record.value.changedAt > k.grace))
  }

  predicate Ambiguous(w: World) {
    w.record.Some? && w.record.value.state == Error && w.record.value.ambiguous
  }

  function Apply(k: Limits, w: World, ev: Event): World
    requires Enabled(k, w, ev)
  {
    match ev
    case Dispatch => w.(runner := InFlight, sentAt := w.now, deadline := w.now + k.reply, deploy := AwaitingReply)
    case Receive(reply) =>
      if reply == Ok then w.(named := true, deploy := Replied)
      else w.(deadline := w.now + k.write, deploy := Failing(LeavesDoubt(reply)))
    case Advance => AdvanceDeploy(w)
    case Throw => w.(deploy := Failing(false))
    case LoseOwnership => w.(deploy := Ended)
    case WriteError(ok) =>
      var w' := if ok then SetState(w, Error, w.deploy.ambiguous) else w;
      w'.(deploy := if w.deploy.ambiguous then Ended else Releasing)
    case Release => w.(held := false, deploy := Ended)
    case Arrive(accepted) => w.(runner := if accepted then Booting else Gone)
    case Boot(ok) => w.(runner := if ok then Live else Gone)
    case Exit => w.(runner := Gone)
    case ListStuck => if Stuck(k, w) then w.(recovery := Overdue) else w
    case ListNamed => if Named(k, w) then w.(recovery := Probing) else w
    case ListAmbiguous =>
      if Ambiguous(w) then w.(recovery := Listed(w.now, w.record.value.changedAt)) else w
    case Demote(ok) =>
      var found := w.record.Some? && ValidTransition(w.record.value.state, Error);
      if !ok || !found then w.(recovery := Waiting)
      else SetState(w, Error, false).(recovery := if w.recovery == Overdue then Waiting else Removing)
    case Look => LookUp(k, w)
    case GiveUp => w.(recovery := Waiting)
    case StopRunner => w.(runner := Gone, recovery := Removing)
    case Drop => w.(record := None, recovery := Freeing)
    case Free => w.(held := false, recovery := Waiting)
    case Pass(d) => w.(now := w.now + d)
  }

  // ---------------------------------------------------------------------
  // Runs
  // ---------------------------------------------------------------------

  /** The instance was placed: it has a record and a capacity hold. */
  predicate Initial(k: Limits, w: World) {
    && w.record.Some? && w.record.value.state == Starting
    && !w.record.value.ambiguous && !w.record.value.identified
    && w.record.value.changedAt == w.now && w.deadline == w.now + k.prepare
    && w.held && w.runner == NotSent && !w.named
    && w.deploy == Preparing && w.recovery == Waiting
  }

  ghost predicate Next(k: Limits, w: World, w': World) {
    exists ev :: Enabled(k, w, ev) && w' == Apply(k, w, ev)
  }

  ghost predicate Run(k: Limits, run: seq<World>) {
    && run != [] && Initial(k, run[0])
    && forall i :: 0 < i < |run| ==> Next(k, run[i - 1], run[i])
  }

  /** A runner that is or may become live has a record, and a hold until it is named. */
  predicate Accounted(w: World) {
    && (MayLive(w.runner) ==> w.record.Some?)
    && (MayLive(w.runner) && !w.named ==> w.held)
  }

  /** What the deployment knows about the runner. */
  predicate DeployInv(k: Limits, w: World) {
    && (w.deploy == Preparing ==> w.runner == NotSent && w.record.Some? && w.held)
    && (w.runner != NotSent ==> w.sentAt <= w.now)
    && (w.runner == InFlight ==> w.now <= w.sentAt + k.delay)
    && (w.named ==> w.runner == Live || w.runner == Gone)
    && (AfterReply(w.deploy) ==> w.named)
    && (w.deploy == Failing(false) || w.deploy == Releasing ==> w.named || !MayLive(w.runner))
    && (w.deploy == AwaitingReply || w.deploy == Failing(true) ==>
          !w.named && w.runner != NotSent)
    && (w.deploy.Persisting? ==> !w.deploy.copy.ambiguous)
  }

  /** An ambiguous record was stamped after the request was sent, by a deployment that has ended. */
  predicate RecordInv(w: World) {
    w.record.Some? ==>
      && (w.record.value.ambiguous ==>
            w.deploy == Ended && !w.named && w.runner != NotSent && w.sentAt <= w.record.value.changedAt)
      && (w.record.value.identified ==> w.named)
  }

  /** A pass drops a record only when its runner is gone for good. */
  predicate RecoveryInv(w: World) {
    && (w.recovery == Probing ==> w.named)
    && (w.recovery == Demoting ==> w.named && w.runner == Gone)
    && (w.recovery.Listed? ==>
          && w.deploy == Ended && w.runner != NotSent && !w.named
          && w.sentAt <= w.recovery.changedAt && w.recovery.at <= w.now)
    && (w.recovery == Halting ==> w.deploy == Ended && (w.runner == Live || w.runner == Gone))
    && (w.recovery == Removing || w.recovery == Freeing ==> w.runner == Gone)
  }

  predicate Inv(k: Limits, w: World) {
    Accounted(w) && DeployInv(k, w) && RecordInv(w) && RecoveryInv(w)
  }

  predicate ByDeployment(ev: Event) {
    || ev.Dispatch? || ev.Receive? || ev.Advance? || ev.Throw?
    || ev.LoseOwnership? || ev.WriteError? || ev.Release?
  }

  predicate ByWorker(ev: Event) {
    ev.Arrive? || ev.Boot? || ev.Exit? || ev.Pass?
  }

  lemma AdvanceKeepsInv(k: Limits, w: World)
    requires Inv(k, w) && Enabled(k, w, Advance)
    ensures Inv(k, Apply(k, w, Advance))
  {}

  lemma WriteErrorKeepsInv(k: Limits, w: World, ok: bool)
    requires Inv(k, w) && Enabled(k, w, WriteError(ok))
    ensures Inv(k, Apply(k, w, WriteError(ok)))
  {}

  lemma DeploymentKeepsInv(k: Limits, w: World, ev: Event)
    requires Inv(k, w) && Enabled(k, w, ev) && ByDeployment(ev)
    ensures Inv(k, Apply(k, w, ev))
  {
    if ev.Advance? {
      AdvanceKeepsInv(k, w);
    } else if ev.WriteError? {
      WriteErrorKeepsInv(k, w, ev.ok);
    }
  }

  lemma WorkerKeepsInv(k: Limits, w: World, ev: Event)
    requires Inv(k, w) && Enabled(k, w, ev) && ByWorker(ev)
    ensures Inv(k, Apply(k, w, ev))
  {}

  /** Only here does the grace period matter: it outlasts every request. */
  lemma ReconciliationKeepsInv(k: Limits, w: World, ev: Event)
    requires k.delay <= k.grace && Inv(k, w) && Enabled(k, w, ev) && !ByDeployment(ev) && !ByWorker(ev)
    ensures Inv(k, Apply(k, w, ev))
  {}

  lemma StepKeepsInv(k: Limits, w: World, ev: Event)
    requires k.delay <= k.grace && Inv(k, w) && Enabled(k, w, ev)
    ensures Inv(k, Apply(k, w, ev))
  {
    if ByDeployment(ev) {
      DeploymentKeepsInv(k, w, ev);
    } else if ByWorker(ev) {
      WorkerKeepsInv(k, w, ev);
    } else {
      ReconciliationKeepsInv(k, w, ev);
    }
  }

  lemma {:induction false} RunKeepsInv(k: Limits, run: seq<World>, i: nat)
    requires k.delay <= k.grace && Run(k, run) && i < |run|
    ensures Inv(k, run[i])
  {
    if i > 0 {
      RunKeepsInv(k, run, i - 1);
      assert Next(k, run[i - 1], run[i]);
      var ev :| Enabled(k, run[i - 1], ev) && run[i] == Apply(k, run[i - 1], ev);
      StepKeepsInv(k, run[i - 1], ev);
    }
  }

  /**
   * While no request travels longer than the grace period, a runner that is or
   * may become live keeps its record, keeps its hold until a reply names it,
   * and is never dropped by a reconciliation pass.
   */
  lemma NoRunnerForgotten(k: Limits, run: seq<World>, i: nat)
    requires k.delay <= k.grace && Run(k, run) && i < |run|
    ensures Accounted(run[i])
    ensures run[i].recovery == Removing || run[i].recovery == Freeing ==> run[i].runner == Gone
  {
    RunKeepsInv(k, run, i);
  }

  // ---------------------------------------------------------------------
  // Concrete runs
  // ---------------------------------------------------------------------

  function Last(run: seq<World>): World
    requires run != []
  {
    run[|run| - 1]
  }

  /** A run goes on by any enabled event. */
  lemma Extend(k: Limits, run: seq<World>, ev: Event) returns (longer: seq<World>)
    requires Run(k, run) && Enabled(k, Last(run), ev)
    ensures Run(k, longer) && Last(longer) == Apply(k, Last(run), ev)
  {
    longer := run + [Apply(k, Last(run), ev)];
    forall i | 0 < i < |longer| ensures Next(k, longer[i - 1], longer[i]) {
      if i < |run| {
        assert Next(k, run[i - 1], run[i]);
      } else {
        assert Enabled(k, longer[i - 1], ev) && longer[i] == Apply(k, longer[i - 1], ev);
      }
    }
  }

  const LAUNCHING := Record(Starting, false, false, 0)

  function Fresh(k: Limits): World {
    World(0, Some(LAUNCHING), true, NotSent, 0, k.prepare, false, Preparing, Waiting)
  }

  /** A lost reply, noted at once as an ambiguous start. */
  lemma FlaggedStart(k: Limits) returns (run: seq<World>)
    ensures Run(k, run)
    ensures Last(run)
         == World(0, Some(Record(Error, true, false, 0)), true, InFlight, 0, k.write, false, Ended, Waiting)
  {
    run := Extend(k, [Fresh(k)], Dispatch);
    run := Extend(k, run, Receive(NoReply));
    run := Extend(k, run, WriteError(true));
  }

  /** A request that outlives the grace period loses its record while still on its way. */
  lemma GraceTooShort(k: Limits) returns (run: seq<World>)
    requires k.delay > k.grace
    ensures Run(k, run) && !Accounted(Last(run))
    ensures Last(run).runner == InFlight && Last(run).record.None? && Last(run).recovery == Freeing
  {
    run := FlaggedStart(k);
    run := Extend(k, run, Pass(k.grace + 1));
    run := Extend(k, run, ListAmbiguous);
    run := Extend(k, run, Look);
    run := Extend(k, run, Drop);
  }

  /** The bound on the request's travel is exact. */
  lemma ForgottenExactly(k: Limits)
    ensures (forall run, i: nat :: Run(k, run) && i < |run| ==> Accounted(run[i])) <==> k.delay <= k.grace
  {
    if k.delay <= k.grace {
      forall run, i: nat | Run(k, run) && i < |run| ensures Accounted(run[i]) {
        NoRunnerForgotten(k, run, i);
      }
    } else {
      var run := GraceTooShort(k);
      assert !Accounted(run[|run| - 1]);
    }
  }

  /** After the grace period the pass finds it, and that its runner is gone. */
  lemma FlaggedIsFound(k: Limits, run: seq<World>) returns (longer: seq<World>)
    requires Run(k, run) && Ambiguous(Last(run))
    requires Last(run).runner == Gone && Last(run).deploy == Ended && Last(run).recovery == Waiting
    ensures Run(k, longer) && Last(longer).recovery == Removing
  {
    var due := Last(run).record.value.changedAt + k.grace + 1;
    longer := Extend(k, run, Pass(if due > Last(run).now then due - Last(run).now else 0));
    longer := Extend(k, longer, ListAmbiguous);
    longer := Extend(k, longer, Look);
  }

  /** From wherever an ambiguous start has come to nothing, an undisturbed pass drops it and frees its hold. */
  lemma FlaggedIsRecovered(k: Limits, run: seq<World>) returns (longer: seq<World>)
    requires Run(k, run) && Ambiguous(Last(run))
    requires Last(run).runner == Gone && Last(run).deploy == Ended && Last(run).recovery == Waiting
    ensures Run(k, longer) && Last(longer).record.None? && !Last(longer).held
  {
    longer := FlaggedIsFound(k, run);
    longer := Extend(k, longer, Drop);
    longer := Extend(k, longer, Free);
  }

  // ---------------------------------------------------------------------
  // A live runner is held or identified
  // ---------------------------------------------------------------------

  /** A live runner that no capacity is held for can be found by its recorded id. */
  predicate Addressable(w: World) {
    w.runner == Live && !w.held ==> w.record.Some? && w.record.value.identified
  }

  /** Once past the endpoint write, the deployment of a live runner has its id on record. */
  predicate AddressInv(w: World) {
    && Addressable(w)
    && (w.runner == Live && w.named && w.deploy != Replied && !w.deploy.Persisting? && w.deploy != Ended ==>
          w.record.Some? && w.record.value.identified)
  }

  lemma StepKeepsAddressable(k: Limits, w: World, ev: Event)
    requires k.delay <= k.grace && !k.endpointThrows && Inv(k, w) && AddressInv(w) && Enabled(k, w, ev)
    ensures AddressInv(Apply(k, w, ev))
  {}

  lemma {:induction false} RunKeepsAddressable(k: Limits, run: seq<World>, i: nat)
    requires k.delay <= k.grace && !k.endpointThrows && Run(k, run) && i < |run|
    ensures AddressInv(run[i])
  {
    if i > 0 {
      RunKeepsAddressable(k, run, i - 1);
      RunKeepsInv(k, run, i - 1);
      assert Next(k, run[i - 1], run[i]);
      var ev :| Enabled(k, run[i - 1], ev) && run[i] == Apply(k, run[i - 1], ev);
      StepKeepsAddressable(k, run[i - 1], ev);
    }
  }

  /** A start whose reply has named a live runner. */
  lemma NamedStart(k: Limits) returns (run: seq<World>)
    ensures Run(k, run)
    ensures Last(run) == World(0, Some(LAUNCHING), true, Live, 0, k.reply, true, Replied, Waiting)
  {
    run := Extend(k, [Fresh(k)], Dispatch);
    run := Extend(k, run, Arrive(true));
    run := Extend(k, run, Boot(true));
    run := Extend(k, run, Receive(Ok));
  }

  /** When the endpoint write throws, a named runner ends up live, its id unrecorded and its hold released. */
  lemma EndpointWriteLost(k: Limits) returns (run: seq<World>)
    requires k.endpointThrows
    ensures Run(k, run) && !Addressable(Last(run))
    ensures Last(run).deploy == Ended && Last(run).record.Some? && !Last(run).record.value.ambiguous
  {
    run := NamedStart(k);
    run := Extend(k, run, Throw);
    run := Extend(k, run, WriteError(true));
    run := Extend(k, run, Release);
  }

  /** When a request outlives the grace period, its runner ends up live without record and hold. */
  lemma ForgottenRunnerStarts(k: Limits) returns (run: seq<World>)
    requires k.delay > k.grace
    ensures Run(k, run) && !Addressable(Last(run))
  {
    run := GraceTooShort(k);
    run := Extend(k, run, Free);
    run := Extend(k, run, Arrive(true));
    run := Extend(k, run, Boot(true));
  }

  /**
   * Every live runner keeps its hold or its recorded id in every run if and only
   * if requests do not outlive the grace period and the endpoint write does not
   * throw.
   */
  lemma AddressableExactly(k: Limits)
    ensures (forall run, i: nat :: Run(k, run) && i < |run| ==> Addressable(run[i]))
            <==> k.delay <= k.grace && !k.endpointThrows
  {
    if k.delay <= k.grace && !k.endpointThrows {
      forall run, i: nat | Run(k, run) && i < |run| ensures Addressable(run[i]) {
        RunKeepsAddressable(k, run, i);
      }
    } else {
      var run;
      if k.endpointThrows { run := EndpointWriteLost(k); } else { run := ForgottenRunnerStarts(k); }
      assert !Addressable(run[|run| - 1]);
    }
  }

  // ---------------------------------------------------------------------
  // A failed start whose capacity nobody frees
  // ---------------------------------------------------------------------

  /** A failed start that holds its capacity and that no pass will pick. */
  predicate Stranded(w: World) {
    && w.deploy == Ended && w.held
    && w.record.Some? && w.record.value.state == Error && !w.record.value.ambiguous
    && (w.recovery == Waiting || w.recovery == Overdue)
  }

  /** No step of the deployment or of a pass ever leaves it. */
  lemma {:induction false} StrandedForGood(k: Limits, run: seq<World>, i: nat, j: nat)
    requires Run(k, run) && i <= j < |run| && Stranded(run[i])
    ensures Stranded(run[j])
  {
    if i < j {
      StrandedForGood(k, run, i, j - 1);
      assert Next(k, run[j - 1], run[j]);
    }
  }

  /** A lost reply is on record before the stuck pass can take the record for stuck. */
  predicate InTime(k: Limits) {
    k.prepare + k.reply + k.write <= k.timeout
  }

  /** What a lost reply can add to the age of the record at each stage. */
  function Allowance(k: Limits, d: Deploy): nat {
    if d == Preparing then k.prepare
    else if d == AwaitingReply then k.prepare + k.reply
    else k.prepare + k.reply + k.write
  }

  /** Until its deployment has dealt with a lost reply the record is STARTING, young and left alone. */
  predicate PromptInv(k: Limits, w: World) {
    && (Timed(w.deploy) ==>
          && w.record.Some? && w.record.value.state == Starting && !w.record.value.identified
          && w.recovery == Waiting && w.now <= w.deadline
          && w.deadline <= w.record.value.changedAt + Allowance(k, w.deploy))
    && (w.deploy == Ended && w.held && w.record.Some? ==>
          w.record.value.state == Error && w.record.value.ambiguous)
  }

  lemma StepKeepsPrompt(k: Limits, w: World, ev: Event)
    requires InTime(k) && !k.writeFails && !k.ownerChanges && PromptInv(k, w) && Enabled(k, w, ev)
    ensures PromptInv(k, Apply(k, w, ev))
  {}

  lemma {:induction false} RunKeepsPrompt(k: Limits, run: seq<World>, i: nat)
    requires InTime(k) && !k.writeFails && !k.ownerChanges && Run(k, run) && i < |run|
    ensures PromptInv(k, run[i])
  {
    if i > 0 {
      RunKeepsPrompt(k, run, i - 1);
      assert Next(k, run[i - 1], run[i]);
      var ev :| Enabled(k, run[i - 1], ev) && run[i] == Apply(k, run[i - 1], ev);
      StepKeepsPrompt(k, run[i - 1], ev);
    }
  }

  /** A request that came to nothing, and whose reply the client has given up on at the last moment. */
  lemma LateFailure(k: Limits) returns (run: seq<World>)
    ensures Run(k, run)
    ensures var age := k.prepare + k.reply + k.write;
            Last(run) == World(age, Some(LAUNCHING), true, Gone, k.prepare, age, false, Failing(true), Waiting)
  {
    run := Extend(k, [Fresh(k)], Pass(k.prepare));
    run := Extend(k, run, Dispatch);
    run := Extend(k, run, Arrive(false));
    run := Extend(k, run, Pass(k.reply));
    run := Extend(k, run, Receive(NoReply));
    run := Extend(k, run, Pass(k.write));
  }

  /** When the stuck pass demotes the record first, the ambiguity is never recorded. */
  lemma TimedOutStart(k: Limits) returns (run: seq<World>)
    requires !InTime(k)
    ensures Run(k, run) && Stranded(Last(run)) && Last(run).runner == Gone
  {
    run := LateFailure(k);
    run := Extend(k, run, ListStuck);
    run := Extend(k, run, Demote(true));
    run := Extend(k, run, WriteError(true));
  }

  /** An abandoned start becomes overdue and is demoted without the flag. */
  lemma AbandonedIsStranded(k: Limits, run: seq<World>) returns (longer: seq<World>)
    requires Run(k, run)
    requires Last(run).record == Some(LAUNCHING) && Last(run).held && Last(run).deploy == Ended
    requires Last(run).runner == Gone && Last(run).recovery == Waiting && Last(run).now == 0
    ensures Run(k, longer) && Stranded(Last(longer))
  {
    longer := Extend(k, run, Pass(k.timeout + 1));
    longer := Extend(k, longer, ListStuck);
    longer := Extend(k, longer, Demote(true));
  }

  lemma UnrecordedIsStranded(k: Limits) returns (run: seq<World>)
    requires k.writeFails || k.ownerChanges
    ensures Run(k, run) && Stranded(Last(run))
  {
    run := Extend(k, [Fresh(k)], Dispatch);
    run := Extend(k, run, Arrive(false));
    if k.ownerChanges {
      run := Extend(k, run, LoseOwnership);
    } else {
      run := Extend(k, run, Receive(NoReply));
      run := Extend(k, run, WriteError(false));
    }
    run := AbandonedIsStranded(k, run);
  }

  /**
   * No run strands a start if and only if a lost reply is on record in time, the
   * ERROR write does not fail and ownership is not lost.
   */
  lemma StrandedExactly(k: Limits)
    ensures (forall run, i: nat :: Run(k, run) && i < |run| ==> !Stranded(run[i]))
            <==> InTime(k) && !k.writeFails && !k.ownerChanges
  {
    if InTime(k) && !k.writeFails && !k.ownerChanges {
      forall run, i: nat | Run(k, run) && i < |run| ensures !Stranded(run[i]) {
        RunKeepsPrompt(k, run, i);
      }
    } else {
      var run;
      if InTime(k) { run := UnrecordedIsStranded(k); } else { run := TimedOutStart(k); }
      assert Stranded(run[|run| - 1]);
    }
  }

  /** The deployed client waits a minute longer for its reply than the stuck pass waits for the start. */
  lemma DeployedStrands(k: Limits) returns (run: seq<World>)
    requires k.reply == k.timeout + 60_000
    ensures Run(k, run) && Stranded(Last(run))
  {
    run := TimedOutStart(k);
  }
}
