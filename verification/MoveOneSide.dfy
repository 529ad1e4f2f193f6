/**
 * A move destroys at most one of its two instances. Unlike the other results
 * about moves this one needs no assumption about who else is working: any number
 * of executors interleave, successive moves reuse the same store, and other
 * actors change records, routing and phases as they like.
 */
module MoveOneSide {
  import opened Options
  import opened MoveProtocol

  /**
   * Several executors over one store. The sets record the run by operation id:
   * which operations ever existed, ever reached SOURCE_DRAINING or
   * REPLACEMENT_CLEANUP, and whose source or replacement some executor began to
   * tear down.
   */
  datatype Cluster = Cluster(
    store: Store,
    execs: map<nat, Executor>,
    known: set<nat>,
    draining: set<nat>,
    cleaning: set<nat>,
    tornSource: set<nat>,
    tornReplacement: set<nat>)

  datatype Event =
    | Execute(who: nat, choice: Choice)
    | Outside(store: Store)

  function Mark(ids: set<nat>, add: bool, id: nat): set<nat> {
    if add then ids + {id} else ids
  }

  /** The cluster with a new store, its operation recorded. */
  function With(c: Cluster, st: Store): Cluster {
    if st.op.None? then c.(store := st)
    else
      var op := st.op.value;
      Cluster(st, c.execs, c.known + {op.id},
              Mark(c.draining, op.phase == SourceDraining, op.id),
              Mark(c.cleaning, op.phase == ReplacementCleanup, op.id),
              c.tornSource, c.tornReplacement)
  }

  predicate Tearing(e: Executor, side: Side) {
    e.Running? && e.at.Tear? && e.at.side == side
  }

  function ExecutorOf(c: Cluster, who: nat): Executor {
    if who in c.execs then c.execs[who] else Idle
  }

  function Apply(c: Cluster, ev: Event): Cluster {
    match ev
    case Outside(st) => With(c, st)
    case Execute(who, choice) =>
      var o := ExecStep(c.store, ExecutorOf(c, who), choice);
      var c' := With(c, o.store);
      Cluster(c'.store, c'.execs[who := o.exec], c'.known, c'.draining, c'.cleaning,
              if Tearing(o.exec, Source) then c.tornSource + {o.exec.op.id} else c.tornSource,
              if Tearing(o.exec, Replacement) then c.tornReplacement + {o.exec.op.id} else c.tornReplacement)
  }

  /**
   * Other actors do anything at all to instances and routing. On the operation
   * they use the same scripts: an accepted phase write, a removal, or the
   * creation of an operation under an id that was never used.
   */
  ghost predicate OutsideOperation(c: Cluster, op': Option<Operation>) {
    var op := c.store.op;
    || op' == op
    || op'.None?
    || (op.Some? && exists to :: op' == UpdatePhase(op, op.value.id, to))
    || (op.None? && op'.value.phase == ReplacementStarting && op'.value.id !in c.known)
  }

  ghost predicate Admits(c: Cluster, ev: Event) {
    ev.Outside? ==> OutsideOperation(c, ev.store.op)
  }

  ghost predicate Initial(c: Cluster) {
    && c.store.op.None? && c.execs == map[]
    && c.known == {} && c.draining == {} && c.cleaning == {}
    && c.tornSource == {} && c.tornReplacement == {}
  }

  ghost predicate Next(c: Cluster, c': Cluster) {
    exists ev :: Admits(c, ev) && c' == Apply(c, ev)
  }

  ghost predicate Run(run: seq<Cluster>) {
    && run != []
    && Initial(run[0])
    && forall i :: 0 < i < |run| ==> Next(run[i - 1], run[i])
  }

  /** An executor only ever acts on a phase that was persisted, and tears down the matching side. */
  ghost predicate ExecutorInv(c: Cluster, e: Executor) {
    e.Running? ==>
      var plain := if e.at.Refresh? || e.at.RefreshStore? then e.at.next else e.at;
      && e.op.id in c.known
      && (e.op.phase == SourceDraining ==> e.op.id in c.draining)
      && (e.op.phase == ReplacementCleanup ==> e.op.id in c.cleaning)
      && (plain.SourceRead? ==> e.op.phase == SourceDraining)
      && (plain.CleanupRead? ==> e.op.phase == ReplacementCleanup)
      && (plain.Tear? ==>
            e.op.phase == (if plain.side == Source then SourceDraining else ReplacementCleanup))
      && !plain.Refresh? && !plain.RefreshStore?
  }

  ghost predicate OneSideInv(c: Cluster) {
    && c.draining !! c.cleaning
    && c.draining + c.cleaning <= c.known
    && c.tornSource <= c.draining && c.tornReplacement <= c.cleaning
    && (c.store.op.Some? ==>
          var op := c.store.op.value;
          && op.id in c.known
          && (op.id in c.draining <==> op.phase == SourceDraining)
          && (op.id in c.cleaning <==> op.phase == ReplacementCleanup))
    && forall who :: who in c.execs ==> ExecutorInv(c, c.execs[who])
  }

  /** What one executor step can do to the operation and to its own program point. */
  ghost predicate StepShape(st: Store, e: Executor, o: Outcome) {
    && (|| o.store.op == st.op
        || o.store.op.None?
        || (st.op.Some? && exists to :: o.store.op == UpdatePhase(st.op, st.op.value.id, to)))
    && (o.exec.Running? ==>
          || (e.Running? && o.exec.op == e.op)
          || (o.store.op == Some(o.exec.op) && (o.exec.at.Dispatch? || o.exec.at.Return?
                || o.exec.at.CutOver? || o.exec.at.WriteSourceDraining?)))
  }

  ghost predicate ShapedStep(c: Cluster, e: Executor, o: Outcome) {
    && StepShape(c.store, e, o)
    && (o.exec.Running? && e.Running? && o.exec.op == e.op ==> ExecutorInv(c, o.exec))
  }

  lemma StopStepShape(c: Cluster, op: Operation, t: Point, reply: Reply)
    requires t.Tear? && InStopModel(t.tear) && ExecutorInv(c, Running(op, t))
    ensures ShapedStep(c, Running(op, t), StopStep(c.store, op, t, reply))
  {}

  lemma TearStepShape(c: Cluster, op: Operation, t: Point, reply: Reply)
    requires t.Tear? && ExecutorInv(c, Running(op, t))
    ensures ShapedStep(c, Running(op, t), TearStep(c.store, op, t, reply))
  {
    if InStopModel(t.tear) { StopStepShape(c, op, t, reply); }
  }

  lemma PointStepShape(c: Cluster, op: Operation, at: Point, reply: Reply)
    requires ExecutorInv(c, Running(op, at))
    ensures ShapedStep(c, Running(op, at), PointStep(c.store, op, at, reply))
  {
    if at.Tear? { TearStepShape(c, op, at, reply); }
  }

  lemma ExecStepShape(c: Cluster, e: Executor, choice: Choice)
    requires ExecutorInv(c, e)
    ensures ShapedStep(c, e, ExecStep(c.store, e, choice))
  {
    if choice.Proceed? && e.Running? { PointStepShape(c, e.op, e.at, choice.reply); }
  }

  /** Recording a store whose operation moved only by the scripts keeps the phases apart. */
  lemma WithKeepsInv(c: Cluster, st: Store)
    requires OneSideInv(c) && OutsideOperation(c, st.op)
    ensures OneSideInv(With(c, st))
    ensures forall e :: ExecutorInv(c, e) ==> ExecutorInv(With(c, st), e)
  {
    var c' := With(c, st);
    assert c.draining <= c'.draining && c.cleaning <= c'.cleaning && c.known <= c'.known;
  }

  lemma StepKeepsInv(c: Cluster, ev: Event)
    requires OneSideInv(c) && Admits(c, ev)
    ensures OneSideInv(Apply(c, ev))
  {
    match ev
    case Outside(st) => WithKeepsInv(c, st);
    case Execute(who, choice) =>
      var e := ExecutorOf(c, who);
      var o := ExecStep(c.store, e, choice);
      ExecStepShape(c, e, choice);
      WithKeepsInv(c, o.store);
      assert ExecutorInv(With(c, o.store), o.exec);
  }

  lemma {:induction false} RunKeepsInv(run: seq<Cluster>, i: nat)
    requires Run(run) && i < |run|
    ensures OneSideInv(run[i])
  {
    if i > 0 {
      RunKeepsInv(run, i - 1);
      assert Next(run[i - 1], run[i]);
      var ev :| Admits(run[i - 1], ev) && run[i] == Apply(run[i - 1], ev);
      StepKeepsInv(run[i - 1], ev);
    }
  }

  /** No operation ever has both of its instances torn down, in any run. */
  lemma {:induction false} DestroysAtMostOneSide(run: seq<Cluster>, i: nat, id: nat)
    requires Run(run) && i < |run|
    ensures !(id in run[i].tornSource && id in run[i].tornReplacement)
    ensures id in run[i].tornSource ==> id in run[i].draining
    ensures id in run[i].tornReplacement ==> id in run[i].cleaning
  {
    RunKeepsInv(run, i);
  }

  /** A terminal phase is never left, so a run that reaches one never reaches the other. */
  lemma {:induction false} TerminalPhasesExclude(run: seq<Cluster>, i: nat, j: nat, id: nat)
    requires Run(run) && i <= j < |run|
    ensures id in run[i].draining ==> id in run[j].draining && id !in run[j].cleaning
    ensures id in run[i].cleaning ==> id in run[j].cleaning && id !in run[j].draining
    decreases j
  {
    RunKeepsInv(run, j);
    if i < j {
      TerminalPhasesExclude(run, i, j - 1, id);
      assert Next(run[j - 1], run[j]);
    }
  }
}
