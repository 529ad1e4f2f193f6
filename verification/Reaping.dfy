/**
 * Reaping instances whose model no longer exists: reapOrphanedInstances
 * (control-plane/src/services/reconciliation.ts) against any number of
 * concurrent deployments, which write the model row before the instance and
 * roll back in reverse (control-plane/src/routes/models.ts). The rows and the
 * instances live in different stores, so the pass reads them at two instants.
 */
module Reaping {
  type Name = string
  type Id = string

  /** Which store the pass reads first; the source reads the instances first. */
  datatype Order = InstancesFirst | ModelsFirst

  datatype Pass =
    | Idle
    | SawInstances(ids: set<Id>)
    | SawModels(names: set<Name>)
    | Judged(orphans: set<Id>)             // what the two reads make of it
    | Rechecked(id: Id, orphans: set<Id>)  // findByName found no row: drop this one next

  /**
   * `begun` holds the model of every deployment that has found its row; `lost`
   * those whose row has been deleted since; `reaped` those the pass dropped.
   */
  datatype World = World(
    rows: set<Name>,
    begun: map<Id, Name>,
    instances: set<Id>,
    lost: set<Id>,
    reaped: set<Id>,
    pass: Pass)

  datatype Event =
    | CreateRow(name: Name)
    | DeleteRow(name: Name)
    | Begin(id: Id, name: Name)  // a deployment of an existing row
    | Create(id: Id)             // its instance record
    | Remove(id: Id)             // a rollback or a teardown
    | ReadInstances
    | ReadModels
    | Recheck(id: Id)
    | Reap
    | Finish

  function WithoutRow(w: World, ids: set<Id>, rows: set<Name>): set<Id> {
    set id | id in ids && id in w.begun && w.begun[id] !in rows
  }

  function Apply(order: Order, w: World, ev: Event): World {
    match ev
    case CreateRow(n) => w.(rows := w.rows + {n})
    case DeleteRow(n) =>
      w.(rows := w.rows - {n}, lost := w.lost + set id | id in w.begun && w.begun[id] == n)
    case Begin(id, n) => if n in w.rows && id !in w.begun then w.(begun := w.begun[id := n]) else w
    case Create(id) => if id in w.begun then w.(instances := w.instances + {id}) else w
    case Remove(id) => w.(instances := w.instances - {id})
    case ReadInstances =>
      if order == InstancesFirst && w.pass == Idle then w.(pass := SawInstances(w.instances))
      else if w.pass.SawModels? then w.(pass := Judged(WithoutRow(w, w.instances, w.pass.names)))
      else w
    case ReadModels =>
      if order == ModelsFirst && w.pass == Idle then w.(pass := SawModels(w.rows))
      else if w.pass.SawInstances? then w.(pass := Judged(WithoutRow(w, w.pass.ids, w.rows)))
      else w
    case Recheck(id) =>
      if w.pass.Judged? && id in w.pass.orphans && id in w.begun then
        if w.begun[id] in w.rows then w.(pass := Judged(w.pass.orphans - {id}))
        else w.(pass := Rechecked(id, w.pass.orphans - {id}))
      else w
    case Reap =>
      if w.pass.Rechecked?
      then w.(instances := w.instances - {w.pass.id}, reaped := w.reaped + {w.pass.id}, pass := Judged(w.pass.orphans))
      else w
    case Finish => if w.pass.Judged? then w.(pass := Idle) else w
  }

  const START := World({}, map[], {}, {}, {}, Idle)

  /** The world after some events, from empty stores. */
  function Play(order: Order, events: seq<Event>): World {
    if events == [] then START
    else Apply(order, Play(order, events[..|events| - 1]), events[|events| - 1])
  }

  ghost predicate Inv(order: Order, w: World) {
    && w.instances <= w.begun.Keys
    && (forall id :: id in w.begun ==> id in w.lost || w.begun[id] in w.rows)
    && (w.pass.SawInstances? ==> order == InstancesFirst && w.pass.ids <= w.begun.Keys)
    && (w.pass.SawModels? ==> order == ModelsFirst)
    && (w.pass.Judged? && order == InstancesFirst ==> w.pass.orphans <= w.lost)
    && (w.pass.Rechecked? ==> w.pass.id in w.lost)
    && (w.pass.Rechecked? && order == InstancesFirst ==> w.pass.orphans <= w.lost)
    && w.reaped <= w.lost
  }

  lemma StepKeepsInv(order: Order, w: World, ev: Event)
    requires Inv(order, w)
    ensures Inv(order, Apply(order, w, ev))
  {}

  lemma {:induction false} RunKeepsInv(order: Order, events: seq<Event>)
    ensures Inv(order, Play(order, events))
  {
    if events != [] {
      RunKeepsInv(order, events[..|events| - 1]);
      StepKeepsInv(order, Play(order, events[..|events| - 1]), events[|events| - 1]);
    }
  }

  /** In every interleaving the pass drops only instances whose row was deleted after their deployment found it. */
  lemma LiveIsNeverReaped(order: Order, events: seq<Event>, id: Id)
    requires id in Play(order, events).reaped
    ensures id in Play(order, events).lost
  {
    RunKeepsInv(order, events);
  }

  /** Whatever the step, an instance goes only by its own removal, or because the pass drops it after its row was. */
  lemma {:induction false} GoesOnlyForCause(order: Order, events: seq<Event>, ev: Event, id: Id)
    requires id in Play(order, events).instances && id !in Play(order, events + [ev]).instances
    ensures || ev == Remove(id)
            || (ev == Reap && id in Play(order, events).lost && id in Play(order, events + [ev]).reaped)
  {
    RunKeepsInv(order, events);
    PlayOn(order, events, ev);
  }

  /** With the source's read order, it does not even judge any other an orphan. */
  lemma LiveIsNeverJudged(events: seq<Event>, id: Id)
    requires Play(InstancesFirst, events).pass.Judged? && id in Play(InstancesFirst, events).pass.orphans
    ensures id in Play(InstancesFirst, events).lost
  {
    RunKeepsInv(InstancesFirst, events);
  }

  /** Every orphan the two reads ever report has lost its row. */
  ghost predicate ReadsSuffice(order: Order) {
    forall events, id ::
      Play(order, events).pass.Judged? && id in Play(order, events).pass.orphans ==> id in Play(order, events).lost
  }

  lemma PlayOn(order: Order, events: seq<Event>, ev: Event)
    ensures Play(order, events + [ev]) == Apply(order, Play(order, events), ev)
  {
    assert (events + [ev])[..|events|] == events;
  }

  /** Read the other way round, a deployment that fits between the reads looks like an orphan. */
  lemma FalseOrphan() returns (events: seq<Event>)
    ensures Play(ModelsFirst, events) == World({"m"}, map["i" := "m"], {"i"}, {}, {}, Judged({"i"}))
  {
    var a, b, c := [ReadModels], [ReadModels, CreateRow("m")], [ReadModels, CreateRow("m"), Begin("i", "m")];
    assert a == [] + [ReadModels] && b == a + [CreateRow("m")] && c == b + [Begin("i", "m")];
    PlayOn(ModelsFirst, [], ReadModels);
    PlayOn(ModelsFirst, a, CreateRow("m"));
    PlayOn(ModelsFirst, b, Begin("i", "m"));
    assert Play(ModelsFirst, c) == World({"m"}, map["i" := "m"], {}, {}, {}, SawModels({}));
    PlayOn(ModelsFirst, c, Create("i"));
    PlayOn(ModelsFirst, c + [Create("i")], ReadInstances);
    events := c + [Create("i")] + [ReadInstances];
    var w := Play(ModelsFirst, c + [Create("i")]);
    assert w == World({"m"}, map["i" := "m"], {"i"}, {}, {}, SawModels({}));
    assert WithoutRow(w, {"i"}, {}) == {"i"};
  }

  /** The read order is what makes the reads suffice. */
  lemma OrderMatters(order: Order)
    ensures ReadsSuffice(order) <==> order == InstancesFirst
  {
    if order == InstancesFirst {
      forall events, id | Play(order, events).pass.Judged? && id in Play(order, events).pass.orphans
        ensures id in Play(order, events).lost
      {
        LiveIsNeverJudged(events, id);
      }
    } else {
      var events := FalseOrphan();
      assert "i" in Play(order, events).pass.orphans && "i" !in Play(order, events).lost;
    }
  }

  /** An undisturbed pass does drop an instance without a row. */
  lemma OrphanIsReaped(w: World, id: Id)
    requires w.pass == Idle && id in w.instances && id in w.begun && w.begun[id] !in w.rows
    ensures var w' := Apply(InstancesFirst, Apply(InstancesFirst, w, ReadInstances), ReadModels);
            var w'' := Apply(InstancesFirst, Apply(InstancesFirst, w', Recheck(id)), Reap);
            id !in w''.instances && id in w''.reaped && w''.rows == w.rows
  {}
}
