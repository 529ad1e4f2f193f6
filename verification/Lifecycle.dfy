/**
 * The lifecycle of one model instance and the aggregate state of a model that
 * has several instances (control-plane/src/services/model-lifecycle.ts), the
 * projection of that aggregate onto the routing map
 * (control-plane/src/services/sleep-wake.ts) and the copy of the aggregate kept
 * by the dashboard (dashboard/server/clients/redis.ts).
 */
module Lifecycle {
  import opened Options

  datatype State =
    | Pending
    | Starting
    | Active
    | Draining
    | Sleeping
    | Stopping
    | Stopped
    | Error

  /** The edges the compare-and-set transition script accepts. */
  predicate ValidTransition(from: State, to: State) {
    match from
    case Pending => to == Starting || to == Error
    case Starting => to == Active || to == Error
    case Active => to == Draining || to == Error
    case Draining => to == Sleeping || to == Stopping || to == Error
    case Sleeping => to == Starting || to == Stopping || to == Error
    case Stopping => to == Stopped || to == Error
    case Stopped => to == Error
    case Error => to == Stopped || to == Starting
  }

  /** A sequence of states each of which follows from its predecessor by an accepted edge. */
  predicate ValidPath(path: seq<State>) {
    forall i :: 0 < i < |path| ==> ValidTransition(path[i - 1], path[i])
  }

  lemma {:induction false} ValidPathConcat(a: seq<State>, b: seq<State>)
    requires ValidPath(a) && ValidPath(b)
    requires a != [] && b != [] ==> ValidTransition(a[|a| - 1], b[0])
    ensures ValidPath(a + b)
  {
    var c := a + b;
    forall i | 0 < i < |c|
      ensures ValidTransition(c[i - 1], c[i])
    {
      if i < |a| {
        assert ValidTransition(a[i - 1], a[i]);
      } else if i > |a| {
        assert ValidTransition(b[i - |a| - 1], b[i - |a|]);
      }
    }
  }

  /** Whatever came before, an instance is ACTIVE only straight out of STARTING. */
  lemma {:induction false} ActiveOnlyThroughStarting(path: seq<State>)
    requires ValidPath(path) && |path| > 1
    requires path[|path| - 1] == Active
    ensures path[|path| - 2] == Starting
  {
    assert ValidTransition(path[|path| - 2], path[|path| - 1]);
  }

  /** Having begun to drain or stop, an instance serves again only after it slept or failed and then started. */
  lemma {:induction false} ServesAgainOnlyAfterRestart(path: seq<State>) returns (i: nat)
    requires ValidPath(path) && |path| > 1
    requires path[0] == Draining || path[0] == Stopping || path[0] == Stopped
    requires path[|path| - 1] == Active
    ensures 0 < i < |path| - 2 && (path[i] == Sleeping || path[i] == Error) && path[|path| - 2] == Starting
    decreases |path|
  {
    assert ValidTransition(path[0], path[1]);
    ActiveOnlyThroughStarting(path);
    if path[1] == Sleeping || path[1] == Error {
      i := 1;
    } else {
      var rest := path[1..];
      assert forall j :: 0 < j < |rest| ==> ValidTransition(path[j], path[j + 1]);
      i := ServesAgainOnlyAfterRestart(rest);
      i := i + 1;
    }
  }

  /** From serving to stopped an instance passes through DRAINING and STOPPING, or through ERROR. */
  lemma {:induction false} StopIsNeverAbrupt(path: seq<State>)
    requires ValidPath(path) && |path| > 1
    requires path[0] == Active && path[|path| - 1] == Stopped
    ensures Error in path || (Draining in path && Stopping in path)
  {
    assert ValidTransition(path[0], path[1]);
    assert ValidTransition(path[|path| - 2], path[|path| - 1]);
  }

  // ---------------------------------------------------------------------
  // Aggregate state
  // ---------------------------------------------------------------------

  /** Highest precedence first; STOPPED is deliberately not ranked. */
  const PRECEDENCE: seq<State> := [Active, Starting, Draining, Sleeping, Pending, Stopping, Error]

  function FirstPresent(order: seq<State>, present: set<State>): State {
    if order == [] then Error
    else if order[0] in present then order[0]
    else FirstPresent(order[1..], present)
  }

  function WithoutStopped(states: seq<State>): seq<State> {
    if states == [] then []
    else (if states[0] != Stopped then [states[0]] else []) + WithoutStopped(states[1..])
  }

  /** deriveAggregateState of the control plane. */
  function Aggregate(states: seq<State>): State {
    var relevant := WithoutStopped(states);
    if relevant == [] then Stopped
    else FirstPresent(PRECEDENCE, set s | s in relevant)
  }

  /** deriveAggregateState of the dashboard's Redis fallback: no case for an empty list. */
  function DashboardAggregate(states: seq<State>): State {
    FirstPresent(PRECEDENCE, set s | s in WithoutStopped(states))
  }

  /** An independent ranking: the larger rank wins, STOPPED never does. */
  function Rank(s: State): nat {
    match s
    case Active => 7
    case Starting => 6
    case Draining => 5
    case Sleeping => 4
    case Pending => 3
    case Stopping => 2
    case Error => 1
    case Stopped => 0
  }

  function Higher(a: State, b: State): State {
    if Rank(a) >= Rank(b) then a else b
  }

  lemma {:induction false} FirstPresentIsHighest(order: seq<State>, present: set<State>)
    requires present != {}
    requires forall s :: s in present ==> s in order
    requires forall i, j :: 0 <= i < j < |order| ==> Rank(order[i]) > Rank(order[j])
    ensures FirstPresent(order, present) in present
    ensures forall s :: s in present ==> Rank(s) <= Rank(FirstPresent(order, present))
  {
    var s0 :| s0 in present;
    assert order != [];
    if order[0] !in present {
      forall s | s in present ensures s in order[1..] {
        var i :| 0 <= i < |order| && order[i] == s;
        assert order[1..][i - 1] == s;
      }
      FirstPresentIsHighest(order[1..], present);
    }
  }

  lemma {:induction false} WithoutStoppedMembers(states: seq<State>, s: State)
    ensures s in WithoutStopped(states) <==> s in states && s != Stopped
  {
    if states != [] {
      WithoutStoppedMembers(states[1..], s);
      assert states == [states[0]] + states[1..];
    }
  }

  /** The aggregate is the highest-ranked state present, and STOPPED when there is none. */
  lemma {:induction false} AggregateIsHighest(states: seq<State>)
    ensures forall s :: s in states ==> Rank(s) <= Rank(Aggregate(states))
    ensures Aggregate(states) == Stopped || Aggregate(states) in states
  {
    var relevant := WithoutStopped(states);
    forall s | s in states ensures s == Stopped || s in relevant {
      WithoutStoppedMembers(states, s);
    }
    if relevant != [] {
      var present := set s | s in relevant;
      assert relevant[0] in present;
      forall s | s in present ensures s in PRECEDENCE {
        WithoutStoppedMembers(states, s);
        assert Rank(s) > 0 && PRECEDENCE[7 - Rank(s)] == s;
      }
      FirstPresentIsHighest(PRECEDENCE, present);
      WithoutStoppedMembers(states, Aggregate(states));
    }
  }

  lemma RankInjective(a: State, b: State)
    requires Rank(a) == Rank(b)
    ensures a == b
  {}

  /** The only state that is an upper bound of the list and occurs in it is the aggregate. */
  lemma {:induction false} AggregateUnique(states: seq<State>, s: State)
    requires forall t :: t in states ==> Rank(t) <= Rank(s)
    requires s == Stopped || s in states
    ensures Aggregate(states) == s
  {
    AggregateIsHighest(states);
    RankInjective(Aggregate(states), s);
  }

  /** Aggregation is a monoid homomorphism into (Higher, STOPPED). */
  lemma {:induction false} AggregateConcat(a: seq<State>, b: seq<State>)
    ensures Aggregate(a + b) == Higher(Aggregate(a), Aggregate(b))
    ensures Aggregate([]) == Stopped
  {
    AggregateIsHighest(a);
    AggregateIsHighest(b);
    var h := Higher(Aggregate(a), Aggregate(b));
    AggregateUnique(a + b, h);
  }

  lemma {:induction false} AggregateSingle(s: State)
    ensures Aggregate([s]) == s
  {
    AggregateUnique([s], s);
  }

  /** One ACTIVE instance makes the whole model ACTIVE, whatever the others do. */
  lemma {:induction false} ActiveMasksEverything(states: seq<State>)
    ensures Aggregate(states) == Active <==> Active in states
  {
    AggregateIsHighest(states);
    if Active in states {
      AggregateUnique(states, Active);
    }
  }

  /** A list order and STOPPED entries never matter. */
  lemma {:induction false} AggregateIgnoresStopped(a: seq<State>, b: seq<State>)
    ensures Aggregate(a + [Stopped] + b) == Aggregate(a + b)
  {
    AggregateConcat(a + [Stopped], b);
    AggregateConcat(a, [Stopped]);
    AggregateSingle(Stopped);
    AggregateConcat(a, b);
    AggregateIsHighest(a);
  }

  /** The dashboard copy agrees exactly on the lists that hold a state other than STOPPED. */
  lemma {:induction false} DashboardAgrees(states: seq<State>)
    ensures DashboardAggregate(states) == Aggregate(states)
            <==> exists s :: s in states && s != Stopped
  {
    var relevant := WithoutStopped(states);
    if relevant == [] {
      forall s | s in states ensures s == Stopped {
        WithoutStoppedMembers(states, s);
      }
      NothingPresent(PRECEDENCE);
      assert (set s | s in relevant) == {};
    } else {
      WithoutStoppedMembers(states, relevant[0]);
    }
  }

  lemma {:induction false} NothingPresent(order: seq<State>)
    ensures FirstPresent(order, {}) == Error
  {
    if order != [] {
      NothingPresent(order[1..]);
    }
  }

  // ---------------------------------------------------------------------
  // Projection onto the routing map
  // ---------------------------------------------------------------------

  datatype RoutingState = RStarting | RActive | RDraining | RSleeping | RError

  /** PENDING, STOPPING and STOPPED have no representation in the routing map. */
  function ToRoutingState(s: State): Option<RoutingState> {
    match s
    case Starting => Some(RStarting)
    case Active => Some(RActive)
    case Draining => Some(RDraining)
    case Sleeping => Some(RSleeping)
    case Error => Some(RError)
    case _ => None
  }

  /** What refreshModelRoutingState writes; None means that the entry is removed. */
  function RoutingStateOf(states: seq<State>): Option<RoutingState> {
    ToRoutingState(Aggregate(states))
  }

  lemma {:induction false} RoutesActiveExactly(states: seq<State>)
    ensures RoutingStateOf(states) == Some(RActive) <==> Active in states
  {
    ActiveMasksEverything(states);
  }

  /** A model keeps its routing entry as long as one instance drains, sleeps, starts or serves. */
  lemma {:induction false} RoutableInstanceKeepsEntry(states: seq<State>)
    requires Starting in states || Active in states || Draining in states || Sleeping in states
    ensures RoutingStateOf(states).Some? && RoutingStateOf(states) != Some(RError)
  {
    AggregateIsHighest(states);
    assert Rank(Aggregate(states)) >= 4;
  }
}
