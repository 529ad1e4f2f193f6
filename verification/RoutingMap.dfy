/**
 * The routing map shared with the proxies
 * (control-plane/src/services/routing-map.ts): every operation is one Lua script
 * that rewrites a model's entry in place, looping over its endpoints.
 */
module RoutingMap {
  import opened Options
  import opened Lifecycle

  datatype Endpoint = Endpoint(host: string, port: int, weight: int, healthy: bool, runnerId: Option<string>)

  datatype Entry = Entry(state: RoutingState, protocol: string, endpoints: seq<Endpoint>)

  type Address = (string, int)

  type Entries = map<string, Entry>

  const OPENAI := "openai"

  function AddressOf(e: Endpoint): Address {
    (e.host, e.port)
  }

  // ---------------------------------------------------------------------
  // What the scripts compute
  // ---------------------------------------------------------------------

  function Without(eps: seq<Endpoint>, a: Address): seq<Endpoint> {
    if eps == [] then []
    else (if AddressOf(eps[0]) == a then [] else [eps[0]]) + Without(eps[1..], a)
  }

  predicate Contains(eps: seq<Endpoint>, a: Address) {
    exists i :: 0 <= i < |eps| && AddressOf(eps[i]) == a
  }

  /** The first endpoint at `a`; the scripts that change an endpoint stop there. */
  function FirstAt(eps: seq<Endpoint>, a: Address): (i: nat)
    requires Contains(eps, a)
    ensures i < |eps| && AddressOf(eps[i]) == a
    ensures forall j :: 0 <= j < i ==> AddressOf(eps[j]) != a
  {
    if AddressOf(eps[0]) == a then 0
    else
      assert Contains(eps[1..], a) by {
        var i :| 0 <= i < |eps| && AddressOf(eps[i]) == a;
        assert AddressOf(eps[1..][i - 1]) == a;
      }
      1 + FirstAt(eps[1..], a)
  }

  function Reweighted(eps: seq<Endpoint>, a: Address, weight: int): seq<Endpoint>
    requires Contains(eps, a)
  {
    var i := FirstAt(eps, a);
    eps[i := eps[i].(weight := weight)]
  }

  function Marked(eps: seq<Endpoint>, a: Address, healthy: bool): seq<Endpoint>
    requires Contains(eps, a)
  {
    var i := FirstAt(eps, a);
    eps[i := eps[i].(healthy := healthy)]
  }

  datatype Operation =
    | SetState(model: string, state: RoutingState, protocol: Option<string>)
    | RemoveModel(model: string)
    | Add(model: string, endpoint: Endpoint, protocol: Option<string>)
    | Remove(model: string, address: Address)
    | SetHealth(model: string, address: Address, healthy: bool)
    | SetWeight(model: string, address: Address, weight: int)

  function ProtocolOr(p: Option<string>): string {
    if p.Some? then p.value else OPENAI
  }

  predicate HasEndpoint(es: Entries, model: string, a: Address) {
    model in es && Contains(es[model].endpoints, a)
  }

  /** The map after one operation. */
  function After(es: Entries, op: Operation): Entries {
    match op
    case SetState(m, s, p) =>
      es[m := Entry(s, ProtocolOr(p), if m in es then es[m].endpoints else [])]
    case RemoveModel(m) => es - {m}
    case Add(m, e, p) =>
      es[m := Entry(if m in es then es[m].state else RStarting, ProtocolOr(p),
                    Without(if m in es then es[m].endpoints else [], AddressOf(e)) + [e])]
    case Remove(m, a) =>
      if m !in es then es else es[m := es[m].(endpoints := Without(es[m].endpoints, a))]
    case SetHealth(m, a, h) =>
      if !HasEndpoint(es, m, a) then es else es[m := es[m].(endpoints := Marked(es[m].endpoints, a, h))]
    case SetWeight(m, a, w) =>
      if !HasEndpoint(es, m, a) then es else es[m := es[m].(endpoints := Reweighted(es[m].endpoints, a, w))]
  }

  function AfterAll(es: Entries, ops: seq<Operation>): Entries
    decreases |ops|
  {
    if ops == [] then es else AfterAll(After(es, ops[0]), ops[1..])
  }

  // ---------------------------------------------------------------------
  // Well-formed entries
  // ---------------------------------------------------------------------

  predicate Unique(eps: seq<Endpoint>) {
    forall i, j :: 0 <= i < j < |eps| ==> AddressOf(eps[i]) != AddressOf(eps[j])
  }

  /** At most one endpoint per address in every entry. */
  predicate WellFormed(es: Entries) {
    forall m :: m in es ==> Unique(es[m].endpoints)
  }

  /** The traffic weight of every address of an entry. */
  function Weights(eps: seq<Endpoint>): map<Address, int> {
    if eps == [] then map[] else Weights(eps[1..])[AddressOf(eps[0]) := eps[0].weight]
  }

  lemma {:induction false} WithoutMembers(eps: seq<Endpoint>, a: Address, e: Endpoint)
    ensures e in Without(eps, a) <==> e in eps && AddressOf(e) != a
  {
    if eps != [] {
      WithoutMembers(eps[1..], a, e);
      assert eps == [eps[0]] + eps[1..];
    }
  }

  lemma {:induction false} WithoutUnique(eps: seq<Endpoint>, a: Address)
    requires Unique(eps)
    ensures Unique(Without(eps, a)) && !Contains(Without(eps, a), a)
  {
    if eps != [] {
      var rest := Without(eps[1..], a);
      assert Unique(eps[1..]) by {
        forall i, j | 0 <= i < j < |eps[1..]| ensures AddressOf(eps[1..][i]) != AddressOf(eps[1..][j]) {
          assert AddressOf(eps[i + 1]) != AddressOf(eps[j + 1]);
        }
      }
      WithoutUnique(eps[1..], a);
      forall j | 0 <= j < |rest| ensures AddressOf(rest[j]) != AddressOf(eps[0]) {
        WithoutMembers(eps[1..], a, rest[j]);
        var n :| 0 <= n < |eps[1..]| && eps[1..][n] == rest[j];
        assert AddressOf(eps[0]) != AddressOf(eps[n + 1]);
      }
    }
  }

  lemma {:induction false} WeightsDomain(eps: seq<Endpoint>, a: Address)
    ensures a in Weights(eps) <==> Contains(eps, a)
    ensures Contains(eps, a) ==> Weights(eps)[a] == eps[FirstAt(eps, a)].weight
  {
    if eps != [] {
      WeightsDomain(eps[1..], a);
      if Contains(eps, a) && AddressOf(eps[0]) != a {
        var i :| 0 <= i < |eps| && AddressOf(eps[i]) == a;
        assert AddressOf(eps[1..][i - 1]) == a;
      }
      if Contains(eps[1..], a) {
        var i :| 0 <= i < |eps[1..]| && AddressOf(eps[1..][i]) == a;
        assert AddressOf(eps[i + 1]) == a;
      }
    }
  }

  lemma {:induction false} WeightsWithout(eps: seq<Endpoint>, a: Address)
    ensures Weights(Without(eps, a)) == Weights(eps) - {a}
  {
    if eps != [] {
      WeightsWithout(eps[1..], a);
      var rest := Without(eps[1..], a);
      if AddressOf(eps[0]) == a {
        assert Without(eps, a) == rest;
      } else {
        assert Without(eps, a) == [eps[0]] + rest;
        assert ([eps[0]] + rest)[1..] == rest;
      }
    }
  }

  lemma {:induction false} WeightsAppend(eps: seq<Endpoint>, e: Endpoint)
    requires !Contains(eps, AddressOf(e))
    ensures Weights(eps + [e]) == Weights(eps)[AddressOf(e) := e.weight]
  {
    if eps == [] {
      assert [] + [e] == [e];
    } else {
      assert !Contains(eps[1..], AddressOf(e)) by {
        forall i | 0 <= i < |eps[1..]| ensures AddressOf(eps[1..][i]) != AddressOf(e) {
          assert AddressOf(eps[i + 1]) != AddressOf(e);
        }
      }
      WeightsAppend(eps[1..], e);
      assert (eps + [e])[1..] == eps[1..] + [e];
      assert AddressOf(eps[0]) != AddressOf(e);
    }
  }

  lemma {:induction false} WeightsReweighted(eps: seq<Endpoint>, a: Address, weight: int)
    requires Contains(eps, a)
    ensures Weights(Reweighted(eps, a, weight)) == Weights(eps)[a := weight]
  {
    var r := Reweighted(eps, a, weight);
    if AddressOf(eps[0]) == a {
      assert r[1..] == eps[1..];
    } else {
      WeightsDomain(eps, a);
      WeightsDomain(eps[1..], a);
      assert r[1..] == Reweighted(eps[1..], a, weight);
      WeightsReweighted(eps[1..], a, weight);
    }
  }

  /**
   * The scripts act on an entry as if it were a map from addresses to weights:
   * the form in which the move transaction uses it.
   */
  lemma {:induction false} ScriptsActOnWeights(
      es: Entries, m: string, e: Endpoint, a: Address, w: int, p: Option<string>)
    requires WellFormed(es) && m in es
    ensures Weights(After(es, Add(m, e, p))[m].endpoints) == Weights(es[m].endpoints)[AddressOf(e) := e.weight]
    ensures Weights(After(es, Remove(m, a))[m].endpoints) == Weights(es[m].endpoints) - {a}
    ensures Weights(After(es, SetWeight(m, a, w))[m].endpoints)
         == if a in Weights(es[m].endpoints) then Weights(es[m].endpoints)[a := w] else Weights(es[m].endpoints)
  {
    var eps := es[m].endpoints;
    WeightsWithout(eps, AddressOf(e));
    WithoutUnique(eps, AddressOf(e));
    WeightsAppend(Without(eps, AddressOf(e)), e);
    WeightsWithout(eps, a);
    WeightsDomain(eps, a);
    if Contains(eps, a) { WeightsReweighted(eps, a, w); }
  }

  lemma {:induction false} AppendUnique(eps: seq<Endpoint>, e: Endpoint)
    requires Unique(eps) && !Contains(eps, AddressOf(e))
    ensures Unique(eps + [e])
  {
    var r := eps + [e];
    forall i, j | 0 <= i < j < |r| ensures AddressOf(r[i]) != AddressOf(r[j]) {
      assert AddressOf(eps[i]) != AddressOf(e);
    }
  }

  /** Every operation keeps at most one endpoint per address. */
  lemma {:induction false} AfterWellFormed(es: Entries, op: Operation)
    requires WellFormed(es)
    ensures WellFormed(After(es, op))
  {
    match op
    case Add(m, e, _) =>
      var eps := if m in es then es[m].endpoints else [];
      WithoutUnique(eps, AddressOf(e));
      AppendUnique(Without(eps, AddressOf(e)), e);
    case Remove(m, a) => if m in es { WithoutUnique(es[m].endpoints, a); }
    case SetState(_, _, _) =>
    case RemoveModel(_) =>
    case SetHealth(_, _, _) =>
    case SetWeight(_, _, _) =>
  }

  lemma {:induction false} RunWellFormed(es: Entries, ops: seq<Operation>)
    requires WellFormed(es)
    ensures WellFormed(AfterAll(es, ops))
    decreases |ops|
  {
    if ops != [] {
      AfterWellFormed(es, ops[0]);
      RunWellFormed(After(es, ops[0]), ops[1..]);
    }
  }

  lemma {:induction false} AfterLast(es: Entries, ops: seq<Operation>, op: Operation)
    ensures AfterAll(es, ops + [op]) == After(AfterAll(es, ops), op)
    decreases |ops|
  {
    if ops != [] {
      AfterLast(After(es, ops[0]), ops[1..], op);
      assert (ops + [op])[1..] == ops[1..] + [op];
    } else {
      assert ([] + [op])[1..] == [];
    }
  }

  predicate Sets(op: Operation, m: string) {
    op.SetState? && op.model == m
  }

  /** Operation i creates the entry or writes to it, and it has not been removed since. */
  predicate Stands(ops: seq<Operation>, m: string, i: int) {
    && 0 <= i < |ops| && ops[i].model == m && (ops[i].SetState? || ops[i].Add?)
    && forall j :: i < j < |ops| ==> ops[j] != RemoveModel(m)
  }

  /** Operation i is the last to set the state of the entry, which has not been removed since. */
  predicate LastSet(ops: seq<Operation>, m: string, i: int) {
    && 0 <= i < |ops| && Sets(ops[i], m)
    && forall j :: i < j < |ops| ==> !Sets(ops[j], m) && ops[j] != RemoveModel(m)
  }

  lemma StandsOn(ops: seq<Operation>, op: Operation, m: string, i: int)
    requires 0 <= i < |ops|
    ensures Stands(ops + [op], m, i) <==> Stands(ops, m, i) && op != RemoveModel(m)
    ensures LastSet(ops + [op], m, i) <==> LastSet(ops, m, i) && !Sets(op, m) && op != RemoveModel(m)
  {
    assert forall j :: 0 <= j < |ops| ==> (ops + [op])[j] == ops[j];
    assert (ops + [op])[|ops|] == op;
  }

  /** A model has an entry exactly while something that was written to it stands. */
  lemma {:induction false} PresentExactly(ops: seq<Operation>, m: string)
    ensures m in AfterAll(map[], ops) <==> exists i :: Stands(ops, m, i)
  {
    if ops != [] {
      var rest, op := ops[..|ops| - 1], ops[|ops| - 1];
      assert ops == rest + [op];
      PresentExactly(rest, m);
      AfterLast(map[], rest, op);
      forall i | 0 <= i < |rest| ensures Stands(ops, m, i) <==> Stands(rest, m, i) && op != RemoveModel(m) {
        StandsOn(rest, op, m, i);
      }
      assert Stands(ops, m, |rest|) <==> op.model == m && (op.SetState? || op.Add?);
    }
  }

  /** Its state is the one last set since it was created, and STARTING until one is set. */
  lemma {:induction false} StateIsLastSet(ops: seq<Operation>, m: string)
    requires m in AfterAll(map[], ops)
    ensures var state := AfterAll(map[], ops)[m].state;
            && (forall i :: LastSet(ops, m, i) ==> state == ops[i].state)
            && ((forall i :: !LastSet(ops, m, i)) ==> state == RStarting)
  {
    var rest, op := ops[..|ops| - 1], ops[|ops| - 1];
    assert ops == rest + [op];
    AfterLast(map[], rest, op);
    assert Sets(op, m) ==> LastSet(ops, m, |rest|);
    forall i | 0 <= i < |rest|
      ensures LastSet(ops, m, i) <==> LastSet(rest, m, i) && !Sets(op, m) && op != RemoveModel(m)
    {
      StandsOn(rest, op, m, i);
    }
    if m in AfterAll(map[], rest) {
      StateIsLastSet(rest, m);
      assert forall i :: LastSet(ops, m, i) && i != |rest| ==> LastSet(rest, m, i) && ops[i] == rest[i];
      assert !Sets(op, m) ==> forall i :: LastSet(rest, m, i) ==> LastSet(ops, m, i);
    } else {
      PresentExactly(rest, m);
      assert forall i :: LastSet(rest, m, i) ==> Stands(rest, m, i);
    }
  }

  /** Some operation adds an endpoint at the address to the model. */
  predicate Adds(ops: seq<Operation>, m: string, a: Address) {
    exists i :: 0 <= i < |ops| && ops[i].Add? && ops[i].model == m && AddressOf(ops[i].endpoint) == a
  }

  /** One operation: an endpoint was there before, or this operation added it. */
  lemma {:induction false} EndpointOrigin(es: Entries, op: Operation, m: string, a: Address)
    requires HasEndpoint(After(es, op), m, a)
    ensures (HasEndpoint(es, m, a) && op != RemoveModel(m)) || Adds([op], m, a)
  {
    var eps := After(es, op)[m].endpoints;
    var i :| 0 <= i < |eps| && AddressOf(eps[i]) == a;
    if m in es && op.model == m && (op.Add? || op.Remove?) {
      var gone := if op.Add? then AddressOf(op.endpoint) else op.address;
      if eps[i] in Without(es[m].endpoints, gone) {
        WithoutMembers(es[m].endpoints, gone, eps[i]);
      }
    }
    if op.Add? && op.model == m && AddressOf(op.endpoint) == a {
      assert [op][0].Add?;
    } else if m in es {
      UpdatesKeepTheRest(es, op, m);
    }
  }

  /** An entry that was removed comes back only with endpoints added since. */
  lemma {:induction false} RemovalForgetsEndpoints(es: Entries, m: string, ops: seq<Operation>, a: Address)
    requires HasEndpoint(AfterAll(After(es, RemoveModel(m)), ops), m, a)
    ensures Adds(ops, m, a)
  {
    AddedSince(After(es, RemoveModel(m)), ops, m, a);
  }

  lemma {:induction false} AddedSince(es: Entries, ops: seq<Operation>, m: string, a: Address)
    requires HasEndpoint(AfterAll(es, ops), m, a)
    ensures HasEndpoint(es, m, a) || Adds(ops, m, a)
    decreases |ops|
  {
    if ops != [] {
      AddedSince(After(es, ops[0]), ops[1..], m, a);
      if Adds(ops[1..], m, a) {
        var i :| 0 <= i < |ops[1..]| && ops[1..][i].Add? && ops[1..][i].model == m
                 && AddressOf(ops[1..][i].endpoint) == a;
        assert ops[i + 1] == ops[1..][i];
      } else {
        EndpointOrigin(es, ops[0], m, a);
        if Adds([ops[0]], m, a) {
          assert ops[0] == [ops[0]][0];
        }
      }
    }
  }

  /** Whatever ran before, a successful cutover leaves no endpoint at the address with traffic. */
  lemma {:induction false} CutoverSilencesAddress(ops: seq<Operation>, m: string, a: Address, e: Endpoint)
    requires HasEndpoint(AfterAll(map[], ops), m, a)
    requires e in After(AfterAll(map[], ops), SetWeight(m, a, 0))[m].endpoints && AddressOf(e) == a
    ensures e.weight == 0
  {
    var es := AfterAll(map[], ops);
    RunWellFormed(map[], ops);
    AfterWellFormed(es, SetWeight(m, a, 0));
    var eps := After(es, SetWeight(m, a, 0))[m].endpoints;
    var i :| 0 <= i < |eps| && eps[i] == e;
    var j := FirstAt(es[m].endpoints, a);
    assert AddressOf(eps[j]) == a && eps[j].weight == 0;
  }

  /**
   * An operation concerns one model; a state refresh keeps its endpoints; weight
   * and health updates keep every other endpoint, its order, and the other field.
   */
  lemma {:induction false} UpdatesKeepTheRest(es: Entries, op: Operation, other: string)
    ensures other != op.model ==> (other in After(es, op) <==> other in es)
    ensures other != op.model && other in es ==> After(es, op)[other] == es[other]
    ensures (op.SetState? || op.SetHealth? || op.SetWeight?) && op.model in es ==>
              && op.model in After(es, op)
              && |After(es, op)[op.model].endpoints| == |es[op.model].endpoints|
              && forall i :: 0 <= i < |es[op.model].endpoints| ==>
                   var e, e' := es[op.model].endpoints[i], After(es, op)[op.model].endpoints[i];
                   && AddressOf(e') == AddressOf(e) && e'.runnerId == e.runnerId
                   && (op.SetState? || AddressOf(e) != op.address ==> e' == e)
                   && (!op.SetWeight? ==> e'.weight == e.weight)
                   && (!op.SetHealth? ==> e'.healthy == e.healthy)
  {}

  // ---------------------------------------------------------------------
  // The cutover barrier
  // ---------------------------------------------------------------------

  /** A proxy's presence key: expired, unreadable, or its connect time in milliseconds. */
  datatype Presence = Missing | Unreadable | Connected(at: int)

  /** JavaScript's Number() of the stored value: null becomes 0. */
  function AsNumber(p: Presence): Option<int> {
    match p
    case Missing => Some(0)
    case Unreadable => None
    case Connected(t) => Some(t)
  }

  /** The proxy may still route by the map from before the cutover. */
  predicate Outdated(p: Presence, started: int) {
    AsNumber(p).Some? && AsNumber(p).value <= started
  }

  /** What one round of polling observes: the acknowledgements, then each proxy's presence. */
  datatype Poll = Poll(acked: set<string>, presence: map<string, Presence>)

  function Seen(poll: Poll, proxy: string): Presence {
    if proxy in poll.presence then poll.presence[proxy] else Missing
  }

  predicate Settled(poll: Poll, proxy: string, started: int) {
    proxy in poll.acked || !Outdated(Seen(poll, proxy), started)
  }

  predicate AllSettled(poll: Poll, required: seq<string>, started: int) {
    forall i :: 0 <= i < |required| ==> Settled(poll, required[i], started)
  }

  /** No proxy of the scan was serving before the cutover. */
  predicate NoneServing(scan: seq<(string, Presence)>, started: int) {
    forall i :: 0 <= i < |scan| ==> !Outdated(scan[i].1, started)
  }

  /** In this round every proxy that was serving before the cutover is settled. */
  predicate QuietAt(poll: Poll, scan: seq<(string, Presence)>, started: int) {
    forall i :: 0 <= i < |scan| && Outdated(scan[i].1, started) ==> Settled(poll, scan[i].0, started)
  }

  /** Collect the proxies that were serving before the cutover, without duplicates. */
  method RequiredProxies(scan: seq<(string, Presence)>, started: int) returns (required: seq<string>)
    ensures forall p :: p in required <==> exists i :: 0 <= i < |scan| && scan[i].0 == p && Outdated(scan[i].1, started)
    ensures forall i, j :: 0 <= i < j < |required| ==> required[i] != required[j]
  {
    required := [];
    for n := 0 to |scan|
      invariant forall p :: p in required <==> exists i :: 0 <= i < n && scan[i].0 == p && Outdated(scan[i].1, started)
      invariant forall i, j :: 0 <= i < j < |required| ==> required[i] != required[j]
    {
      var (proxy, presence) := scan[n];
      if Outdated(presence, started) && proxy !in required {
        required := required + [proxy];
      }
    }
  }

  /** Poll until nobody is outstanding or the polls before the timeout are used up. */
  method AwaitProxies(required: seq<string>, polls: seq<Poll>, started: int) returns (passed: bool)
    ensures passed <==> required == [] || exists k :: 0 <= k < |polls| && AllSettled(polls[k], required, started)
  {
    if |required| == 0 { return true; }
    for k := 0 to |polls|
      invariant forall j :: 0 <= j < k ==> !AllSettled(polls[j], required, started)
    {
      var outstanding := 0;
      for i := 0 to |required|
        invariant 0 <= outstanding <= i
        invariant outstanding == 0 <==> forall j :: 0 <= j < i ==> Settled(polls[k], required[j], started)
      {
        if required[i] !in polls[k].acked && Outdated(Seen(polls[k], required[i]), started) {
          outstanding := outstanding + 1;
        }
      }
      if outstanding == 0 {
        assert AllSettled(polls[k], required, started);
        return true;
      }
    }
    passed := false;
  }

  lemma SettledMeansQuiet(required: seq<string>, scan: seq<(string, Presence)>, polls: seq<Poll>, started: int)
    requires forall p ::
               p in required <==> exists i :: 0 <= i < |scan| && scan[i].0 == p && Outdated(scan[i].1, started)
    ensures required == [] <==> NoneServing(scan, started)
    ensures forall k :: 0 <= k < |polls| ==>
              (AllSettled(polls[k], required, started) <==> QuietAt(polls[k], scan, started))
  {
    assert forall i :: 0 <= i < |scan| && Outdated(scan[i].1, started) ==> scan[i].0 in required;
    if required != [] { assert required[0] in required; }
    forall k | 0 <= k < |polls| ensures AllSettled(polls[k], required, started) <==> QuietAt(polls[k], scan, started) {
      if AllSettled(polls[k], required, started) {
        forall i | 0 <= i < |scan| && Outdated(scan[i].1, started) ensures Settled(polls[k], scan[i].0, started) {
          assert scan[i].0 in required;
        }
      }
      if QuietAt(polls[k], scan, started) {
        forall i | 0 <= i < |required| ensures Settled(polls[k], required[i], started) {
          assert required[i] in required;
        }
      }
    }
  }

  /** Acknowledgements are never taken back. */
  predicate Growing(polls: seq<Poll>) {
    forall j, k, p :: 0 <= j <= k < |polls| && p in polls[j].acked ==> p in polls[k].acked
  }

  /**
   * Barrier soundness. If the wait ends well, every proxy that was seen connected
   * at or before the cutover has acknowledged it by the last poll, or was seen
   * with a later connect time (or an unreadable one): an expired presence key is
   * not enough.
   */
  lemma {:induction false} BarrierSound(scan: seq<(string, Presence)>, polls: seq<Poll>, started: int, k: nat, i: nat)
    requires 0 <= started && Growing(polls)
    requires k < |polls| && QuietAt(polls[k], scan, started)
    requires i < |scan| && Outdated(scan[i].1, started)
    ensures || scan[i].0 in polls[|polls| - 1].acked
            || Seen(polls[k], scan[i].0) == Unreadable
            || (Seen(polls[k], scan[i].0).Connected? && Seen(polls[k], scan[i].0).at > started)
  {
    assert Settled(polls[k], scan[i].0, started);
  }

  // ---------------------------------------------------------------------
  // The service
  // ---------------------------------------------------------------------

  datatype WeightResult = InvalidWeight | Updated | NotFound

  datatype CutoverResult = NoEndpoint | Quiesced | TimedOut

  /** No other model's entry differs. */
  ghost predicate OthersKept(es: Entries, es': Entries, model: string) {
    && (forall m :: m != model ==> (m in es' <==> m in es))
    && (forall m :: m != model && m in es' ==> es'[m] == es[m])
  }

  /** Endpoint i is the first at the address. */
  predicate FirstIs(eps: seq<Endpoint>, a: Address, i: int) {
    0 <= i < |eps| && AddressOf(eps[i]) == a && forall j :: 0 <= j < i ==> AddressOf(eps[j]) != a
  }

  class Service {
    var entries: Entries

    constructor ()
      ensures entries == map[]
    {
      entries := map[];
    }

    method SetModelState(model: string, state: RoutingState, protocol: Option<string>)
      modifies this
      ensures entries == After(old(entries), Operation.SetState(model, state, protocol))
      ensures model in entries && entries[model].state == state
      ensures entries[model].protocol == if protocol.Some? then protocol.value else "openai"
      ensures entries[model].endpoints == if model in old(entries) then old(entries)[model].endpoints else []
      ensures OthersKept(old(entries), entries, model)
    {
      var endpoints := [];
      if model in entries {
        endpoints := entries[model].endpoints;
      }
      entries := entries[model := Entry(state, ProtocolOr(protocol), endpoints)];
    }

    method RemoveEntry(model: string)
      modifies this
      ensures model !in entries && OthersKept(old(entries), entries, model)
      ensures entries == After(old(entries), Operation.RemoveModel(model))
    {
      entries := entries - {model};
    }

    method AddEndpoint(model: string, endpoint: Endpoint, protocol: Option<string>)
      modifies this
      ensures entries == After(old(entries), Add(model, endpoint, protocol))
      ensures model in entries && entries[model].endpoints != []
      ensures entries[model].state == if model in old(entries) then old(entries)[model].state else RStarting
      ensures entries[model].protocol == if protocol.Some? then protocol.value else "openai"
      ensures entries[model].endpoints[|entries[model].endpoints| - 1] == endpoint
      ensures forall e :: e in entries[model].endpoints && e != endpoint ==>
                model in old(entries) && e in old(entries)[model].endpoints
      ensures model in old(entries) ==> forall e :: e in old(entries)[model].endpoints ==>
                e in entries[model].endpoints || AddressOf(e) == AddressOf(endpoint)
      ensures OthersKept(old(entries), entries, model)
    {
      var state, endpoints := RStarting, [];
      if model in entries {
        state, endpoints := entries[model].state, entries[model].endpoints;
      }
      var filtered := Filtered(endpoints, AddressOf(endpoint));
      entries := entries[model := Entry(state, ProtocolOr(protocol), filtered + [endpoint])];
    }

    method RemoveEndpoint(model: string, host: string, port: int)
      modifies this
      ensures entries == After(old(entries), Operation.Remove(model, (host, port)))
      ensures model in entries <==> model in old(entries)
      ensures model in entries ==>
                && entries[model] == old(entries)[model].(endpoints := entries[model].endpoints)
                && forall e :: e in entries[model].endpoints <==>
                     e in old(entries)[model].endpoints && AddressOf(e) != (host, port)
      ensures OthersKept(old(entries), entries, model)
    {
      if model !in entries { return; }
      var filtered := Filtered(entries[model].endpoints, (host, port));
      entries := entries[model := entries[model].(endpoints := filtered)];
    }

    /** The filtering loop of the scripts. */
    static method Filtered(endpoints: seq<Endpoint>, a: Address) returns (filtered: seq<Endpoint>)
      ensures filtered == Without(endpoints, a)
      ensures forall e :: e in filtered <==> e in endpoints && AddressOf(e) != a
    {
      filtered := [];
      for i := 0 to |endpoints|
        invariant filtered + Without(endpoints[i..], a) == Without(endpoints, a)
      {
        assert endpoints[i..][1..] == endpoints[i + 1..];
        if AddressOf(endpoints[i]) != a {
          filtered := filtered + [endpoints[i]];
        }
      }
      forall e ensures e in filtered <==> e in endpoints && AddressOf(e) != a {
        WithoutMembers(endpoints, a, e);
      }
    }

    /** The search loop of the scripts: the first match, or the length. */
    static method Find(endpoints: seq<Endpoint>, a: Address) returns (i: nat)
      ensures i <= |endpoints|
      ensures i < |endpoints| <==> Contains(endpoints, a)
      ensures Contains(endpoints, a) ==> i == FirstAt(endpoints, a)
    {
      i := 0;
      while i < |endpoints|
        invariant i <= |endpoints|
        invariant forall j :: 0 <= j < i ==> AddressOf(endpoints[j]) != a
      {
        if AddressOf(endpoints[i]) == a { return; }
        i := i + 1;
      }
    }

    method UpdateEndpointHealth(model: string, host: string, port: int, healthy: bool)
      modifies this
      ensures entries == After(old(entries), Operation.SetHealth(model, (host, port), healthy))
      ensures !HasEndpoint(old(entries), model, (host, port)) ==> entries == old(entries)
      ensures HasEndpoint(old(entries), model, (host, port)) ==>
                var eps := old(entries)[model].endpoints;
                exists i :: && FirstIs(eps, (host, port), i)
                            && entries == old(entries)[model := old(entries)[model].(
                                 endpoints := eps[i := eps[i].(healthy := healthy)])]
    {
      if model !in entries { return; }
      var i := Find(entries[model].endpoints, (host, port));
      if i < |entries[model].endpoints| {
        var eps := entries[model].endpoints;
        entries := entries[model := entries[model].(endpoints := eps[i := eps[i].(healthy := healthy)])];
      }
    }

    method UpdateEndpointWeight(model: string, host: string, port: int, weight: int) returns (r: WeightResult)
      modifies this
      ensures r == InvalidWeight <==> !(0 <= weight <= 100)
      ensures r == Updated <==> 0 <= weight <= 100 && HasEndpoint(old(entries), model, (host, port))
      ensures entries == if r == Updated then After(old(entries), Operation.SetWeight(model, (host, port), weight))
                         else old(entries)
      ensures r == Updated ==>
                var eps := old(entries)[model].endpoints;
                exists i :: && FirstIs(eps, (host, port), i)
                            && entries == old(entries)[model := old(entries)[model].(
                                 endpoints := eps[i := eps[i].(weight := weight)])]
    {
      if weight < 0 || weight > 100 { return InvalidWeight; }
      if model !in entries { return NotFound; }
      var i := Find(entries[model].endpoints, (host, port));
      if i == |entries[model].endpoints| { return NotFound; }
      var eps := entries[model].endpoints;
      entries := entries[model := entries[model].(endpoints := eps[i := eps[i].(weight := weight)])];
      r := Updated;
    }

    /**
     * Take the endpoint out of selection and wait for the proxies. `scan` is what
     * the presence scan returned, `polls` what could be observed before the timeout.
     */
    method CutoverEndpointAndWait(model: string, host: string, port: int, started: int,
                                  scan: seq<(string, Presence)>, polls: seq<Poll>) returns (r: CutoverResult)
      requires WellFormed(entries)
      modifies this
      ensures r == NoEndpoint <==> !HasEndpoint(old(entries), model, (host, port))
      ensures r == NoEndpoint ==> entries == old(entries)
      ensures r != NoEndpoint ==>
                && entries == After(old(entries), Operation.SetWeight(model, (host, port), 0))
                && forall e :: e in entries[model].endpoints && AddressOf(e) == (host, port) ==> e.weight == 0
      ensures r == Quiesced <==>
                && HasEndpoint(old(entries), model, (host, port))
                && (NoneServing(scan, started) || exists k :: 0 <= k < |polls| && QuietAt(polls[k], scan, started))
    {
      if model !in entries { return NoEndpoint; }
      var eps := entries[model].endpoints;
      var i := Find(eps, (host, port));
      if i == |eps| { return NoEndpoint; }
      entries := entries[model := entries[model].(endpoints := eps[i := eps[i].(weight := 0)])];
      var required := RequiredProxies(scan, started);
      var passed := AwaitProxies(required, polls, started);
      r := if passed then Quiesced else TimedOut;
      SettledMeansQuiet(required, scan, polls, started);
    }
  }
}
