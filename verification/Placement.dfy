/**
 * The placement pipeline (control-plane/src/services/placement.ts): automatic
 * placement through four filters and a strategy, and the validation of a
 * placement chosen by the caller.
 */
module Placement {
  import opened Options
  import MemoryBudget

  type Device = MemoryBudget.DeviceBudget

  /** Requests with a tensor parallelism below 1 are rejected before placement. */
  type Count = n: nat | n > 0 witness 1

  datatype Request = Request(
    runnerType: string,
    requiredMemory: real,
    deviceType: Option<string>,
    tensorParallel: Count)

  datatype Capability = Capability(runnerType: string, maxTensorParallelism: nat, supported: seq<string>)

  datatype Worker = Worker(id: string, online: bool, capabilities: seq<Capability>, deviceTypes: seq<string>)

  /** A worker's budget as the scheduler sees it. */
  datatype Budget = Budget(devices: seq<Device>, stale: bool)

  type Budgets = map<string, Budget>

  datatype Match = Match(worker: Worker, capability: Capability)

  datatype Candidate = Candidate(workerId: string, devices: seq<Device>, availableMemory: real)

  datatype Placed = Placed(index: nat, kind: string)

  datatype Result = Result(workerId: string, runnerType: string, devices: seq<Placed>)

  // ---------------------------------------------------------------------
  // The filters
  // ---------------------------------------------------------------------

  function PerDevice(q: Request): real
  {
    q.requiredMemory / q.tensorParallel as real
  }

  /** Truthiness of the optional device type: the empty string asks for nothing. */
  predicate Unconstrained(q: Request) {
    q.deviceType.None? || q.deviceType.value == ""
  }

  function Healthy(workers: seq<Worker>): (r: seq<Worker>)
    ensures forall w :: w in r <==> w in workers && w.online
  {
    if workers == [] then []
    else (if workers[0].online then [workers[0]] else []) + Healthy(workers[1..])
  }

  /** The capability that serves the request: the first one of the right runner type. */
  function FirstCapability(caps: seq<Capability>, runnerType: string): (r: Option<Capability>)
    ensures r.Some? ==> r.value in caps && r.value.runnerType == runnerType
    ensures r.None? ==> forall c :: c in caps ==> c.runnerType != runnerType
  {
    if caps == [] then None
    else if caps[0].runnerType == runnerType then Some(caps[0])
    else FirstCapability(caps[1..], runnerType)
  }

  function ByRunnerType(q: Request, workers: seq<Worker>): seq<Match> {
    if workers == [] then []
    else
      var rest := ByRunnerType(q, workers[1..]);
      var cap := FirstCapability(workers[0].capabilities, q.runnerType);
      if cap.Some? then [Match(workers[0], cap.value)] + rest else rest
  }

  predicate FitsHardware(q: Request, c: Match) {
    && q.tensorParallel <= c.capability.maxTensorParallelism
    && exists i :: 0 <= i < |c.worker.deviceTypes|
         && (Unconstrained(q) || c.worker.deviceTypes[i] == q.deviceType.value)
         && c.worker.deviceTypes[i] in c.capability.supported
  }

  function ByHardware(q: Request, ms: seq<Match>): (r: seq<Match>)
    ensures forall m :: m in r <==> m in ms && FitsHardware(q, m)
  {
    if ms == [] then []
    else (if FitsHardware(q, ms[0]) then [ms[0]] else []) + ByHardware(q, ms[1..])
  }

  predicate EligibleDevice(q: Request, cap: Capability, d: Device)
  {
    && d.available >= PerDevice(q)
    && d.kind in cap.supported
    && (Unconstrained(q) || d.kind == q.deviceType.value)
  }

  function EligibleDevices(q: Request, cap: Capability, devices: seq<Device>): (r: seq<Device>)
    ensures forall d :: d in r <==> d in devices && EligibleDevice(q, cap, d)
  {
    if devices == [] then []
    else (if EligibleDevice(q, cap, devices[0]) then [devices[0]] else []) + EligibleDevices(q, cap, devices[1..])
  }

  /** The devices that have the memory, as automatic placement filters them once more. */
  function WithMemory(q: Request, devices: seq<Device>): (r: seq<Device>)
    ensures forall d :: d in r <==> d in devices && d.available >= PerDevice(q)
  {
    if devices == [] then []
    else (if devices[0].available >= PerDevice(q) then [devices[0]] else []) + WithMemory(q, devices[1..])
  }

  function TotalAvailable(devices: seq<Device>): real {
    if devices == [] then 0.0 else devices[0].available + TotalAvailable(devices[1..])
  }

  /** The candidate a match contributes, if its budget is fresh and has enough devices. */
  function CandidateOf(q: Request, m: Match, budgets: Budgets): Option<Candidate> {
    if m.worker.id !in budgets || budgets[m.worker.id].stale then None
    else
      var devices := EligibleDevices(q, m.capability, budgets[m.worker.id].devices);
      if |devices| < q.tensorParallel then None
      else Some(Candidate(m.worker.id, devices, TotalAvailable(devices)))
  }

  function ByCapacity(q: Request, ms: seq<Match>, budgets: Budgets): seq<Candidate> {
    if ms == [] then []
    else
      var rest := ByCapacity(q, ms[1..], budgets);
      var c := CandidateOf(q, ms[0], budgets);
      if c.Some? then [c.value] + rest else rest
  }

  /** Healthy workers with the runner type and the hardware, in order. */
  function Matches(q: Request, workers: seq<Worker>): seq<Match> {
    ByHardware(q, ByRunnerType(q, Healthy(workers)))
  }

  function PlacedAt(devices: seq<Device>): (r: seq<Placed>)
    ensures |r| == |devices|
    ensures forall i :: 0 <= i < |r| ==> r[i] == Placed(devices[i].index, devices[i].kind)
  {
    if devices == [] then [] else [Placed(devices[0].index, devices[0].kind)] + PlacedAt(devices[1..])
  }

  function Indices(placed: seq<Placed>): (r: seq<nat>)
    ensures |r| == |placed| && forall i :: 0 <= i < |r| ==> r[i] == placed[i].index
  {
    if placed == [] then [] else [placed[0].index] + Indices(placed[1..])
  }

  // ---------------------------------------------------------------------
  // Placement chosen by the caller
  // ---------------------------------------------------------------------

  function FindWorker(workers: seq<Worker>, id: string): (r: Option<Worker>)
    ensures r.Some? ==> r.value in workers && r.value.id == id
    ensures r.None? ==> forall w :: w in workers ==> w.id != id
  {
    if workers == [] then None
    else if workers[0].id == id then Some(workers[0])
    else FindWorker(workers[1..], id)
  }

  function FindDevice(devices: seq<Device>, index: nat): (r: Option<Device>)
    ensures r.Some? ==> r.value in devices && r.value.index == index
    ensures r.None? ==> forall d :: d in devices ==> d.index != index
  {
    if devices == [] then None
    else if devices[0].index == index then Some(devices[0])
    else FindDevice(devices[1..], index)
  }

  /** The per-device check of a fixed placement: here an empty device type is compared, not ignored. */
  predicate AcceptableDevice(q: Request, cap: Capability, d: Device) {
    && d.available >= PerDevice(q)
    && (q.deviceType.Some? ==> d.kind == q.deviceType.value)
    && d.kind in cap.supported
  }

  predicate Acceptable(q: Request, cap: Capability, b: Budget, index: nat) {
    var d := FindDevice(b.devices, index);
    d.Some? && AcceptableDevice(q, cap, d.value)
  }

  function Chosen(b: Budget, indices: seq<nat>): seq<Placed>
    requires forall i :: 0 <= i < |indices| ==> FindDevice(b.devices, indices[i]).Some?
  {
    if indices == [] then []
    else
      var d := FindDevice(b.devices, indices[0]).value;
      [Placed(d.index, d.kind)] + Chosen(b, indices[1..])
  }

  function PlaceFixed(
      q: Request, workerId: string, indices: seq<nat>, workers: seq<Worker>, budgets: Budgets): Option<Result> {
    var worker := FindWorker(workers, workerId);
    if |indices| != q.tensorParallel || worker.None? || !worker.value.online then None
    else
      var cap := FirstCapability(worker.value.capabilities, q.runnerType);
      if cap.None? || !FitsHardware(q, Match(worker.value, cap.value)) then None
      else if workerId !in budgets || budgets[workerId].stale then None
      else if exists i :: 0 <= i < |indices| && !Acceptable(q, cap.value, budgets[workerId], indices[i]) then None
      else Some(Result(workerId, q.runnerType, Chosen(budgets[workerId], indices)))
  }

  // ---------------------------------------------------------------------
  // Automatic placement
  // ---------------------------------------------------------------------

  /** MostAvailableCapacityStrategy: the first candidate with the most memory. */
  method Select(candidates: seq<Candidate>) returns (best: Candidate)
    requires candidates != []
    ensures exists i :: 0 <= i < |candidates| && IsBest(candidates, i) && best == candidates[i]
  {
    var b := 0;
    for i := 1 to |candidates|
      invariant 0 <= b < i
      invariant forall j :: 0 <= j < i ==> candidates[j].availableMemory <= candidates[b].availableMemory
      invariant forall j :: 0 <= j < b ==> candidates[j].availableMemory < candidates[b].availableMemory
    {
      if candidates[i].availableMemory > candidates[b].availableMemory {
        b := i;
      }
    }
    assert IsBest(candidates, b);
    best := candidates[b];
  }

  ghost predicate IsBest(candidates: seq<Candidate>, i: nat)
    requires i < |candidates|
  {
    && (forall j :: 0 <= j < |candidates| ==> candidates[j].availableMemory <= candidates[i].availableMemory)
    && (forall j :: 0 <= j < i ==> candidates[j].availableMemory < candidates[i].availableMemory)
  }

  method FilterByRunnerType(q: Request, workers: seq<Worker>) returns (results: seq<Match>)
    ensures results == ByRunnerType(q, workers)
  {
    results := [];
    for i := 0 to |workers|
      invariant results + ByRunnerType(q, workers[i..]) == ByRunnerType(q, workers)
    {
      assert workers[i..][1..] == workers[i + 1..];
      var caps := workers[i].capabilities;
      var j := 0;
      while j < |caps|
        invariant 0 <= j <= |caps|
        invariant FirstCapability(caps, q.runnerType) == FirstCapability(caps[j..], q.runnerType)
      {
        assert caps[j..][1..] == caps[j + 1..];
        if caps[j].runnerType == q.runnerType { break; }
        j := j + 1;
      }
      if j < |caps| {
        results := results + [Match(workers[i], caps[j])];
      }
    }
  }

  method FilterByCapacity(q: Request, ms: seq<Match>, budgets: Budgets) returns (results: seq<Candidate>)
    ensures results == ByCapacity(q, ms, budgets)
  {
    results := [];
    for i := 0 to |ms|
      invariant results + ByCapacity(q, ms[i..], budgets) == ByCapacity(q, ms, budgets)
    {
      assert ms[i..][1..] == ms[i + 1..];
      var id := ms[i].worker.id;
      if id in budgets && !budgets[id].stale {
        var devices := EligibleDevices(q, ms[i].capability, budgets[id].devices);
        if |devices| >= q.tensorParallel {
          results := results + [Candidate(id, devices, TotalAvailable(devices))];
        }
      }
    }
  }

  /** The placement on a candidate: its first devices that have the memory. */
  function ResultOf(q: Request, c: Candidate): Result {
    var fit := WithMemory(q, c.devices);
    Result(c.workerId, q.runnerType,
           PlacedAt(if |fit| <= q.tensorParallel then fit else fit[..q.tensorParallel]))
  }

  function Candidates(q: Request, workers: seq<Worker>, budgets: Budgets): seq<Candidate> {
    ByCapacity(q, Matches(q, workers), budgets)
  }

  /** What automatic placement answers. */
  ghost predicate Answers(q: Request, workers: seq<Worker>, budgets: Budgets, r: Option<Result>) {
    var cs := Candidates(q, workers, budgets);
    if r.None? then cs == []
    else exists i :: 0 <= i < |cs| && IsBest(cs, i) && r.value == ResultOf(q, cs[i])
  }

  method Place(q: Request, workers: seq<Worker>, budgets: Budgets) returns (r: Option<Result>)
    ensures Answers(q, workers, budgets, r)
  {
    var healthy := Healthy(workers);
    if healthy == [] { return None; }
    var typed := FilterByRunnerType(q, healthy);
    if typed == [] { return None; }
    var fitting := ByHardware(q, typed);
    if fitting == [] { return None; }
    var candidates := FilterByCapacity(q, fitting, budgets);
    if candidates == [] { return None; }
    var selected := Select(candidates);
    r := Some(ResultOf(q, selected));
    assert candidates == Candidates(q, workers, budgets);
  }

  function EligibleWorkerIds(q: Request, workers: seq<Worker>): set<string> {
    set m | m in Matches(q, workers) :: m.worker.id
  }

  // ---------------------------------------------------------------------
  // Automatic and fixed placement agree
  // ---------------------------------------------------------------------

  predicate UniqueWorkers(workers: seq<Worker>) {
    forall i, j :: 0 <= i < j < |workers| ==> workers[i].id != workers[j].id
  }

  predicate DistinctBudgets(budgets: Budgets) {
    forall w :: w in budgets ==> MemoryBudget.DistinctDevices(budgets[w].devices)
  }

  predicate DistinctNats(s: seq<nat>) {
    forall i, j :: 0 <= i < j < |s| ==> s[i] != s[j]
  }

  lemma {:induction false} RunnerTypeMembers(q: Request, workers: seq<Worker>, m: Match)
    ensures m in ByRunnerType(q, workers) <==>
              m.worker in workers && FirstCapability(m.worker.capabilities, q.runnerType) == Some(m.capability)
  {
    if workers != [] {
      RunnerTypeMembers(q, workers[1..], m);
      assert workers == [workers[0]] + workers[1..];
    }
  }

  lemma {:induction false} CapacityMembers(q: Request, ms: seq<Match>, budgets: Budgets, c: Candidate)
    ensures c in ByCapacity(q, ms, budgets) <==> exists m :: m in ms && CandidateOf(q, m, budgets) == Some(c)
  {
    if ms != [] {
      CapacityMembers(q, ms[1..], budgets, c);
      assert ms == [ms[0]] + ms[1..];
    }
  }

  lemma {:induction false} WorkerFound(workers: seq<Worker>, w: Worker)
    requires UniqueWorkers(workers) && w in workers
    ensures FindWorker(workers, w.id) == Some(w)
  {
    var i :| 0 <= i < |workers| && workers[i] == w;
    var found := FindWorker(workers, w.id);
    var j :| 0 <= j < |workers| && workers[j] == found.value;
    assert i == j;
  }

  lemma {:induction false} DeviceFound(devices: seq<Device>, d: Device)
    requires MemoryBudget.DistinctDevices(devices) && d in devices
    ensures FindDevice(devices, d.index) == Some(d)
  {
    var i :| 0 <= i < |devices| && devices[i] == d;
    var found := FindDevice(devices, d.index);
    var j :| 0 <= j < |devices| && devices[j] == found.value;
    assert i == j;
  }

  lemma {:induction false} EligibleDistinct(q: Request, cap: Capability, devices: seq<Device>)
    requires MemoryBudget.DistinctDevices(devices)
    ensures MemoryBudget.DistinctDevices(EligibleDevices(q, cap, devices))
  {
    if devices != [] {
      var tail := devices[1..];
      assert forall i :: 0 <= i < |tail| ==> tail[i] == devices[i + 1];
      EligibleDistinct(q, cap, tail);
      forall d | d in EligibleDevices(q, cap, tail) ensures d.index != devices[0].index {
        var i :| 0 <= i < |tail| && tail[i] == d;
        assert devices[0].index != devices[i + 1].index;
      }
    }
  }

  lemma {:induction false} AllHaveMemory(q: Request, devices: seq<Device>)
    requires forall d :: d in devices ==> d.available >= PerDevice(q)
    ensures WithMemory(q, devices) == devices
  {
    if devices != [] {
      AllHaveMemory(q, devices[1..]);
      assert devices == [devices[0]] + devices[1..];
    }
  }

  lemma {:induction false} ChosenIs(b: Budget, devices: seq<Device>)
    requires MemoryBudget.DistinctDevices(b.devices)
    requires forall d :: d in devices ==> d in b.devices
    ensures forall i :: 0 <= i < |devices| ==> FindDevice(b.devices, Indices(PlacedAt(devices))[i]) == Some(devices[i])
    ensures Chosen(b, Indices(PlacedAt(devices))) == PlacedAt(devices)
  {
    forall i | 0 <= i < |devices| ensures FindDevice(b.devices, Indices(PlacedAt(devices))[i]) == Some(devices[i]) {
      assert devices[i] in devices;
      DeviceFound(b.devices, devices[i]);
    }
    if devices != [] {
      ChosenIs(b, devices[1..]);
      var all := Indices(PlacedAt(devices));
      assert PlacedAt(devices)[1..] == PlacedAt(devices[1..]);
      assert all[1..] == Indices(PlacedAt(devices[1..]));
    }
  }

  /** The devices of a candidate's placement. */
  function Picked(q: Request, c: Candidate): seq<Device>
    requires q.tensorParallel <= |c.devices|
  {
    c.devices[..q.tensorParallel]
  }

  lemma {:induction false} CandidateMatch(
      q: Request, workers: seq<Worker>, budgets: Budgets, c: Candidate) returns (m: Match)
    requires c in Candidates(q, workers, budgets)
    ensures m in Matches(q, workers) && CandidateOf(q, m, budgets) == Some(c)
    ensures m.worker in workers && m.worker.online
    ensures FirstCapability(m.worker.capabilities, q.runnerType) == Some(m.capability) && FitsHardware(q, m)
  {
    CapacityMembers(q, Matches(q, workers), budgets, c);
    m :| m in Matches(q, workers) && CandidateOf(q, m, budgets) == Some(c);
    RunnerTypeMembers(q, Healthy(workers), m);
  }

  /** Where a candidate comes from, and what its placement is. */
  lemma {:induction false} CandidateOrigin(
      q: Request, workers: seq<Worker>, budgets: Budgets, c: Candidate) returns (m: Match)
    requires c in Candidates(q, workers, budgets)
    ensures m in Matches(q, workers) && m.worker in workers && m.worker.online && m.worker.id == c.workerId
    ensures FirstCapability(m.worker.capabilities, q.runnerType) == Some(m.capability) && FitsHardware(q, m)
    ensures c.workerId in budgets && !budgets[c.workerId].stale
    ensures c.devices == EligibleDevices(q, m.capability, budgets[c.workerId].devices)
    ensures q.tensorParallel <= |c.devices|
    ensures ResultOf(q, c) == Result(c.workerId, q.runnerType, PlacedAt(Picked(q, c)))
  {
    m := CandidateMatch(q, workers, budgets, c);
    AllHaveMemory(q, c.devices);
  }

  /** The fixed check accepts any right number of eligible devices of a matching worker. */
  lemma {:induction false} EligibleAccepted(
      q: Request, workers: seq<Worker>, budgets: Budgets, m: Match, picked: seq<Device>)
    requires q.deviceType != Some("") && |picked| == q.tensorParallel
    requires FindWorker(workers, m.worker.id) == Some(m.worker) && m.worker.online
    requires FirstCapability(m.worker.capabilities, q.runnerType) == Some(m.capability) && FitsHardware(q, m)
    requires m.worker.id in budgets && !budgets[m.worker.id].stale
    requires MemoryBudget.DistinctDevices(budgets[m.worker.id].devices)
    requires forall d :: d in picked ==> d in budgets[m.worker.id].devices && EligibleDevice(q, m.capability, d)
    ensures PlaceFixed(q, m.worker.id, Indices(PlacedAt(picked)), workers, budgets)
         == Some(Result(m.worker.id, q.runnerType, PlacedAt(picked)))
  {
    var b := budgets[m.worker.id];
    ChosenIs(b, picked);
    var indices := Indices(PlacedAt(picked));
    forall j | 0 <= j < |indices| ensures Acceptable(q, m.capability, b, indices[j]) {
      assert picked[j] in picked;
    }
  }

  lemma PrefixDistinct(devices: seq<Device>, n: nat)
    requires MemoryBudget.DistinctDevices(devices) && n <= |devices|
    ensures DistinctNats(Indices(PlacedAt(devices[..n])))
  {}

  lemma {:induction false} CandidateSound(q: Request, workers: seq<Worker>, budgets: Budgets, c: Candidate, r: Result)
    requires UniqueWorkers(workers) && DistinctBudgets(budgets) && q.deviceType != Some("")
    requires c in Candidates(q, workers, budgets) && r == ResultOf(q, c)
    ensures PlaceFixed(q, r.workerId, Indices(r.devices), workers, budgets) == Some(r)
    ensures r.workerId in EligibleWorkerIds(q, workers)
    ensures DistinctNats(Indices(r.devices)) && |r.devices| == q.tensorParallel
  {
    var m := CandidateOrigin(q, workers, budgets, c);
    var devices := budgets[c.workerId].devices;
    var picked := Picked(q, c);
    assert forall d :: d in picked ==> d in c.devices;
    assert r == Result(m.worker.id, q.runnerType, PlacedAt(picked));
    WorkerFound(workers, m.worker);
    EligibleAccepted(q, workers, budgets, m, picked);
    EligibleDistinct(q, m.capability, devices);
    PrefixDistinct(c.devices, q.tensorParallel);
  }

  /** Any automatic placement passes the fixed check unchanged, on an eligible worker. */
  lemma {:induction false} PlacementSound(q: Request, workers: seq<Worker>, budgets: Budgets, r: Result)
    requires UniqueWorkers(workers) && DistinctBudgets(budgets) && q.deviceType != Some("")
    requires Answers(q, workers, budgets, Some(r))
    ensures PlaceFixed(q, r.workerId, Indices(r.devices), workers, budgets) == Some(r)
    ensures r.workerId in EligibleWorkerIds(q, workers)
    ensures DistinctNats(Indices(r.devices)) && |r.devices| == q.tensorParallel
  {
    var cs := Candidates(q, workers, budgets);
    var i :| 0 <= i < |cs| && IsBest(cs, i) && r == ResultOf(q, cs[i]);
    CandidateSound(q, workers, budgets, cs[i], r);
  }

  function Elements(s: seq<nat>): (r: set<nat>)
    ensures forall x :: x in r <==> x in s
  {
    if s == [] then {} else {s[0]} + Elements(s[1..])
  }

  function IndexSet(devices: seq<Device>): (r: set<nat>)
    ensures |r| <= |devices|
    ensures forall d :: d in devices ==> d.index in r
  {
    if devices == [] then {} else {devices[0].index} + IndexSet(devices[1..])
  }

  lemma {:induction false} DistinctCard(s: seq<nat>)
    requires DistinctNats(s)
    ensures |Elements(s)| == |s|
  {
    if s != [] {
      var tail := s[1..];
      assert forall i :: 0 <= i < |tail| ==> tail[i] == s[i + 1];
      DistinctCard(tail);
      assert s[0] !in tail;
    }
  }

  lemma SubsetCard(a: set<nat>, b: set<nat>)
    requires a <= b
    ensures |a| <= |b|
  {
    assert b == a + (b - a);
  }

  /** If any fixed placement on distinct devices is acceptable, automatic placement finds one. */
  lemma {:induction false} PlacementComplete(
      q: Request, workers: seq<Worker>, budgets: Budgets, workerId: string, indices: seq<nat>)
    requires q.deviceType != Some("") && DistinctNats(indices)
    requires PlaceFixed(q, workerId, indices, workers, budgets).Some?
    ensures Candidates(q, workers, budgets) != []
  {
    var w := FindWorker(workers, workerId).value;
    var cap := FirstCapability(w.capabilities, q.runnerType).value;
    var m := Match(w, cap);
    RunnerTypeMembers(q, Healthy(workers), m);
    assert m in Matches(q, workers);
    var b := budgets[workerId];
    var devices := EligibleDevices(q, cap, b.devices);
    var wanted, offered := Elements(indices), IndexSet(devices);
    forall x | x in wanted ensures x in offered {
      var i :| 0 <= i < |indices| && indices[i] == x;
      assert Acceptable(q, cap, b, indices[i]);
      var d := FindDevice(b.devices, x).value;
      assert d in devices;
    }
    DistinctCard(indices);
    SubsetCard(wanted, offered);
    var c := CandidateOf(q, m, budgets);
    CapacityMembers(q, Matches(q, workers), budgets, c.value);
  }

  /** No fixed placement on distinct devices would be accepted. */
  ghost predicate NothingFits(q: Request, workers: seq<Worker>, budgets: Budgets) {
    forall w, indices :: DistinctNats(indices) ==> PlaceFixed(q, w, indices, workers, budgets).None?
  }

  /** A fixed placement compares an empty device type with the device's, so it always fails. */
  lemma {:induction false} EmptyTypeNeverFixed(q: Request, workers: seq<Worker>, budgets: Budgets)
    requires q.deviceType == Some("")
    requires forall w, i :: w in budgets && 0 <= i < |budgets[w].devices| ==> budgets[w].devices[i].kind != ""
    ensures NothingFits(q, workers, budgets)
  {
    forall w, indices: seq<nat> | DistinctNats(indices) ensures PlaceFixed(q, w, indices, workers, budgets).None? {
      if |indices| == q.tensorParallel && w in budgets {
        var d := FindDevice(budgets[w].devices, indices[0]);
        assert d.Some? ==> exists i :: 0 <= i < |budgets[w].devices| && budgets[w].devices[i] == d.value;
      }
    }
  }

  /** The request as automatic placement reads it: an empty device type asks for nothing. */
  function Normal(q: Request): Request {
    if Unconstrained(q) then q.(deviceType := None) else q
  }

  lemma {:induction false} NormalDevices(q: Request, cap: Capability, devices: seq<Device>)
    ensures EligibleDevices(Normal(q), cap, devices) == EligibleDevices(q, cap, devices)
  {
    if devices != [] {
      NormalDevices(q, cap, devices[1..]);
    }
  }

  lemma {:induction false} NormalRunnerType(q: Request, workers: seq<Worker>)
    ensures ByRunnerType(Normal(q), workers) == ByRunnerType(q, workers)
  {
    if workers != [] {
      NormalRunnerType(q, workers[1..]);
    }
  }

  lemma {:induction false} NormalHardware(q: Request, ms: seq<Match>)
    ensures ByHardware(Normal(q), ms) == ByHardware(q, ms)
  {
    if ms != [] {
      NormalHardware(q, ms[1..]);
      assert FitsHardware(Normal(q), ms[0]) <==> FitsHardware(q, ms[0]);
    }
  }

  lemma {:induction false} NormalCapacity(q: Request, ms: seq<Match>, budgets: Budgets)
    ensures ByCapacity(Normal(q), ms, budgets) == ByCapacity(q, ms, budgets)
  {
    if ms != [] {
      NormalCapacity(q, ms[1..], budgets);
      if ms[0].worker.id in budgets {
        NormalDevices(q, ms[0].capability, budgets[ms[0].worker.id].devices);
      }
    }
  }

  lemma {:induction false} NormalCandidates(q: Request, workers: seq<Worker>, budgets: Budgets)
    ensures Candidates(Normal(q), workers, budgets) == Candidates(q, workers, budgets)
  {
    NormalRunnerType(q, Healthy(workers));
    NormalHardware(q, ByRunnerType(q, Healthy(workers)));
    NormalCapacity(q, Matches(q, workers), budgets);
  }

  lemma {:induction false} NormalMemory(q: Request, devices: seq<Device>)
    ensures WithMemory(Normal(q), devices) == WithMemory(q, devices)
  {
    if devices != [] {
      NormalMemory(q, devices[1..]);
    }
  }

  /** Automatic placement cannot tell an empty device type from an absent one. */
  lemma {:induction false} NormalAnswers(q: Request, workers: seq<Worker>, budgets: Budgets, r: Option<Result>)
    ensures Answers(Normal(q), workers, budgets, r) <==> Answers(q, workers, budgets, r)
  {
    NormalCandidates(q, workers, budgets);
    forall c ensures ResultOf(Normal(q), c) == ResultOf(q, c) {
      NormalMemory(q, c.devices);
    }
  }

  /**
   * Soundness and completeness, exactly, for every request: automatic placement
   * answers null just when no fixed placement of the request as it reads it
   * would be accepted. That is the request itself unless its device type is the
   * empty string, which a fixed placement always refuses.
   */
  lemma {:induction false} PlacementExact(q: Request, workers: seq<Worker>, budgets: Budgets, r: Option<Result>)
    requires UniqueWorkers(workers) && DistinctBudgets(budgets)
    requires Answers(q, workers, budgets, r)
    ensures r.None? <==> NothingFits(Normal(q), workers, budgets)
    ensures q.deviceType != Some("") ==> Normal(q) == q
  {
    var n := Normal(q);
    NormalAnswers(q, workers, budgets, r);
    if r.None? {
      forall w, indices: seq<nat> | DistinctNats(indices) ensures PlaceFixed(n, w, indices, workers, budgets).None? {
        if PlaceFixed(n, w, indices, workers, budgets).Some? {
          PlacementComplete(n, workers, budgets, w, indices);
        }
      }
    } else {
      PlacementSound(n, workers, budgets, r.value);
      assert !NothingFits(n, workers, budgets);
    }
  }
}
