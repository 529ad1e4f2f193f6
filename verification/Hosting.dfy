/**
 * What placement decides, said over the workers and devices themselves: a device
 * hosts its share of a request when as many such devices as the tensor parallelism
 * have the memory of the whole request together. Placement and the reservations that follow it are
 * shown to mean exactly that.
 */
module Hosting {
  import opened Options
  import opened Placement
  import MB = MemoryBudget
  import opened Holds
  import opened Overbooking

  // ---------------------------------------------------------------------
  // Shares
  // ---------------------------------------------------------------------

  /** What n devices with this much memory have together. */
  function Together(x: real, n: nat): real {
    if n == 0 then 0.0 else Together(x, n - 1) + x
  }

  lemma {:induction false} TogetherIsProduct(x: real, n: nat)
    ensures Together(x, n) == x * n as real
  {
    if n > 0 {
      TogetherIsProduct(x, n - 1);
      assert x * n as real == x * (n - 1) as real + x;
    }
  }

  lemma {:induction false} TogetherMonotone(x: real, y: real, n: nat)
    requires n > 0
    ensures x >= y <==> Together(x, n) >= Together(y, n)
  {
    if n > 1 {
      TogetherMonotone(x, y, n - 1);
    }
  }

  /** The shares of a request make up the whole. */
  lemma {:induction false} SharesMakeWhole(q: Request)
    ensures Together(PerDevice(q), q.tensorParallel) == q.requiredMemory
  {
    TogetherIsProduct(PerDevice(q), q.tensorParallel);
  }

  /** A device has its share exactly when as many such devices have the whole. */
  lemma {:induction false} ShareFits(q: Request, free: real)
    ensures free >= PerDevice(q) <==> Together(free, q.tensorParallel) >= q.requiredMemory
  {
    SharesMakeWhole(q);
    TogetherMonotone(free, PerDevice(q), q.tensorParallel);
  }

  // ---------------------------------------------------------------------
  // Who can host
  // ---------------------------------------------------------------------

  /** The device type asked for, if any; an empty one asks for nothing. */
  predicate TypeFits(q: Request, kind: string) {
    q.deviceType == None || q.deviceType == Some("") || q.deviceType == Some(kind)
  }

  predicate Hosts(q: Request, cap: Capability, d: Device) {
    Together(d.available, q.tensorParallel) >= q.requiredMemory && d.kind in cap.supported && TypeFits(q, d.kind)
  }

  /** The devices that can host a share, in order. */
  function HostsOf(q: Request, cap: Capability, devices: seq<Device>): seq<Device> {
    if devices == [] then []
    else
      var d := devices[|devices| - 1];
      HostsOf(q, cap, devices[..|devices| - 1]) + if Hosts(q, cap, d) then [d] else []
  }

  function FreeMemory(devices: seq<Device>): real {
    if devices == [] then 0.0 else FreeMemory(devices[..|devices| - 1]) + devices[|devices| - 1].available
  }

  /** The capability is the worker's first of the runner type. */
  predicate FirstOfTypeAt(caps: seq<Capability>, runnerType: string, i: nat) {
    i < |caps| && caps[i].runnerType == runnerType && forall j :: 0 <= j < i ==> caps[j].runnerType != runnerType
  }

  predicate FirstOfType(caps: seq<Capability>, runnerType: string, cap: Capability) {
    exists i :: 0 <= i < |caps| && FirstOfTypeAt(caps, runnerType, i) && caps[i] == cap
  }

  /** An online worker that runs the type, in parallel enough, on a device type it has. */
  predicate Runs(q: Request, w: Worker, cap: Capability) {
    && w.online && FirstOfType(w.capabilities, q.runnerType, cap)
    && q.tensorParallel <= cap.maxTensorParallelism
    && exists i :: 0 <= i < |w.deviceTypes| && w.deviceTypes[i] in cap.supported && TypeFits(q, w.deviceTypes[i])
  }

  predicate Reported(budgets: Budgets, id: string) {
    id in budgets && !budgets[id].stale
  }

  /** The worker can take the request. */
  predicate Able(q: Request, w: Worker, cap: Capability, budgets: Budgets) {
    && Runs(q, w, cap) && Reported(budgets, w.id)
    && |HostsOf(q, cap, budgets[w.id].devices)| >= q.tensorParallel
  }

  // ---------------------------------------------------------------------
  // The filters mean that
  // ---------------------------------------------------------------------

  lemma FirstCapabilityIsNext(caps: seq<Capability>, runnerType: string, i: nat)
    requires caps != [] && caps[0].runnerType != runnerType
    ensures FirstOfTypeAt(caps, runnerType, i + 1) <==> FirstOfTypeAt(caps[1..], runnerType, i)
  {
    assert forall j :: 0 < j < |caps| ==> caps[j] == caps[1..][j - 1];
  }

  lemma {:induction false} FirstCapabilityIs(caps: seq<Capability>, runnerType: string, cap: Capability)
    ensures FirstCapability(caps, runnerType) == Some(cap) <==> FirstOfType(caps, runnerType, cap)
  {
    if caps != [] && caps[0].runnerType == runnerType {
      assert FirstOfTypeAt(caps, runnerType, 0);
    } else if caps != [] {
      FirstCapabilityIs(caps[1..], runnerType, cap);
      forall i: nat ensures FirstOfTypeAt(caps, runnerType, i + 1) <==> FirstOfTypeAt(caps[1..], runnerType, i) {
        FirstCapabilityIsNext(caps, runnerType, i);
      }
      if FirstOfType(caps, runnerType, cap) {
        var i :| 0 <= i < |caps| && FirstOfTypeAt(caps, runnerType, i) && caps[i] == cap;
        assert FirstOfTypeAt(caps[1..], runnerType, i - 1) && caps[1..][i - 1] == cap;
      }
      if FirstOfType(caps[1..], runnerType, cap) {
        var i :| 0 <= i < |caps| - 1 && FirstOfTypeAt(caps[1..], runnerType, i) && caps[1..][i] == cap;
        assert FirstOfTypeAt(caps, runnerType, i + 1) && caps[i + 1] == cap;
      }
    }
  }

  lemma DeviceHosts(q: Request, cap: Capability, d: Device)
    ensures EligibleDevice(q, cap, d) <==> Hosts(q, cap, d)
  {
    ShareFits(q, d.available);
  }

  lemma {:induction false} HostsOfFirst(q: Request, cap: Capability, devices: seq<Device>)
    requires devices != []
    ensures HostsOf(q, cap, devices)
         == (if Hosts(q, cap, devices[0]) then [devices[0]] else []) + HostsOf(q, cap, devices[1..])
  {
    var rest, last := devices[..|devices| - 1], devices[|devices| - 1];
    if |devices| > 1 {
      HostsOfFirst(q, cap, rest);
      assert devices[1..][..|devices| - 2] == rest[1..];
    }
  }

  lemma {:induction false} EligibleHosts(q: Request, cap: Capability, devices: seq<Device>)
    ensures EligibleDevices(q, cap, devices) == HostsOf(q, cap, devices)
  {
    if devices != [] {
      EligibleHosts(q, cap, devices[1..]);
      DeviceHosts(q, cap, devices[0]);
      HostsOfFirst(q, cap, devices);
    }
  }

  lemma {:induction false} FreeMemoryFirst(devices: seq<Device>)
    requires devices != []
    ensures FreeMemory(devices) == devices[0].available + FreeMemory(devices[1..])
  {
    if |devices| > 1 {
      FreeMemoryFirst(devices[..|devices| - 1]);
      assert devices[1..][..|devices| - 2] == devices[..|devices| - 1][1..];
    }
  }

  lemma {:induction false} TotalIsFreeMemory(devices: seq<Device>)
    ensures TotalAvailable(devices) == FreeMemory(devices)
  {
    if devices != [] {
      TotalIsFreeMemory(devices[1..]);
      FreeMemoryFirst(devices);
    }
  }

  /** A match on a fresh budget with enough hosts. */
  lemma {:induction false} MatchRuns(q: Request, workers: seq<Worker>, m: Match)
    ensures m in Matches(q, workers) <==> m.worker in workers && Runs(q, m.worker, m.capability)
  {
    RunnerTypeMembers(q, Healthy(workers), m);
    FirstCapabilityIs(m.worker.capabilities, q.runnerType, m.capability);
  }

  lemma {:induction false} CandidateIsAble(q: Request, w: Worker, cap: Capability, budgets: Budgets)
    requires Runs(q, w, cap)
    ensures var c := CandidateOf(q, Match(w, cap), budgets);
            && (c.Some? <==> Able(q, w, cap, budgets))
            && (c.Some? ==>
                  var hosts := HostsOf(q, cap, budgets[w.id].devices);
                  c.value == Candidate(w.id, hosts, FreeMemory(hosts)))
  {
    if Reported(budgets, w.id) {
      EligibleHosts(q, cap, budgets[w.id].devices);
      TotalIsFreeMemory(HostsOf(q, cap, budgets[w.id].devices));
    }
  }

  // ---------------------------------------------------------------------
  // Automatic placement
  // ---------------------------------------------------------------------

  /** The request is placed on the first devices of this worker that can host a share. */
  predicate PlacedOn(q: Request, w: Worker, cap: Capability, budgets: Budgets, r: Result)
    requires Able(q, w, cap, budgets)
  {
    var hosts := HostsOf(q, cap, budgets[w.id].devices);
    && r.workerId == w.id && r.runnerType == q.runnerType && |r.devices| == q.tensorParallel
    && forall i :: 0 <= i < |r.devices| ==> r.devices[i] == Placed(hosts[i].index, hosts[i].kind)
  }

  /** No worker that could take the request has more free memory on devices that can host a share. */
  ghost predicate MostFree(q: Request, workers: seq<Worker>, budgets: Budgets, free: real) {
    forall w, cap :: w in workers && Able(q, w, cap, budgets) ==>
      FreeMemory(HostsOf(q, cap, budgets[w.id].devices)) <= free
  }

  lemma {:induction false} CandidateFrom(q: Request, workers: seq<Worker>, budgets: Budgets, c: Candidate)
    returns (w: Worker, cap: Capability)
    requires c in Candidates(q, workers, budgets)
    ensures w in workers && Able(q, w, cap, budgets)
    ensures var hosts := HostsOf(q, cap, budgets[w.id].devices);
            c == Candidate(w.id, hosts, FreeMemory(hosts))
  {
    CapacityMembers(q, Matches(q, workers), budgets, c);
    var m :| m in Matches(q, workers) && CandidateOf(q, m, budgets) == Some(c);
    w, cap := m.worker, m.capability;
    MatchRuns(q, workers, m);
    CandidateIsAble(q, w, cap, budgets);
  }

  lemma {:induction false} AbleIsCandidate(
      q: Request, workers: seq<Worker>, budgets: Budgets, w: Worker, cap: Capability)
    requires w in workers && Able(q, w, cap, budgets)
    ensures var hosts := HostsOf(q, cap, budgets[w.id].devices);
            Candidate(w.id, hosts, FreeMemory(hosts)) in Candidates(q, workers, budgets)
  {
    var hosts := HostsOf(q, cap, budgets[w.id].devices);
    MatchRuns(q, workers, Match(w, cap));
    CandidateIsAble(q, w, cap, budgets);
    CapacityMembers(q, Matches(q, workers), budgets, Candidate(w.id, hosts, FreeMemory(hosts)));
  }

  /** Null is answered if and only if no worker can take the request. */
  lemma {:induction false} NullExactly(q: Request, workers: seq<Worker>, budgets: Budgets, r: Option<Result>)
    requires Answers(q, workers, budgets, r)
    ensures r.None? <==> forall w, cap :: w in workers ==> !Able(q, w, cap, budgets)
  {
    var cs := Candidates(q, workers, budgets);
    if cs != [] {
      var w, cap := CandidateFrom(q, workers, budgets, cs[0]);
    } else {
      forall w, cap | w in workers ensures !Able(q, w, cap, budgets) {
        if Able(q, w, cap, budgets) { AbleIsCandidate(q, workers, budgets, w, cap); }
      }
    }
  }

  lemma {:induction false} BestHasMost(q: Request, workers: seq<Worker>, budgets: Budgets, i: nat)
    requires i < |Candidates(q, workers, budgets)| && IsBest(Candidates(q, workers, budgets), i)
    ensures MostFree(q, workers, budgets, Candidates(q, workers, budgets)[i].availableMemory)
  {
    var cs := Candidates(q, workers, budgets);
    forall w, cap | w in workers && Able(q, w, cap, budgets)
      ensures FreeMemory(HostsOf(q, cap, budgets[w.id].devices)) <= cs[i].availableMemory
    {
      AbleIsCandidate(q, workers, budgets, w, cap);
      var hosts := HostsOf(q, cap, budgets[w.id].devices);
      var j :| 0 <= j < |cs| && cs[j] == Candidate(w.id, hosts, FreeMemory(hosts));
    }
  }

  lemma {:induction false} FirstHostsPlaced(q: Request, w: Worker, cap: Capability, budgets: Budgets, c: Candidate)
    requires Able(q, w, cap, budgets) && c.workerId == w.id
    requires c.devices == HostsOf(q, cap, budgets[w.id].devices)
    ensures PlacedOn(q, w, cap, budgets, ResultOf(q, c))
  {
    EligibleHosts(q, cap, budgets[w.id].devices);
    AllHaveMemory(q, c.devices);
    assert WithMemory(q, c.devices) == c.devices;
  }

  /**
   * Otherwise the request goes to a worker that can take it, on its first devices
   * that can host a share, and no other such worker has more memory free on such
   * devices.
   */
  lemma {:induction false} PlacedExactly(q: Request, workers: seq<Worker>, budgets: Budgets, r: Result)
    returns (w: Worker, cap: Capability)
    requires Answers(q, workers, budgets, Some(r))
    ensures w in workers && Able(q, w, cap, budgets) && PlacedOn(q, w, cap, budgets, r)
    ensures MostFree(q, workers, budgets, FreeMemory(HostsOf(q, cap, budgets[w.id].devices)))
  {
    var cs := Candidates(q, workers, budgets);
    var i :| 0 <= i < |cs| && IsBest(cs, i) && r == ResultOf(q, cs[i]);
    w, cap := CandidateFrom(q, workers, budgets, cs[i]);
    BestHasMost(q, workers, budgets, i);
    FirstHostsPlaced(q, w, cap, budgets, cs[i]);
  }

  // ---------------------------------------------------------------------
  // Fixed placement
  // ---------------------------------------------------------------------

  /** A fixed placement compares the device type even when it is empty. */
  predicate HostsFixed(q: Request, cap: Capability, d: Device) {
    && Together(d.available, q.tensorParallel) >= q.requiredMemory && d.kind in cap.supported
    && (q.deviceType == None || q.deviceType == Some(d.kind))
  }

  /** The budget's first device of this index. */
  predicate FirstOfIndexAt(devices: seq<Device>, index: nat, i: nat) {
    i < |devices| && devices[i].index == index && forall j :: 0 <= j < i ==> devices[j].index != index
  }

  predicate FirstOfIndex(devices: seq<Device>, index: nat, d: Device) {
    exists i :: 0 <= i < |devices| && FirstOfIndexAt(devices, index, i) && devices[i] == d
  }

  /** The pool's first worker of this id. */
  predicate FirstOfIdAt(workers: seq<Worker>, id: string, i: nat) {
    i < |workers| && workers[i].id == id && forall j :: 0 <= j < i ==> workers[j].id != id
  }

  predicate FirstOfId(workers: seq<Worker>, id: string, w: Worker) {
    exists i :: 0 <= i < |workers| && FirstOfIdAt(workers, id, i) && workers[i] == w
  }

  /** Each device asked for can host a share; they are answered in the order asked. */
  ghost predicate FixedOn(
      q: Request, w: Worker, cap: Capability, indices: seq<nat>, workers: seq<Worker>, budgets: Budgets, r: Result) {
    && FirstOfId(workers, w.id, w) && Runs(q, w, cap) && Reported(budgets, w.id)
    && |indices| == q.tensorParallel
    && r.workerId == w.id && r.runnerType == q.runnerType && |r.devices| == |indices|
    && forall i :: 0 <= i < |indices| ==>
         exists d :: && FirstOfIndex(budgets[w.id].devices, indices[i], d) && HostsFixed(q, cap, d)
                     && r.devices[i] == Placed(d.index, d.kind)
  }

  lemma FoundWorkerIsNext(workers: seq<Worker>, id: string, i: nat)
    requires workers != [] && workers[0].id != id
    ensures FirstOfIdAt(workers, id, i + 1) <==> FirstOfIdAt(workers[1..], id, i)
  {
    assert forall j :: 0 < j < |workers| ==> workers[j] == workers[1..][j - 1];
  }

  lemma {:induction false} FoundWorkerIs(workers: seq<Worker>, id: string, w: Worker)
    ensures FindWorker(workers, id) == Some(w) <==> FirstOfId(workers, id, w)
  {
    if workers != [] && workers[0].id == id {
      assert FirstOfIdAt(workers, id, 0);
    } else if workers != [] {
      FoundWorkerIs(workers[1..], id, w);
      forall i: nat ensures FirstOfIdAt(workers, id, i + 1) <==> FirstOfIdAt(workers[1..], id, i) {
        FoundWorkerIsNext(workers, id, i);
      }
      if FirstOfId(workers, id, w) {
        var i :| 0 <= i < |workers| && FirstOfIdAt(workers, id, i) && workers[i] == w;
        assert FirstOfIdAt(workers[1..], id, i - 1) && workers[1..][i - 1] == w;
      }
      if FirstOfId(workers[1..], id, w) {
        var i :| 0 <= i < |workers| - 1 && FirstOfIdAt(workers[1..], id, i) && workers[1..][i] == w;
        assert FirstOfIdAt(workers, id, i + 1) && workers[i + 1] == w;
      }
    }
  }

  lemma FoundDeviceIsNext(devices: seq<Device>, index: nat, i: nat)
    requires devices != [] && devices[0].index != index
    ensures FirstOfIndexAt(devices, index, i + 1) <==> FirstOfIndexAt(devices[1..], index, i)
  {
    assert forall j :: 0 < j < |devices| ==> devices[j] == devices[1..][j - 1];
  }

  lemma {:induction false} FoundDeviceIs(devices: seq<Device>, index: nat, d: Device)
    ensures FindDevice(devices, index) == Some(d) <==> FirstOfIndex(devices, index, d)
  {
    if devices != [] && devices[0].index == index {
      assert FirstOfIndexAt(devices, index, 0);
    } else if devices != [] {
      FoundDeviceIs(devices[1..], index, d);
      forall i: nat ensures FirstOfIndexAt(devices, index, i + 1) <==> FirstOfIndexAt(devices[1..], index, i) {
        FoundDeviceIsNext(devices, index, i);
      }
      if FirstOfIndex(devices, index, d) {
        var i :| 0 <= i < |devices| && FirstOfIndexAt(devices, index, i) && devices[i] == d;
        assert FirstOfIndexAt(devices[1..], index, i - 1) && devices[1..][i - 1] == d;
      }
      if FirstOfIndex(devices[1..], index, d) {
        var i :| 0 <= i < |devices| - 1 && FirstOfIndexAt(devices[1..], index, i) && devices[1..][i] == d;
        assert FirstOfIndexAt(devices, index, i + 1) && devices[i + 1] == d;
      }
    }
  }

  lemma {:induction false} ChosenAt(b: Budget, indices: seq<nat>, i: nat)
    requires forall j :: 0 <= j < |indices| ==> FindDevice(b.devices, indices[j]).Some?
    requires i < |indices|
    ensures |Chosen(b, indices)| == |indices|
    ensures var d := FindDevice(b.devices, indices[i]).value;
            Chosen(b, indices)[i] == Placed(d.index, d.kind)
  {
    if |indices| > 1 {
      ChosenAt(b, indices[1..], if i > 0 then i - 1 else 0);
    }
  }

  /** An accepted fixed placement is on the worker and devices asked for, and each of them can host a share. */
  lemma {:induction false} FixedSound(
      q: Request, id: string, indices: seq<nat>, workers: seq<Worker>, budgets: Budgets, r: Result)
    returns (w: Worker, cap: Capability)
    requires PlaceFixed(q, id, indices, workers, budgets) == Some(r)
    ensures w.id == id && FixedOn(q, w, cap, indices, workers, budgets, r)
  {
    w := FindWorker(workers, id).value;
    cap := FirstCapability(w.capabilities, q.runnerType).value;
    FoundWorkerIs(workers, id, w);
    FirstCapabilityIs(w.capabilities, q.runnerType, cap);
    var b := budgets[id];
    forall i | 0 <= i < |indices|
      ensures |r.devices| == |indices|
      ensures exists d :: && FirstOfIndex(b.devices, indices[i], d) && HostsFixed(q, cap, d)
                          && r.devices[i] == Placed(d.index, d.kind)
    {
      assert Acceptable(q, cap, b, indices[i]);
      var d := FindDevice(b.devices, indices[i]).value;
      FoundDeviceIs(b.devices, indices[i], d);
      ShareFits(q, d.available);
      ChosenAt(b, indices, i);
    }
  }

  /** And whatever is so is accepted. */
  lemma {:induction false} FixedComplete(
      q: Request, w: Worker, cap: Capability, indices: seq<nat>, workers: seq<Worker>, budgets: Budgets, r: Result)
    requires FixedOn(q, w, cap, indices, workers, budgets, r)
    ensures PlaceFixed(q, w.id, indices, workers, budgets) == Some(r)
  {
    FoundWorkerIs(workers, w.id, w);
    FirstCapabilityIs(w.capabilities, q.runnerType, cap);
    var b := budgets[w.id];
    forall i | 0 <= i < |indices|
      ensures Acceptable(q, cap, b, indices[i])
      ensures var d := FindDevice(b.devices, indices[i]).value;
              r.devices[i] == Placed(d.index, d.kind)
    {
      var d :| && FirstOfIndex(b.devices, indices[i], d) && HostsFixed(q, cap, d)
               && r.devices[i] == Placed(d.index, d.kind);
      FoundDeviceIs(b.devices, indices[i], d);
      ShareFits(q, d.available);
    }
    forall i | 0 <= i < |indices| ensures |Chosen(b, indices)| == |indices| && Chosen(b, indices)[i] == r.devices[i] {
      ChosenAt(b, indices, i);
    }
    assert Chosen(b, indices) == r.devices;
  }

  /** Eviction may free memory on exactly the workers that run the request. */
  lemma {:induction false} EligibleExactly(q: Request, workers: seq<Worker>, id: string)
    ensures id in EligibleWorkerIds(q, workers) <==> exists w, cap :: w in workers && w.id == id && Runs(q, w, cap)
  {
    if id in EligibleWorkerIds(q, workers) {
      var m :| m in Matches(q, workers) && m.worker.id == id;
      MatchRuns(q, workers, m);
    }
    if exists w, cap :: w in workers && w.id == id && Runs(q, w, cap) {
      var w, cap :| w in workers && w.id == id && Runs(q, w, cap);
      MatchRuns(q, workers, Match(w, cap));
    }
  }

  // ---------------------------------------------------------------------
  // What a deployment holds
  // ---------------------------------------------------------------------

  /** What the holds on some devices of a worker have grown by. */
  ghost function Added(rs: MB.Reservations, rs': MB.Reservations, worker: string, indices: seq<nat>): real {
    if indices == [] then 0.0
    else
      var d := indices[|indices| - 1];
      Added(rs, rs', worker, indices[..|indices| - 1]) + (MB.Held(rs', worker, d) - MB.Held(rs, worker, d))
  }

  lemma {:induction false} EqualShares(
      rs: MB.Reservations, rs': MB.Reservations, worker: string, indices: seq<nat>, share: real)
    requires forall i :: 0 <= i < |indices| ==>
               MB.Held(rs', worker, indices[i]) - MB.Held(rs, worker, indices[i]) == share
    ensures Added(rs, rs', worker, indices) == Together(share, |indices|)
  {
    if indices != [] {
      var rest := indices[..|indices| - 1];
      EqualShares(rs, rs', worker, rest, share);
    }
  }

  /** A placement names as many devices as the request asks for, each once. */
  lemma {:induction false} PlacedCount(b: Books, ev: Event)
    requires Sound(b) && ev.Deploy? && Admits(b, ev)
    ensures |Indices(ev.r.devices)| == ev.q.tensorParallel && DistinctNats(Indices(ev.r.devices))
  {
    var view := View(b.budgets, ev.stale);
    if Answers(ev.q, ev.workers, view, Some(ev.r)) {
      var w, cap := PlacedExactly(ev.q, ev.workers, view, ev.r);
      AnswerHadMemory(ev.q, ev.workers, view, ev.r, MB.DeviceBudget(0, "", 0, 0, 0.0));
    } else {
      var w, cap := FixedSound(ev.q, ev.r.workerId, Indices(ev.r.devices), ev.workers, view, ev.r);
    }
  }

  /** A new instance adds the same amount on each of its devices and nothing elsewhere. */
  lemma {:induction false} ReservedInShares(
      rs: MB.Reservations, worker: string, indices: seq<nat>, instance: string, share: real)
    requires Fresh(rs, instance) && DistinctNats(indices)
    ensures var rs' := ReservedAll(rs, worker, indices, instance, share);
            && Added(rs, rs', worker, indices) == Together(share, |indices|)
            && (forall w, d :: !(w == worker && d in indices) ==> MB.Held(rs', w, d) == MB.Held(rs, w, d))
            && (forall d :: d in indices ==> MB.Held(rs', worker, d) - MB.Held(rs, worker, d) == share)
  {
    var rs' := ReservedAll(rs, worker, indices, instance, share);
    forall w, d
      ensures MB.Held(rs', w, d) == MB.Held(rs, w, d) + if w == worker && d in indices then share else 0.0
    {
      HeldAfterAll(rs, worker, indices, instance, share, w, d);
    }
    EqualShares(rs, rs', worker, indices, share);
  }

  /** The holds have grown by the memory of the request, in equal shares on these devices and nowhere else. */
  ghost predicate HeldInShares(
      q: Request, rs: MB.Reservations, rs': MB.Reservations, worker: string, indices: seq<nat>) {
    && Added(rs, rs', worker, indices) == q.requiredMemory
    && (forall w, d :: !(w == worker && d in indices) ==> MB.Held(rs', w, d) == MB.Held(rs, w, d))
    && (forall d :: d in indices ==>
          Together(MB.Held(rs', worker, d) - MB.Held(rs, worker, d), q.tensorParallel) == q.requiredMemory)
  }

  lemma {:induction false} SharesHeld(
      q: Request, rs: MB.Reservations, worker: string, indices: seq<nat>, instance: string)
    requires Fresh(rs, instance) && DistinctNats(indices) && |indices| == q.tensorParallel
    ensures HeldInShares(q, rs, ReservedAll(rs, worker, indices, instance, PerDevice(q)), worker, indices)
  {
    SharesMakeWhole(q);
    ReservedInShares(rs, worker, indices, instance, PerDevice(q));
  }

  /** A deployment holds exactly the memory it was asked for. */
  lemma {:induction false} DeploymentHoldsAll(b: Books, ev: Event)
    requires Sound(b) && ev.Deploy? && Admits(b, ev)
    ensures HeldInShares(ev.q, b.holds, HoldsAfter(b, ev), ev.r.workerId, Indices(ev.r.devices))
  {
    PlacedCount(b, ev);
    SharesHeld(ev.q, b.holds, ev.r.workerId, Indices(ev.r.devices), ev.instance);
  }

  /** And every device it was placed on had room for its share. */
  lemma {:induction false} DeploymentFitted(b: Books, ev: Event, i: nat)
    requires Sound(b) && ev.Deploy? && Admits(b, ev)
    requires Exists(b, ev.r.workerId, i) && b.budgets[ev.r.workerId].devices[i].index in Indices(ev.r.devices)
    ensures var d := b.budgets[ev.r.workerId].devices[i];
            Together(d.available, ev.q.tensorParallel) >= ev.q.requiredMemory
  {
    PlacedHadMemory(b, ev, i);
    ShareFits(ev.q, b.budgets[ev.r.workerId].devices[i].available);
  }
}
