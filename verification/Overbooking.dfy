/**
 * Place, then reserve (deployFromRecord in control-plane/src/routes/models.ts):
 * between two memory reports no device is promised more memory than it has.
 */
module Overbooking {
  import opened Options
  import opened Holds
  import MB = MemoryBudget
  import opened Placement

  // ---------------------------------------------------------------------
  // The deployment step
  // ---------------------------------------------------------------------

  /** The holds after one instance has reserved the same amount on each device. */
  function ReservedAll(
      rs: MB.Reservations, worker: string, indices: seq<nat>, instance: string, bytes: real): MB.Reservations
    decreases |indices|
  {
    if indices == [] then rs
    else
      var last := |indices| - 1;
      var before := ReservedAll(rs, worker, indices[..last], instance, bytes);
      MB.Reserved(before, Key(worker, indices[last]), instance, bytes)
  }

  /** The reservation loop that follows a successful placement. */
  method ReserveDevices(budget: MB.Service, worker: string, indices: seq<nat>, instance: string, bytes: real)
    requires budget.Valid()
    modifies budget
    ensures budget.Valid() && MB.SameReports(old(budget.budgets), budget.budgets)
    ensures budget.reservations == ReservedAll(old(budget.reservations), worker, indices, instance, bytes)
  {
    for i := 0 to |indices|
      invariant budget.Valid() && MB.SameReports(old(budget.budgets), budget.budgets)
      invariant budget.reservations == ReservedAll(old(budget.reservations), worker, indices[..i], instance, bytes)
    {
      ghost var before := budget.budgets;
      budget.ReserveCapacity(worker, indices[i], instance, bytes);
      MB.SameReportsTransitive(old(budget.budgets), before, budget.budgets);
      assert indices[..i + 1][..i] == indices[..i];
    }
    assert indices[..|indices|] == indices;
  }

  /** The budgets as placement sees them. */
  function View(budgets: MB.Budgets, stale: set<string>): Placement.Budgets {
    map w | w in budgets :: Budget(budgets[w].devices, w in stale)
  }

  predicate Fresh(rs: MB.Reservations, instance: string) {
    forall k :: k in rs ==> instance !in rs[k]
  }

  lemma {:induction false} HeldAfterAll(
      rs: MB.Reservations, worker: string, indices: seq<nat>, instance: string, bytes: real, w: string, d: nat)
    requires Fresh(rs, instance) && DistinctNats(indices)
    ensures MB.Held(ReservedAll(rs, worker, indices, instance, bytes), w, d)
         == if w == worker && d in indices then MB.Held(rs, w, d) + bytes else MB.Held(rs, w, d)
    ensures !(w == worker && d in indices) ==>
              MB.HoldsAt(ReservedAll(rs, worker, indices, instance, bytes), Key(w, d)) == MB.HoldsAt(rs, Key(w, d))
    decreases |indices|
  {
    if indices != [] {
      var last := |indices| - 1;
      var prefix := indices[..last];
      var rs' := ReservedAll(rs, worker, prefix, instance, bytes);
      assert indices == prefix + [indices[last]];
      HeldAfterAll(rs, worker, prefix, instance, bytes, w, d);
      MB.HeldAfterReserve(rs', worker, indices[last], instance, bytes, w, d);
      if w == worker && d == indices[last] {
        assert d !in prefix;
        assert MB.HoldsAt(rs, Key(w, d)) - {instance} == MB.HoldsAt(rs, Key(w, d));
        assert MB.HoldsAt(rs, Key(w, d)) == map[] ==> Sum(MB.HoldsAt(rs, Key(w, d))) == 0.0;
      } else if Key(w, d) == Key(worker, indices[last]) {
        KeyInjective(w, d, worker, indices[last]);
      }
    }
  }

  // ---------------------------------------------------------------------
  // Runs between two reports
  // ---------------------------------------------------------------------

  /** What the memory budget service holds. */
  datatype Books = Books(budgets: MB.Budgets, holds: MB.Reservations)

  /** What the service keeps: exact figures over decodable keys. */
  ghost predicate Consistent(b: Books) {
    MB.Exact(b.budgets, b.holds) && MB.DistinctIndices(b.budgets) && MB.WellKeyed(b.holds)
  }

  predicate NonNegative(rs: MB.Reservations) {
    forall k :: k in rs ==> forall i :: i in rs[k] ==> rs[k][i] >= 0.0
  }

  ghost predicate Sound(b: Books) {
    Consistent(b) && NonNegative(b.holds)
  }

  datatype Event =
    | Deploy(q: Request, workers: seq<Worker>, stale: set<string>, instance: string, r: Result)
    | Release(instance: string)
    | Clear(worker: string)

  /** The result is one of automatic placement, or one the caller fixed on distinct devices. */
  ghost predicate PlacedBy(ev: Event, b: Books)
    requires ev.Deploy?
  {
    var view := View(b.budgets, ev.stale);
    || Answers(ev.q, ev.workers, view, Some(ev.r))
    || (&& PlaceFixed(ev.q, ev.r.workerId, Indices(ev.r.devices), ev.workers, view) == Some(ev.r)
        && DistinctNats(Indices(ev.r.devices)))
  }

  ghost predicate Admits(b: Books, ev: Event) {
    match ev
    case Deploy(q, _, _, instance, _) => q.requiredMemory > 0.0 && Fresh(b.holds, instance) && PlacedBy(ev, b)
    case Release(_) => true
    case Clear(worker) => MB.NoClash(b.holds, worker)
  }

  function HoldsAfter(b: Books, ev: Event): MB.Reservations {
    match ev
    case Deploy(q, _, _, instance, r) =>
      ReservedAll(b.holds, r.workerId, Indices(r.devices), instance, PerDevice(q))
    case Release(instance) => MB.Released(b.holds, instance)
    case Clear(worker) => MB.ClearedAll(b.holds, {worker})
  }

  /** The reports stay; the holds change; the figures are exact again. */
  ghost predicate Step(b: Books, ev: Event, b': Books) {
    && Admits(b, ev) && b'.holds == HoldsAfter(b, ev)
    && MB.SameReports(b.budgets, b'.budgets) && Consistent(b')
  }

  ghost predicate Next(b: Books, b': Books) {
    exists ev :: Step(b, ev, b')
  }

  ghost predicate Run(run: seq<Books>) {
    run != [] && Sound(run[0]) && forall i :: 0 < i < |run| ==> Next(run[i - 1], run[i])
  }

  /** Used plus held is at most what the device has. */
  ghost predicate Fits(b: Books, worker: string, i: nat)
    requires worker in b.budgets && i < |b.budgets[worker].devices|
  {
    var d := b.budgets[worker].devices[i];
    d.used as real + MB.Held(b.holds, worker, d.index) <= d.total as real
  }

  predicate Exists(b: Books, worker: string, i: nat) {
    worker in b.budgets && i < |b.budgets[worker].devices|
  }

  lemma {:induction false} SumShrinks(holds: DeviceHolds, instance: string)
    requires forall i :: i in holds ==> holds[i] >= 0.0
    ensures Sum(holds - {instance}) <= Sum(holds)
  {
    if instance in holds {
      SumWithout(holds, instance);
    } else {
      assert holds - {instance} == holds;
    }
  }

  /** Releasing and clearing only ever free memory. */
  lemma {:induction false} FreeingShrinks(b: Books, ev: Event, w: string, d: nat)
    requires Sound(b) && (ev.Release? || ev.Clear?)
    ensures MB.Held(HoldsAfter(b, ev), w, d) <= MB.Held(b.holds, w, d)
  {
    var k := Key(w, d);
    if k in b.holds { SumNonNegative(b.holds[k]); }
    if ev.Release? {
      MB.HeldAfterRelease(b.holds, ev.instance, w, d);
      SumShrinks(MB.HoldsAt(b.holds, k), ev.instance);
      assert Sum(MB.HoldsAt(b.holds, k)) == MB.Held(b.holds, w, d);
    }
  }

  /** A device that shares its index with an eligible one is that one. */
  lemma {:induction false} IndexedHadMemory(q: Request, cap: Capability, devices: seq<Device>, x: Device, d: Device)
    requires MB.DistinctDevices(devices) && x in EligibleDevices(q, cap, devices) && d in devices && d.index == x.index
    ensures d.available >= PerDevice(q)
  {
    DeviceFound(devices, d);
    DeviceFound(devices, x);
  }

  lemma {:induction false} PickedDistinct(
      q: Request, workers: seq<Worker>, view: Placement.Budgets, c: Candidate) returns (cap: Capability)
    requires DistinctBudgets(view) && c in Candidates(q, workers, view)
    ensures q.tensorParallel <= |c.devices| && c.workerId in view && MB.DistinctDevices(view[c.workerId].devices)
    ensures c.devices == EligibleDevices(q, cap, view[c.workerId].devices)
    ensures ResultOf(q, c) == Result(c.workerId, q.runnerType, PlacedAt(Picked(q, c)))
    ensures DistinctNats(Indices(PlacedAt(Picked(q, c))))
  {
    var m := CandidateOrigin(q, workers, view, c);
    cap := m.capability;
    EligibleDistinct(q, cap, view[c.workerId].devices);
    PrefixDistinct(c.devices, q.tensorParallel);
  }

  lemma {:induction false} PickedHadMemory(q: Request, cap: Capability, devices: seq<Device>, c: Candidate, d: Device)
    requires MB.DistinctDevices(devices) && c.devices == EligibleDevices(q, cap, devices)
    requires q.tensorParallel <= |c.devices| && d in devices && d.index in Indices(PlacedAt(Picked(q, c)))
    ensures d.available >= PerDevice(q)
  {
    var picked := Picked(q, c);
    var j :| 0 <= j < |picked| && picked[j].index == d.index;
    assert picked[j] in c.devices;
    IndexedHadMemory(q, cap, devices, picked[j], d);
  }

  lemma {:induction false} AnswerHadMemory(
      q: Request, workers: seq<Worker>, view: Placement.Budgets, r: Result, d: Device)
    requires DistinctBudgets(view) && Answers(q, workers, view, Some(r))
    ensures r.workerId in view && DistinctNats(Indices(r.devices))
    ensures d in view[r.workerId].devices && d.index in Indices(r.devices) ==> d.available >= PerDevice(q)
  {
    var cs := Candidates(q, workers, view);
    var i :| 0 <= i < |cs| && IsBest(cs, i) && r == ResultOf(q, cs[i]);
    var cap := PickedDistinct(q, workers, view, cs[i]);
    if d in view[r.workerId].devices && d.index in Indices(r.devices) {
      PickedHadMemory(q, cap, view[r.workerId].devices, cs[i], d);
    }
  }

  lemma {:induction false} FixedHadMemory(
      q: Request, workers: seq<Worker>, view: Placement.Budgets, r: Result, d: Device)
    requires DistinctBudgets(view) && PlaceFixed(q, r.workerId, Indices(r.devices), workers, view) == Some(r)
    ensures r.workerId in view
    ensures d in view[r.workerId].devices && d.index in Indices(r.devices) ==> d.available >= PerDevice(q)
  {
    var indices := Indices(r.devices);
    var cap := FirstCapability(FindWorker(workers, r.workerId).value.capabilities, q.runnerType).value;
    if d in view[r.workerId].devices && d.index in indices {
      var j :| 0 <= j < |indices| && indices[j] == d.index;
      DeviceFound(view[r.workerId].devices, d);
      assert Acceptable(q, cap, view[r.workerId], indices[j]);
    }
  }

  /** Every device of a placement had the memory when it was chosen. */
  lemma {:induction false} PlacedHadMemory(b: Books, ev: Event, i: nat)
    requires Sound(b) && ev.Deploy? && Admits(b, ev)
    requires Exists(b, ev.r.workerId, i) && b.budgets[ev.r.workerId].devices[i].index in Indices(ev.r.devices)
    ensures DistinctNats(Indices(ev.r.devices))
    ensures b.budgets[ev.r.workerId].devices[i].available >= PerDevice(ev.q)
  {
    var view := View(b.budgets, ev.stale);
    var d := b.budgets[ev.r.workerId].devices[i];
    assert d in view[ev.r.workerId].devices;
    if Answers(ev.q, ev.workers, view, Some(ev.r)) {
      AnswerHadMemory(ev.q, ev.workers, view, ev.r, d);
    } else {
      FixedHadMemory(ev.q, ev.workers, view, ev.r, d);
    }
  }

  lemma {:induction false} UnselectedUntouched(
      rs: MB.Reservations, worker: string, indices: seq<nat>, instance: string, bytes: real, w: string, d: nat)
    requires !(w == worker && d in indices)
    ensures MB.Held(ReservedAll(rs, worker, indices, instance, bytes), w, d) == MB.Held(rs, w, d)
    decreases |indices|
  {
    if indices != [] {
      var last := |indices| - 1;
      UnselectedUntouched(rs, worker, indices[..last], instance, bytes, w, d);
      assert indices == indices[..last] + [indices[last]];
      var before := ReservedAll(rs, worker, indices[..last], instance, bytes);
      MB.HeldAfterReserve(before, worker, indices[last], instance, bytes, w, d);
    }
  }

  lemma {:induction false} ReservedAllNonNegative(
      rs: MB.Reservations, worker: string, indices: seq<nat>, instance: string, bytes: real)
    requires NonNegative(rs) && bytes >= 0.0
    ensures NonNegative(ReservedAll(rs, worker, indices, instance, bytes))
    decreases |indices|
  {
    if indices != [] {
      ReservedAllNonNegative(rs, worker, indices[..|indices| - 1], instance, bytes);
    }
  }

  lemma PerDevicePositive(q: Request)
    requires q.requiredMemory > 0.0
    ensures PerDevice(q) > 0.0
  {}

  lemma {:induction false} HoldsStayNonNegative(b: Books, ev: Event)
    requires NonNegative(b.holds) && (ev.Deploy? ==> ev.q.requiredMemory > 0.0)
    ensures NonNegative(HoldsAfter(b, ev))
  {
    if ev.Deploy? {
      PerDevicePositive(ev.q);
      ReservedAllNonNegative(b.holds, ev.r.workerId, Indices(ev.r.devices), ev.instance, PerDevice(ev.q));
    }
  }

  lemma {:induction false} StepKeepsSound(b: Books, ev: Event, b': Books)
    requires Sound(b) && Step(b, ev, b')
    ensures Sound(b')
  {
    HoldsStayNonNegative(b, ev);
  }

  /** An exact figure that covers a positive amount leaves room for it. */
  lemma RoomFor(total: nat, used: nat, held: real, bytes: real)
    requires MB.Available(total, used, held) >= bytes > 0.0
    ensures used as real + (held + bytes) <= total as real
  {}

  lemma {:induction false} SelectedFits(b: Books, ev: Event, b': Books, i: nat)
    requires Sound(b) && ev.Deploy? && Step(b, ev, b') && Exists(b, ev.r.workerId, i)
    requires b.budgets[ev.r.workerId].devices[i].index in Indices(ev.r.devices)
    ensures Exists(b', ev.r.workerId, i) && Fits(b', ev.r.workerId, i)
  {
    var w, indices := ev.r.workerId, Indices(ev.r.devices);
    var d, d' := b.budgets[w].devices[i], b'.budgets[w].devices[i];
    assert MB.SameDevice(d, d');
    PlacedHadMemory(b, ev, i);
    PerDevicePositive(ev.q);
    var bytes, held := PerDevice(ev.q), MB.Held(b.holds, w, d.index);
    HeldAfterAll(b.holds, w, indices, ev.instance, bytes, w, d.index);
    assert MB.ExactDevice(b.holds, w, d);
    RoomFor(d.total, d.used, held, bytes);
    assert MB.Held(b'.holds, w, d'.index) == held + bytes;
  }

  /**
   * One step: a device that was not overbooked stays so, and a device that has
   * just been selected is not overbooked, whatever it was before.
   */
  lemma {:induction false} StepKeepsFit(b: Books, ev: Event, b': Books, w: string, i: nat)
    requires Sound(b) && Step(b, ev, b') && Exists(b, w, i)
    ensures Exists(b', w, i)
    ensures Fits(b, w, i) ==> Fits(b', w, i)
    ensures ev.Deploy? && w == ev.r.workerId && b.budgets[w].devices[i].index in Indices(ev.r.devices) ==>
              Fits(b', w, i)
  {
    var d := b.budgets[w].devices[i];
    assert MB.SameDevice(d, b'.budgets[w].devices[i]);
    if !ev.Deploy? {
      FreeingShrinks(b, ev, w, d.index);
    } else if w == ev.r.workerId && d.index in Indices(ev.r.devices) {
      SelectedFits(b, ev, b', i);
    } else {
      UnselectedUntouched(b.holds, ev.r.workerId, Indices(ev.r.devices), ev.instance, PerDevice(ev.q), w, d.index);
    }
  }

  /** Over every run between two reports, what was not overbooked at the report never becomes so. */
  lemma {:induction false} NeverOverbooked(run: seq<Books>, n: nat, w: string, i: nat)
    requires Run(run) && n < |run|
    requires Exists(run[0], w, i) && Fits(run[0], w, i)
    ensures Sound(run[n]) && Exists(run[n], w, i) && Fits(run[n], w, i)
  {
    if n > 0 {
      NeverOverbooked(run, n - 1, w, i);
      assert Next(run[n - 1], run[n]);
      var ev :| Step(run[n - 1], ev, run[n]);
      StepKeepsSound(run[n - 1], ev, run[n]);
      StepKeepsFit(run[n - 1], ev, run[n], w, i);
    }
  }

  /** The rollback of a failed deployment leaves every device as it was. */
  lemma {:induction false} RollbackRestores(
      rs: MB.Reservations, worker: string, indices: seq<nat>, instance: string, bytes: real, w: string, d: nat)
    requires Fresh(rs, instance)
    ensures MB.Held(MB.Released(ReservedAll(rs, worker, indices, instance, bytes), instance), w, d) == MB.Held(rs, w, d)
  {
    MB.HeldAfterRelease(ReservedAll(rs, worker, indices, instance, bytes), instance, w, d);
    OnlyInstanceAdded(rs, worker, indices, instance, bytes, Key(w, d));
    assert MB.HoldsAt(rs, Key(w, d)) == map[] ==> Sum(MB.HoldsAt(rs, Key(w, d))) == 0.0;
  }

  lemma {:induction false} OnlyInstanceAdded(
      rs: MB.Reservations, worker: string, indices: seq<nat>, instance: string, bytes: real, key: string)
    requires Fresh(rs, instance)
    ensures MB.HoldsAt(ReservedAll(rs, worker, indices, instance, bytes), key) - {instance} == MB.HoldsAt(rs, key)
    decreases |indices|
  {
    if indices == [] {
      assert MB.HoldsAt(rs, key) - {instance} == MB.HoldsAt(rs, key);
    } else {
      OnlyInstanceAdded(rs, worker, indices[..|indices| - 1], instance, bytes, key);
    }
  }

  /** Placement and reservation with nothing in between: one admitted step of a run. */
  method PlaceAndReserve(budget: MB.Service, q: Request, workers: seq<Worker>, stale: set<string>,
                         target: Option<(string, seq<nat>)>, instance: string) returns (r: Option<Result>)
    requires budget.Valid()
    modifies budget
    ensures budget.Valid()
    ensures target.None? ==> Answers(q, workers, View(old(budget.budgets), stale), r)
    ensures target.Some? ==>
              r == PlaceFixed(q, target.value.0, target.value.1, workers, View(old(budget.budgets), stale))
    ensures r.None? ==> budget.budgets == old(budget.budgets) && budget.reservations == old(budget.reservations)
    ensures r.Some? ==>
              var before := Books(old(budget.budgets), old(budget.reservations));
              var ev := Deploy(q, workers, stale, instance, r.value);
              Admits(before, ev) ==> Step(before, ev, Books(budget.budgets, budget.reservations))
  {
    var view := View(budget.budgets, stale);
    if target.Some? {
      r := PlaceFixed(q, target.value.0, target.value.1, workers, view);
    } else {
      r := Place(q, workers, view);
    }
    if r.Some? {
      ReserveDevices(budget, r.value.workerId, Indices(r.value.devices), instance, PerDevice(q));
    }
  }
}
