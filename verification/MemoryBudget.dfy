/**
 * Per-device memory budgets with in-flight placement holds
 * (control-plane/src/services/memory-budget.ts). Byte amounts are real numbers,
 * because a hold is a model's memory divided by its tensor parallelism.
 */
module MemoryBudget {
  import opened Options
  import opened Holds

  datatype DeviceBudget = DeviceBudget(index: nat, kind: string, total: nat, used: nat, available: real)

  datatype WorkerBudget = WorkerBudget(devices: seq<DeviceBudget>, reportedAt: int)

  type Budgets = map<string, WorkerBudget>

  /** Holds by reservation key, then by instance. */
  type Reservations = map<string, DeviceHolds>

  // ---------------------------------------------------------------------
  // What the cached figures mean
  // ---------------------------------------------------------------------

  function Available(total: nat, used: nat, held: real): real {
    var free := total as real - used as real - held;
    if free > 0.0 then free else 0.0
  }

  ghost function Held(rs: Reservations, worker: string, device: nat): real {
    if Key(worker, device) in rs then Sum(rs[Key(worker, device)]) else 0.0
  }

  ghost predicate ExactDevice(rs: Reservations, worker: string, d: DeviceBudget) {
    d.available == Available(d.total, d.used, Held(rs, worker, d.index))
  }

  /** Every cached figure equals its definition. */
  ghost predicate Exact(budgets: Budgets, rs: Reservations) {
    forall w, i :: w in budgets && 0 <= i < |budgets[w].devices| ==> ExactDevice(rs, w, budgets[w].devices[i])
  }

  predicate DistinctDevices(devices: seq<DeviceBudget>) {
    forall i, j :: 0 <= i < j < |devices| ==> devices[i].index != devices[j].index
  }

  predicate DistinctIndices(budgets: Budgets) {
    forall w :: w in budgets ==> DistinctDevices(budgets[w].devices)
  }

  /** Every reservation key was built from a worker and a device. */
  predicate WellKeyed(rs: Reservations) {
    forall k :: k in rs ==> DeviceOf(k).Some? && k == Key(WorkerOf(k), DeviceOf(k).value)
  }

  /** The two differ at most in the cached availability. */
  predicate SameDevice(d: DeviceBudget, d': DeviceBudget) {
    d' == d.(available := d'.available)
  }

  predicate SameReports(b: Budgets, b': Budgets) {
    && b'.Keys == b.Keys
    && forall w :: w in b ==>
         && b'[w].reportedAt == b[w].reportedAt
         && |b'[w].devices| == |b[w].devices|
         && forall i :: 0 <= i < |b[w].devices| ==> SameDevice(b[w].devices[i], b'[w].devices[i])
  }

  /** The reports and the holds leave no freedom: exact budgets over them are equal. */
  lemma {:induction false} ExactIsUnique(b: Budgets, b': Budgets, rs: Reservations)
    requires Exact(b, rs) && Exact(b', rs) && SameReports(b, b')
    ensures b == b'
  {
    forall w | w in b ensures b[w] == b'[w] {
      forall i | 0 <= i < |b[w].devices| ensures b[w].devices[i] == b'[w].devices[i] {
        assert ExactDevice(rs, w, b[w].devices[i]) && ExactDevice(rs, w, b'[w].devices[i]);
        assert SameDevice(b[w].devices[i], b'[w].devices[i]);
      }
      assert b[w].devices == b'[w].devices;
    }
  }

  // ---------------------------------------------------------------------
  // What the operations do to the holds
  // ---------------------------------------------------------------------

  function HoldsAt(rs: Reservations, key: string): DeviceHolds {
    if key in rs then rs[key] else map[]
  }

  function Reserved(rs: Reservations, key: string, instance: string, bytes: real): Reservations {
    rs[key := HoldsAt(rs, key)[instance := bytes]]
  }

  /** Drop the instance everywhere; a device left without holds loses its key. */
  function Released(rs: Reservations, instance: string): Reservations {
    map k | k in rs && (instance in rs[k] ==> rs[k] - {instance} != map[]) :: rs[k] - {instance}
  }

  function ClearedAll(rs: Reservations, workers: set<string>): Reservations {
    map k | k in rs && (forall w :: w in workers ==> !HasPrefix(k, w)) :: rs[k]
  }

  /** No worker's name continues `worker` behind a colon, among the keys in use. */
  predicate NoClash(rs: Reservations, worker: string) {
    forall k :: k in rs && HasPrefix(k, worker) ==> WorkerOf(k) == worker
  }

  predicate NoColons(rs: Reservations) {
    forall k :: k in rs ==> ':' !in WorkerOf(k)
  }

  lemma {:induction false} NoColonsNoClash(rs: Reservations, worker: string)
    requires WellKeyed(rs) && NoColons(rs)
    ensures NoClash(rs, worker)
  {
    forall k | k in rs && HasPrefix(k, worker) ensures WorkerOf(k) == worker {
      PrefixMeansWorker(k, worker, WorkerOf(k), DeviceOf(k).value);
    }
  }

  lemma {:induction false} HeldAfterReserve(
      rs: Reservations, worker: string, device: nat, instance: string, bytes: real, w: string, d: nat)
    ensures Held(Reserved(rs, Key(worker, device), instance, bytes), w, d)
         == if w == worker && d == device then bytes + Sum(HoldsAt(rs, Key(w, d)) - {instance}) else Held(rs, w, d)
  {
    if w == worker && d == device {
      SumSet(HoldsAt(rs, Key(w, d)), instance, bytes);
    } else if Key(w, d) == Key(worker, device) {
      KeyInjective(w, d, worker, device);
    }
  }

  /** Re-reserving for the same instance replaces its hold: what counts is the last amount. */
  lemma {:induction false} ReserveIsIdempotent(
      rs: Reservations, worker: string, device: nat, instance: string, bytes: real, again: real)
    ensures var once := Reserved(rs, Key(worker, device), instance, bytes);
            Reserved(once, Key(worker, device), instance, again) == Reserved(rs, Key(worker, device), instance, again)
  {
    var key := Key(worker, device);
    assert HoldsAt(rs, key)[instance := bytes][instance := again] == HoldsAt(rs, key)[instance := again];
  }

  lemma {:induction false} HeldAfterRelease(rs: Reservations, instance: string, w: string, d: nat)
    ensures Held(Released(rs, instance), w, d) == Sum(HoldsAt(rs, Key(w, d)) - {instance})
  {
    var k := Key(w, d);
    if k in rs && k !in Released(rs, instance) {
      assert rs[k] - {instance} == map[];
    }
    if k !in rs {
      assert HoldsAt(rs, k) - {instance} == map[];
    }
  }

  /** Releasing undoes a reservation made for a fresh instance. */
  lemma {:induction false} ReleaseUndoesReserve(
      rs: Reservations, worker: string, device: nat, instance: string, bytes: real, w: string, d: nat)
    requires forall k :: k in rs ==> instance !in rs[k]
    ensures Held(Released(Reserved(rs, Key(worker, device), instance, bytes), instance), w, d) == Held(rs, w, d)
  {
    var once := Reserved(rs, Key(worker, device), instance, bytes);
    HeldAfterRelease(once, instance, w, d);
    assert HoldsAt(once, Key(w, d)) - {instance} == HoldsAt(rs, Key(w, d));
  }

  /** The holds of every device but one are the same. */
  ghost predicate SameBut(rs: Reservations, rs': Reservations, key: string) {
    forall k :: k != key ==> (k in rs <==> k in rs') && (k in rs ==> rs[k] == rs'[k])
  }

  /** Same reports, and no figure differs but those of one device. */
  ghost predicate TouchedOnly(b: Budgets, b': Budgets, worker: string, device: nat) {
    && SameReports(b, b')
    && forall w, i :: w in b' && 0 <= i < |b'[w].devices| ==>
         b'[w].devices[i] == b[w].devices[i] || (w == worker && b[w].devices[i].index == device)
  }

  /** Besides, the figure of that device is exact. */
  ghost predicate Refreshed(b: Budgets, b': Budgets, rs: Reservations, worker: string, device: nat) {
    && TouchedOnly(b, b', worker, device)
    && (worker in b' ==> forall i :: 0 <= i < |b'[worker].devices| && b[worker].devices[i].index == device ==>
          ExactDevice(rs, worker, b'[worker].devices[i]))
  }

  /** Refreshing a device after its holds changed restores exactness everywhere. */
  lemma {:induction false} RefreshedIsExact(
      b: Budgets, b': Budgets, rs: Reservations, rs': Reservations, worker: string, device: nat)
    requires Exact(b, rs) && SameBut(rs, rs', Key(worker, device)) && Refreshed(b, b', rs', worker, device)
    ensures Exact(b', rs')
  {
    forall w, i | w in b' && 0 <= i < |b'[w].devices| ensures ExactDevice(rs', w, b'[w].devices[i]) {
      var d := b[w].devices[i];
      assert ExactDevice(rs, w, d);
      if !(w == worker && d.index == device) && Key(w, d.index) == Key(worker, device) {
        KeyInjective(w, d.index, worker, device);
      }
    }
  }

  lemma SameReportsTransitive(a: Budgets, b: Budgets, c: Budgets)
    requires SameReports(a, b) && SameReports(b, c)
    ensures SameReports(a, c)
  {}

  /** Drop the instance at one key only. */
  function ReleasedAt(rs: Reservations, key: string, instance: string): Reservations
    requires key in rs
  {
    if instance !in rs[key] then rs
    else if rs[key] - {instance} == map[] then rs - {key}
    else rs[key := rs[key] - {instance}]
  }

  /** The keys in `todo` are as in `rs`, the others have been released. */
  ghost predicate PartlyReleased(rs: Reservations, now: Reservations, todo: set<string>, instance: string) {
    && todo <= now.Keys
    && (forall k :: k in todo ==> k in rs && now[k] == rs[k])
    && (forall k :: k !in todo ==>
          && (k in now <==> k in Released(rs, instance))
          && (k in now ==> now[k] == Released(rs, instance)[k]))
  }

  lemma ReleaseProgress(rs: Reservations, now: Reservations, todo: set<string>, key: string, instance: string)
    requires PartlyReleased(rs, now, todo, instance) && key in todo
    ensures PartlyReleased(rs, ReleasedAt(now, key, instance), todo - {key}, instance)
  {
    if instance !in now[key] { assert now[key] - {instance} == now[key]; }
  }

  lemma ReleaseDone(rs: Reservations, now: Reservations, instance: string)
    requires PartlyReleased(rs, now, {}, instance)
    ensures now == Released(rs, instance)
  {}

  /** The keys in `todo` are as in `rs`; of the others only those without the prefix are left. */
  ghost predicate PartlyCleared(rs: Reservations, now: Reservations, todo: set<string>, worker: string) {
    && todo <= now.Keys
    && (forall k :: k in now ==> k in rs && now[k] == rs[k])
    && (forall k :: k in rs && k !in todo ==> (k in now <==> !HasPrefix(k, worker)))
  }

  lemma ClearProgress(rs: Reservations, now: Reservations, todo: set<string>, key: string, worker: string)
    requires PartlyCleared(rs, now, todo, worker) && key in todo
    ensures PartlyCleared(rs, if HasPrefix(key, worker) then now - {key} else now, todo - {key}, worker)
    ensures NoClash(rs, worker) && HasPrefix(key, worker) ==> WorkerOf(key) == worker
  {}

  lemma ClearDone(rs: Reservations, now: Reservations, worker: string)
    requires PartlyCleared(rs, now, {}, worker)
    ensures now == ClearedAll(rs, {worker})
  {}

  lemma ClearedTwice(rs: Reservations, workers: set<string>, w: string)
    ensures ClearedAll(ClearedAll(rs, workers), {w}) == ClearedAll(rs, workers + {w})
    ensures ClearedAll(rs, {}) == rs
  {}

  /** A clear takes a worker's holds, those of workers whose names continue its own behind a colon, and no others. */
  lemma {:induction false} HeldAfterClear(rs: Reservations, worker: string, w: string, d: nat)
    ensures Held(ClearedAll(rs, {worker}), w, d)
         == if w == worker || worker + ":" <= w then 0.0 else Held(rs, w, d)
  {
    var key := Key(w, d);
    PrefixMeansWorker(key, worker, w, d);
    if worker + ":" <= w {
      assert w <= key;
    }
    assert HasPrefix(key, worker) <==> w == worker || worker + ":" <= w;
  }

  /** Some workers and their holds have been dropped from the books. */
  ghost predicate Dropped(b: Budgets, rs: Reservations, gone: set<string>, b': Budgets, rs': Reservations) {
    b' == b - gone && rs' == ClearedAll(rs, gone)
  }

  lemma DropOne(b: Budgets, rs: Reservations, gone: set<string>, b': Budgets, rs': Reservations, w: string)
    requires Dropped(b, rs, gone, b', rs')
    ensures Dropped(b, rs, gone + {w}, b' - {w}, ClearedAll(rs', {w}))
  {
    ClearedTwice(rs, gone, w);
  }

  /** Exact books about `owner` alone that the clear of `worker`, who is not on them, makes stale. */
  ghost predicate MadeStale(owner: string, worker: string, b: Budgets, rs: Reservations) {
    && b.Keys == {owner} && worker !in b && (forall k :: k in rs ==> WorkerOf(k) == owner)
    && WellKeyed(rs) && Exact(b, rs) && DistinctIndices(b)
    && !Exact(b, ClearedAll(rs, {worker}))
  }

  /** One byte held on one device. */
  lemma {:induction false} ClashLeavesStaleFigure(owner: string, worker: string) returns (b: Budgets, rs: Reservations)
    requires worker + ":" <= owner
    ensures MadeStale(owner, worker, b, rs)
  {
    var holds: DeviceHolds := map["i" := 1.0];
    var key := Key(owner, 0);
    var d := DeviceBudget(0, "CUDA", 2, 0, 1.0);
    b, rs := map[owner := WorkerBudget([d], 0)], map[key := holds];
    KeyRoundTrip(owner, 0);
    SumWithout(holds, "i");
    assert holds - {"i"} == map[];
    assert owner <= key && HasPrefix(key, worker);
    assert ClearedAll(rs, {worker}) == map[];
    assert Held(rs, owner, 0) == 1.0 && Held(map[], owner, 0) == 0.0;
    assert !ExactDevice(map[], owner, d) && b[owner].devices[0] == d;
  }

  lemma {:induction false} NoClashNothingStale(owner: string, worker: string, b: Budgets, rs: Reservations)
    requires !(worker + ":" <= owner)
    ensures !MadeStale(owner, worker, b, rs)
  {
    if b.Keys == {owner} && worker !in b && WellKeyed(rs) && forall k :: k in rs ==> WorkerOf(k) == owner {
      forall k | k in rs ensures !HasPrefix(k, worker) {
        PrefixMeansWorker(k, worker, owner, DeviceOf(k).value);
      }
      assert ClearedAll(rs, {worker}) == rs;
    }
  }

  /** The clear of one worker can leave another's figure stale exactly when its name with a colon begins the other's. */
  lemma ClashExactly(owner: string, worker: string)
    ensures (exists b, rs :: MadeStale(owner, worker, b, rs)) <==> worker + ":" <= owner
  {
    if worker + ":" <= owner {
      var b, rs := ClashLeavesStaleFigure(owner, worker);
    } else {
      forall b, rs ensures !MadeStale(owner, worker, b, rs) {
        NoClashNothingStale(owner, worker, b, rs);
      }
    }
  }

  // ---------------------------------------------------------------------
  // Reports
  // ---------------------------------------------------------------------

  /** A field of an untrusted JSON report. */
  datatype Field = Absent | Numeric(value: real) | Text(text: string)

  datatype RawDevice = RawDevice(index: Field, kind: Field, used: Field, total: Field)

  /** The payload under a worker's memory key: not an object with a device array, or one. */
  datatype Report = Malformed | Report(devices: seq<RawDevice>, at: int)

  const DEVICE_TYPES: set<string> := {"CUDA", "ROCM", "CPU", "OTHER"}

  predicate NonNegativeInt(f: Field) {
    f.Numeric? && f.value >= 0.0 && f.value.Floor as real == f.value
  }

  predicate ValidDevice(d: RawDevice) {
    && NonNegativeInt(d.index)
    && d.kind.Text? && d.kind.text in DEVICE_TYPES
    && NonNegativeInt(d.used) && NonNegativeInt(d.total)
  }

  predicate ValidReport(r: Report) {
    r.Report? && forall i :: 0 <= i < |r.devices| ==> ValidDevice(r.devices[i])
  }

  /** No two devices of the report share an index; the parser does not check this. */
  predicate DistinctReport(r: Report) {
    ValidReport(r) ==> forall i, j :: 0 <= i < j < |r.devices| ==> r.devices[i].index != r.devices[j].index
  }

  predicate Reports(raw: RawDevice, d: DeviceBudget) {
    && raw.index == Numeric(d.index as real) && raw.kind == Text(d.kind)
    && raw.total == Numeric(d.total as real) && raw.used == Numeric(d.used as real)
  }

  ghost predicate Reflects(r: Report, b: WorkerBudget) {
    && ValidReport(r) && b.reportedAt == r.at && |b.devices| == |r.devices|
    && forall i :: 0 <= i < |r.devices| ==> Reports(r.devices[i], b.devices[i])
  }

  lemma ReflectedDistinct(r: Report, b: WorkerBudget)
    requires Reflects(r, b) && DistinctReport(r)
    ensures DistinctDevices(b.devices)
  {
    forall i, j | 0 <= i < j < |b.devices| ensures b.devices[i].index != b.devices[j].index {
      assert Reports(r.devices[i], b.devices[i]) && Reports(r.devices[j], b.devices[j]);
    }
  }

  /** What the pipeline returned for each memory key: the report, or an error. */
  type Fetched = seq<(string, Option<Report>)>

  /** The workers whose report was read and well formed. */
  predicate Seen(fetched: Fetched, worker: string) {
    exists i :: 0 <= i < |fetched| && fetched[i].0 == worker && fetched[i].1.Some? && ValidReport(fetched[i].1.value)
  }

  ghost predicate From(f: (string, Option<Report>), worker: string, b: WorkerBudget) {
    f.0 == worker && f.1.Some? && Reflects(f.1.value, b)
  }

  predicate DistinctFetched(fetched: Fetched) {
    forall i :: 0 <= i < |fetched| && fetched[i].1.Some? ==> DistinctReport(fetched[i].1.value)
  }

  lemma SeenNext(fetched: Fetched, n: nat)
    requires n < |fetched|
    ensures forall w :: Seen(fetched[..n + 1], w) <==>
              Seen(fetched[..n], w) || (fetched[n].0 == w && fetched[n].1.Some? && ValidReport(fetched[n].1.value))
  {
    var now, before := fetched[..n + 1], fetched[..n];
    forall w ensures Seen(now, w) <==>
              Seen(before, w) || (fetched[n].0 == w && fetched[n].1.Some? && ValidReport(fetched[n].1.value))
    {
      if Seen(before, w) {
        var i :| 0 <= i < |before| && before[i].0 == w && before[i].1.Some? && ValidReport(before[i].1.value);
        assert now[i] == before[i];
      }
      if Seen(now, w) {
        var i :| 0 <= i < |now| && now[i].0 == w && now[i].1.Some? && ValidReport(now[i].1.value);
        assert i < n ==> before[i] == now[i];
      }
      assert now[n] == fetched[n];
    }
  }

  // ---------------------------------------------------------------------
  // The service
  // ---------------------------------------------------------------------

  class Service {
    var budgets: Budgets
    var reservations: Reservations

    /** The cached figures are exact, devices are told apart, keys can be decoded. */
    ghost predicate Valid()
      reads this
    {
      Exact(budgets, reservations) && DistinctIndices(budgets) && WellKeyed(reservations)
    }

    constructor ()
      ensures Valid() && budgets == map[] && reservations == map[]
    {
      budgets, reservations := map[], map[];
    }

    /** Sum the holds of one device. */
    method GetReservation(worker: string, device: nat) returns (total: real)
      ensures total == Held(reservations, worker, device)
    {
      total := 0.0;
      if Key(worker, device) !in reservations { return; }
      var rest := reservations[Key(worker, device)];
      while rest != map[]
        invariant total + Sum(rest) == Held(reservations, worker, device)
        decreases |rest|
      {
        var k :| k in rest;
        SumWithout(rest, k);
        SmallerWithout(rest, k);
        total := total + rest[k];
        rest := rest - {k};
      }
    }

    /**
     * Refresh the cached figure of the first device with this index. NaN indices
     * match no device.
     */
    method RecomputeDeviceBudget(worker: string, device: Option<nat>)
      modifies this`budgets
      ensures SameReports(old(budgets), budgets)
      ensures worker !in old(budgets) || device.None? ==> budgets == old(budgets)
      ensures DistinctIndices(old(budgets)) ==> DistinctIndices(budgets)
      ensures device.Some? ==> TouchedOnly(old(budgets), budgets, worker, device.value)
      ensures device.Some? && DistinctIndices(old(budgets)) ==>
                Refreshed(old(budgets), budgets, reservations, worker, device.value)
    {
      if worker !in budgets || device.None? { return; }
      var devices := budgets[worker].devices;
      var i := 0;
      while i < |devices| && devices[i].index != device.value
        invariant 0 <= i <= |devices|
        invariant forall j :: 0 <= j < i ==> devices[j].index != device.value
      {
        i := i + 1;
      }
      if i == |devices| { return; }
      var held := GetReservation(worker, device.value);
      var d := devices[i];
      var updated := devices[i := d.(available := Available(d.total, d.used, held))];
      budgets := budgets[worker := budgets[worker].(devices := updated)];
    }

    method ReserveCapacity(worker: string, device: nat, instance: string, bytes: real)
      requires Valid()
      modifies this
      ensures Valid() && SameReports(old(budgets), budgets)
      ensures reservations == Reserved(old(reservations), Key(worker, device), instance, bytes)
    {
      var key := Key(worker, device);
      KeyRoundTrip(worker, device);
      reservations := reservations[key := HoldsAt(reservations, key)[instance := bytes]];
      ghost var before := budgets;
      RecomputeDeviceBudget(worker, Some(device));
      forall w, i | w in budgets && 0 <= i < |budgets[w].devices|
        ensures ExactDevice(reservations, w, budgets[w].devices[i])
      {
        HeldAfterReserve(old(reservations), worker, device, instance, bytes, w, budgets[w].devices[i].index);
        assert ExactDevice(old(reservations), w, before[w].devices[i]);
      }
    }

    method ReleaseAt(key: string, instance: string)
      requires Valid() && key in reservations
      modifies this
      ensures Valid() && SameReports(old(budgets), budgets)
      ensures reservations == ReleasedAt(old(reservations), key, instance)
    {
      if instance !in reservations[key] { return; }
      ghost var before, holds := budgets, reservations;
      var left := reservations[key] - {instance};
      if left == map[] {
        reservations := reservations - {key};
      } else {
        reservations := reservations[key := left];
      }
      var worker, device := WorkerOf(key), DeviceOf(key);
      RecomputeDeviceBudget(worker, device);
      RefreshedIsExact(before, budgets, holds, reservations, worker, device.value);
    }

    /** Release an instance's holds on every device of every worker. */
    method ReleaseInstanceReservations(instance: string)
      requires Valid()
      modifies this
      ensures Valid() && SameReports(old(budgets), budgets)
      ensures reservations == Released(old(reservations), instance)
    {
      var todo := reservations.Keys;
      while todo != {}
        invariant Valid() && SameReports(old(budgets), budgets)
        invariant PartlyReleased(old(reservations), reservations, todo, instance)
        decreases |todo|
      {
        var key :| key in todo;
        ReleaseProgress(old(reservations), reservations, todo, key, instance);
        ghost var before := budgets;
        ReleaseAt(key, instance);
        SameReportsTransitive(old(budgets), before, budgets);
        todo := todo - {key};
      }
      ReleaseDone(old(reservations), reservations, instance);
    }

    method ClearAt(worker: string, key: string)
      requires WellKeyed(reservations) && key in reservations && HasPrefix(key, worker)
      modifies this
      ensures SameReports(old(budgets), budgets) && WellKeyed(reservations)
      ensures worker !in old(budgets) ==> budgets == old(budgets)
      ensures reservations == old(reservations) - {key}
      ensures old(Valid()) && WorkerOf(key) == worker ==> Valid()
    {
      ghost var before, holds := budgets, reservations;
      reservations := reservations - {key};
      RecomputeDeviceBudget(worker, Number(key[|worker| + 1..]));
      if Exact(before, holds) && DistinctIndices(before) && WorkerOf(key) == worker {
        PrefixMeansWorker(key, worker, WorkerOf(key), DeviceOf(key).value);
        NumberInvertsDecimal(DeviceOf(key).value);
        RefreshedIsExact(before, budgets, holds, reservations, worker, DeviceOf(key).value);
      }
    }

    /**
     * Drop every hold of a worker. Keys are matched by their text, so this also
     * drops, without refreshing them, the holds of a worker whose name continues
     * this one behind a colon.
     */
    method ClearWorkerReservations(worker: string)
      requires WellKeyed(reservations)
      modifies this
      ensures SameReports(old(budgets), budgets) && WellKeyed(reservations)
      ensures worker !in old(budgets) ==> budgets == old(budgets)
      ensures reservations == ClearedAll(old(reservations), {worker})
      ensures old(Valid()) && NoClash(old(reservations), worker) ==> Valid()
    {
      ghost var clean := Valid() && NoClash(reservations, worker);
      var todo := reservations.Keys;
      while todo != {}
        invariant SameReports(old(budgets), budgets) && WellKeyed(reservations)
        invariant worker !in old(budgets) ==> budgets == old(budgets)
        invariant clean ==> Valid()
        invariant PartlyCleared(old(reservations), reservations, todo, worker)
        decreases |todo|
      {
        var key :| key in todo;
        ClearProgress(old(reservations), reservations, todo, key, worker);
        todo := todo - {key};
        if HasPrefix(key, worker) {
          ghost var before := budgets;
          ClearAt(worker, key);
          SameReportsTransitive(old(budgets), before, budgets);
        }
      }
      ClearDone(old(reservations), reservations, worker);
    }

    /** Validate a report; the first malformed device rejects all of it. */
    method ParseReport(worker: string, report: Report) returns (b: Option<WorkerBudget>)
      ensures b.Some? <==> ValidReport(report)
      ensures b.Some? ==> Reflects(report, b.value)
      ensures b.Some? ==>
                forall i :: 0 <= i < |b.value.devices| ==> ExactDevice(reservations, worker, b.value.devices[i])
    {
      if report.Malformed? { return None; }
      var devices := [];
      for i := 0 to |report.devices|
        invariant |devices| == i
        invariant forall j :: 0 <= j < i ==> ValidDevice(report.devices[j]) && Reports(report.devices[j], devices[j])
        invariant forall j :: 0 <= j < i ==> ExactDevice(reservations, worker, devices[j])
      {
        var raw := report.devices[i];
        if !ValidDevice(raw) { return None; }
        var index, total, used := raw.index.value.Floor, raw.total.value.Floor, raw.used.value.Floor;
        var held := GetReservation(worker, index);
        devices := devices + [DeviceBudget(index, raw.kind.text, total, used, Available(total, used, held))];
      }
      b := Some(WorkerBudget(devices, report.at));
    }

    /** Read one worker's report; None means that there is none any more. */
    method RefreshWorkerBudget(worker: string, report: Option<Report>) returns (b: Option<WorkerBudget>)
      requires Valid()
      modifies this
      ensures b.Some? <==> report.Some? && ValidReport(report.value)
      ensures b.Some? ==> Reflects(report.value, b.value) && budgets == old(budgets)[worker := b.value]
      ensures b.None? ==> SameReports(old(budgets) - {worker}, budgets)
      ensures reservations == if report.None? then ClearedAll(old(reservations), {worker}) else old(reservations)
      ensures (if report.None? then NoClash(old(reservations), worker) else DistinctReport(report.value)) ==> Valid()
    {
      if report.None? {
        budgets := budgets - {worker};
        ClearWorkerReservations(worker);
        return None;
      }
      b := ParseReport(worker, report.value);
      if b.None? {
        budgets := budgets - {worker};
      } else {
        if DistinctReport(report.value) { ReflectedDistinct(report.value, b.value); }
        budgets := budgets[worker := b.value];
      }
    }

    /** First pass of refreshAll: replace the budget of every worker whose report is well formed. */
    method ReadReports(fetched: Fetched) returns (seen: set<string>)
      requires Valid()
      modifies this`budgets
      ensures forall w :: w in seen <==> Seen(fetched, w)
      ensures budgets.Keys == old(budgets).Keys + seen
      ensures forall w :: w in seen ==> exists i :: 0 <= i < |fetched| && From(fetched[i], w, budgets[w])
      ensures Exact(budgets, reservations)
      ensures DistinctFetched(fetched) ==> Valid()
    {
      seen := {};
      for n := 0 to |fetched|
        invariant forall w :: w in seen <==> Seen(fetched[..n], w)
        invariant budgets.Keys == old(budgets).Keys + seen
        invariant forall w :: w in seen ==> exists i :: 0 <= i < n && From(fetched[i], w, budgets[w])
        invariant Exact(budgets, reservations)
        invariant DistinctFetched(fetched) ==> Valid()
      {
        SeenNext(fetched, n);
        var (worker, report) := fetched[n];
        if report.Some? {
          var b := ParseReport(worker, report.value);
          if b.Some? {
            if DistinctReport(report.value) { ReflectedDistinct(report.value, b.value); }
            budgets := budgets[worker := b.value];
            seen := seen + {worker};
            assert From(fetched[n], worker, budgets[worker]);
          }
        }
      }
      assert fetched[..|fetched|] == fetched;
    }

    /** Forget a worker that no longer reports, together with its holds. */
    method Forget(worker: string)
      requires WellKeyed(reservations)
      modifies this
      ensures budgets == old(budgets) - {worker}
      ensures WellKeyed(reservations) && reservations == ClearedAll(old(reservations), {worker})
      ensures old(Valid()) && NoColons(old(reservations)) ==> Valid() && NoColons(reservations)
    {
      if NoColons(reservations) { NoColonsNoClash(reservations, worker); }
      budgets := budgets - {worker};
      ClearWorkerReservations(worker);
    }

    /** Second pass of refreshAll: forget the workers that were not seen. */
    method DropVanished(seen: set<string>)
      requires WellKeyed(reservations)
      modifies this
      ensures Dropped(old(budgets), old(reservations), old(budgets).Keys - seen, budgets, reservations)
      ensures old(Valid()) && NoColons(old(reservations)) ==> Valid()
    {
      ghost var b, rs := budgets, reservations;
      ghost var gone: set<string> := {};
      ghost var clean := Valid() && NoColons(reservations);
      ClearedTwice(rs, {}, "");
      var todo := budgets.Keys - seen;
      while todo != {}
        invariant gone + todo == b.Keys - seen
        invariant WellKeyed(reservations) && Dropped(b, rs, gone, budgets, reservations)
        invariant clean ==> Valid() && NoColons(reservations)
        decreases |todo|
      {
        var worker :| worker in todo;
        todo := todo - {worker};
        DropOne(b, rs, gone, budgets, reservations, worker);
        gone := gone + {worker};
        Forget(worker);
      }
    }

    /** Read every report in one pipeline; `fetched` is None when the pipeline itself failed. */
    method RefreshAll(fetched: Option<Fetched>)
      requires Valid()
      modifies this
      ensures fetched.None? ==> budgets == old(budgets) && reservations == old(reservations)
      ensures fetched == Some([]) ==> budgets == map[] && reservations == map[]
      ensures fetched.Some? && fetched.value != [] ==>
                && (forall w :: w in budgets <==> Seen(fetched.value, w))
                && reservations == ClearedAll(old(reservations), old(budgets).Keys - budgets.Keys)
                && forall w :: w in budgets ==>
                     exists i :: 0 <= i < |fetched.value| && From(fetched.value[i], w, budgets[w])
      ensures (fetched.Some? ==> DistinctFetched(fetched.value)) && NoColons(old(reservations)) ==> Valid()
    {
      if fetched.None? { return; }
      if fetched.value == [] {
        budgets, reservations := map[], map[];
        return;
      }
      var seen := ReadReports(fetched.value);
      assert old(budgets).Keys - seen == budgets.Keys - seen;
      DropVanished(seen);
    }
  }
}
