/**
 * The bookkeeping below the memory budget: reservation keys as strings
 * (`workerId:deviceIndex`) and sums over the holds of a device
 * (control-plane/src/services/memory-budget.ts).
 */
module Holds {
  import opened Options

  // ---------------------------------------------------------------------
  // Device indices as decimal text
  // ---------------------------------------------------------------------

  predicate IsDigit(c: char) {
    '0' <= c <= '9'
  }

  function Digit(n: nat): char
    requires n < 10
  {
    ('0' as int + n) as char
  }

  /** How a template literal prints a device index. */
  function Decimal(n: nat): (s: string)
    ensures s != [] && forall i :: 0 <= i < |s| ==> IsDigit(s[i])
  {
    if n < 10 then [Digit(n)] else Decimal(n / 10) + [Digit(n % 10)]
  }

  /** JavaScript's Number() on such text; anything but digits is NaN, the empty string is 0. */
  function Number(s: string): Option<nat> {
    if s == [] then Some(0)
    else if !IsDigit(s[|s| - 1]) then None
    else
      var high := Number(s[..|s| - 1]);
      if high.None? then None else Some(10 * high.value + (s[|s| - 1] as int - '0' as int))
  }

  lemma {:induction false} NumberInvertsDecimal(n: nat)
    ensures Number(Decimal(n)) == Some(n)
  {
    var s := Decimal(n);
    if n < 10 {
      assert s[..0] == [];
    } else {
      NumberInvertsDecimal(n / 10);
      assert s[..|s| - 1] == Decimal(n / 10);
    }
  }

  // ---------------------------------------------------------------------
  // Reservation keys
  // ---------------------------------------------------------------------

  function Key(worker: string, device: nat): string {
    worker + ":" + Decimal(device)
  }

  /** lastIndexOf(':'), or the length when there is none. */
  function LastColon(s: string): (i: nat)
    ensures i <= |s|
    ensures i < |s| ==> s[i] == ':' && forall j :: i < j < |s| ==> s[j] != ':'
    ensures i == |s| ==> ':' !in s
  {
    if s == [] then 0
    else if s[|s| - 1] == ':' then |s| - 1
    else
      var i := LastColon(s[..|s| - 1]);
      if i == |s| - 1 then |s| else i
  }

  function WorkerOf(key: string): string {
    key[..LastColon(key)]
  }

  function DeviceOf(key: string): Option<nat> {
    var i := LastColon(key);
    if i == |key| then Number(key) else Number(key[i + 1..])
  }

  /** Decoding a key at its last colon inverts the encoding, whatever the worker is called. */
  lemma {:induction false} KeyRoundTrip(worker: string, device: nat)
    ensures WorkerOf(Key(worker, device)) == worker
    ensures DeviceOf(Key(worker, device)) == Some(device)
  {
    var key := Key(worker, device);
    var digits := Decimal(device);
    assert key[|worker|] == ':';
    forall j | |worker| < j < |key| ensures key[j] != ':' {
      assert key[j] == digits[j - |worker| - 1];
    }
    assert LastColon(key) == |worker|;
    assert key[..|worker|] == worker;
    assert key[|worker| + 1..] == digits;
    NumberInvertsDecimal(device);
  }

  lemma {:induction false} KeyInjective(worker: string, device: nat, worker': string, device': nat)
    requires Key(worker, device) == Key(worker', device')
    ensures worker == worker' && device == device'
  {
    KeyRoundTrip(worker, device);
    KeyRoundTrip(worker', device');
  }

  /** The prefix test of clearWorkerReservations. */
  predicate HasPrefix(key: string, worker: string) {
    worker + ":" <= key
  }

  /** A key carries its own worker's prefix; it carries another's only if that name extends past a colon. */
  lemma {:induction false} PrefixMeansWorker(key: string, worker: string, owner: string, device: nat)
    requires key == Key(owner, device)
    ensures owner == worker ==> HasPrefix(key, worker) && key[|worker| + 1..] == Decimal(device)
    ensures HasPrefix(key, worker) && owner != worker ==> worker + ":" <= owner
    ensures HasPrefix(key, worker) && ':' !in owner ==> owner == worker
  {
    if HasPrefix(key, worker) && owner != worker {
      assert key[|worker|] == ':';
      assert forall j :: |owner| < j < |key| ==> key[j] == Decimal(device)[j - |owner| - 1];
      assert |worker| <= |owner|;
      assert worker == key[..|worker|] && owner == key[..|owner|];
      assert owner[|worker|] == ':';
    }
  }

  // ---------------------------------------------------------------------
  // Sums of holds
  // ---------------------------------------------------------------------

  /** The holds on one device, by instance. */
  type DeviceHolds = map<string, real>

  ghost function Sum(holds: DeviceHolds): real
    decreases |holds|
  {
    if holds == map[] then 0.0
    else
      var k :| k in holds;
      assert |holds - {k}| < |holds| by { SmallerWithout(holds, k); }
      holds[k] + Sum(holds - {k})
  }

  lemma SmallerWithout(holds: DeviceHolds, k: string)
    requires k in holds
    ensures |holds - {k}| == |holds| - 1
  {
    assert (holds - {k}).Keys == holds.Keys - {k};
    assert holds == (holds - {k})[k := holds[k]];
  }

  /** The sum does not depend on the order in which the holds are taken. */
  lemma {:induction false} SumWithout(holds: DeviceHolds, k: string)
    requires k in holds
    ensures Sum(holds) == holds[k] + Sum(holds - {k})
    decreases |holds|
  {
    var j :| j in holds && Sum(holds) == holds[j] + Sum(holds - {j});
    if j != k {
      SmallerWithout(holds, j);
      SmallerWithout(holds, k);
      SumWithout(holds - {j}, k);
      SumWithout(holds - {k}, j);
      assert holds - {j} - {k} == holds - {k} - {j};
    }
  }

  /** Setting a hold replaces the instance's previous one. */
  lemma {:induction false} SumSet(holds: DeviceHolds, k: string, bytes: real)
    ensures Sum(holds[k := bytes]) == bytes + Sum(holds - {k})
  {
    SumWithout(holds[k := bytes], k);
    assert holds[k := bytes] - {k} == holds - {k};
  }

  lemma {:induction false} SumNonNegative(holds: DeviceHolds)
    requires forall k :: k in holds ==> holds[k] >= 0.0
    ensures Sum(holds) >= 0.0
    decreases |holds|
  {
    if holds != map[] {
      var k :| k in holds;
      SumWithout(holds, k);
      SmallerWithout(holds, k);
      SumNonNegative(holds - {k});
    }
  }
}
