/**
 * Leader election over a Kubernetes Lease
 * (control-plane/src/services/leader-election.ts) as a timed step machine.
 *
 * Time is in milliseconds. Every process has its own clock, a constant offset
 * away from real time. A request is read or applied by the API server at some
 * moment after it was sent, possibly after its sender has given up on it; a
 * write is applied only if it names the current resource version. Timers are on
 * time: a process acts on a tick, and on the end of a request timeout, before
 * real time passes it, and a request that uses up its timeout settles before a
 * tick due at the same moment.
 */
module LeaderElection {
  import opened Options

  /** renewIntervalMs, the fetch timeout, leaseDurationMs, and the largest clock difference. */
  datatype Config = Config(interval: nat, timeout: nat, duration: nat, skew: nat)

  /** The constants of the deployed control plane, with 5 s left for clock skew. */
  const DEPLOYED := Config(10_000, 5_000, 30_000, 5_000)

  /** The lease lasts through a renew interval, three request timeouts and the clock skew. */
  predicate Safe(k: Config) {
    k.interval + 3 * k.timeout + k.skew <= k.duration
  }

  type Id = nat

  /**
   * The Lease object. `renewTime` is the holder's clock reading; `written` is the
   * real time of that reading, which no process ever sees.
   */
  datatype Lease = Lease(version: nat, holder: Id, renewTime: int, written: int)

  /** A POST (expected is None) or PUT on its way to the API server. */
  datatype Write = Write(from: Id, expected: Option<nat>, renewTime: int, written: int)

  /** Whether the pending cycle renews a lease that is held or tries to take it. */
  datatype Goal = Renew | Acquire

  datatype Request =
    | Quiet
    | Getting(goal: Goal, deadline: int)                       // GET sent
    | Got(goal: Goal, lease: Option<Lease>, deadline: int)     // GET answered, reply on its way
    | Putting(goal: Goal, write: Write, deadline: int)         // POST or PUT sent
    | Put(goal: Goal, write: Write, applied: bool, deadline: int) // answered, reply on its way

  /** One control-plane process. `tick` is None until the first acquisition has settled. */
  datatype Process = Process(offset: int, leader: bool, request: Request, tick: Option<int>)

  /** `vouched` records, for a leader, the real time of its last acknowledged renewTime. */
  datatype World = World(
    now: int,
    lease: Option<Lease>,
    nextVersion: nat,
    writes: set<Write>,
    procs: map<Id, Process>,
    vouched: map<Id, int>)

  datatype Event =
    | Start(p: Id)                 // start(): the first tryAcquire
    | Tick(p: Id)                  // the interval fires
    | Serve(p: Id)                 // the API server reads the lease for a GET
    | Receive(p: Id)               // the GET reply arrives
    | Land(w: Write)               // the API server decides a write
    | Acknowledge(p: Id)           // the reply to the write arrives
    | Fail(p: Id)                  // the pending request throws
    | Restart(p: Id)               // the process dies and comes back under the same identity
    | Pass(d: nat)                 // real time passes

  predicate Deadlines(w: World, until: int) {
    && (forall p :: p in w.procs && !w.procs[p].request.Quiet? ==> until <= w.procs[p].request.deadline)
    && (forall p :: p in w.procs && w.procs[p].tick.Some? ==> until <= w.procs[p].tick.value)
  }

  /** isLeaseExpired, by the clock of a process with this offset. */
  predicate Expired(k: Config, now: int, offset: int, l: Lease) {
    now + offset > l.renewTime + k.duration
  }

  predicate Enabled(k: Config, w: World, ev: Event) {
    match ev
    case Start(p) => p in w.procs && w.procs[p].tick.None? && w.procs[p].request.Quiet?
    case Tick(p) => p in w.procs && w.procs[p].tick == Some(w.now) && w.procs[p].request.Quiet?
    case Serve(p) => p in w.procs && w.procs[p].request.Getting?
    case Receive(p) => p in w.procs && w.procs[p].request.Got?
    case Land(m) => m in w.writes
    case Acknowledge(p) => p in w.procs && w.procs[p].request.Put?
    case Fail(p) => p in w.procs && !w.procs[p].request.Quiet?
    case Restart(p) => p in w.procs
    case Pass(d) => Deadlines(w, w.now + d)
  }

  function SetProc(w: World, p: Id, q: Process): World {
    w.(procs := w.procs[p := q])
  }

  /** A cycle has settled; after the very first one the interval timer starts. */
  function Settle(k: Config, w: World, p: Id, leader: bool): World
    requires p in w.procs
  {
    var q := w.procs[p];
    SetProc(w, p, Process(q.offset, leader, Quiet,
                          if q.tick.Some? then q.tick else Some(w.now + k.interval)))
  }

  /** Send the write that claims or renews the lease, stamped with the sender's clock. */
  function Send(k: Config, w: World, p: Id, goal: Goal, expected: Option<nat>): World
    requires p in w.procs
  {
    var q := w.procs[p];
    var m := Write(p, expected, w.now + q.offset, w.now);
    SetProc(w.(writes := w.writes + {m}), p, q.(request := Putting(goal, m, w.now + k.timeout)))
  }

  /** The version check of the API server. */
  predicate Accepted(w: World, m: Write) {
    match m.expected
    case None => w.lease.None?
    case Some(v) => w.lease.Some? && w.lease.value.version == v
  }

  function Apply(k: Config, w: World, ev: Event): World
    requires Enabled(k, w, ev)
  {
    match ev
    case Start(p) =>
      SetProc(w, p, w.procs[p].(request := Getting(Acquire, w.now + k.timeout)))
    case Tick(p) =>
      var q := w.procs[p];
      SetProc(w, p, q.(request := Getting(if q.leader then Renew else Acquire, w.now + k.timeout),
                       tick := Some(w.now + k.interval)))
    case Serve(p) =>
      var q := w.procs[p];
      SetProc(w, p, q.(request := Got(q.request.goal, w.lease, q.request.deadline)))
    case Receive(p) =>
      var q := w.procs[p];
      var seen := q.request.lease;
      (match q.request.goal
       case Acquire =>
         if seen.None? || Expired(k, w.now, q.offset, seen.value)
         then Send(k, w, p, Acquire, if seen.None? then None else Some(seen.value.version))
         else Settle(k, w, p, q.leader)
       case Renew =>
         if seen.Some? && seen.value.holder == p
         then Send(k, w, p, Renew, Some(seen.value.version))
         else Settle(k, w, p, false))
    case Land(m) =>
      var ok := Accepted(w, m);
      var w' := w.(writes := w.writes - {m});
      var w'' := if ok
                 then w'.(lease := Some(Lease(w.nextVersion, m.from, m.renewTime, m.written)),
                          nextVersion := w.nextVersion + 1)
                 else w';
      if m.from in w.procs && w.procs[m.from].request.Putting? && w.procs[m.from].request.write == m then
        var q := w.procs[m.from];
        SetProc(w'', m.from, q.(request := Put(q.request.goal, m, ok, q.request.deadline)))
      else w''
    case Acknowledge(p) =>
      var q := w.procs[p];
      if !q.request.applied then Settle(k, w, p, false)
      else Settle(k, w, p, true).(vouched := w.vouched[p := q.request.write.written])
    case Fail(p) => Settle(k, w, p, false)
    case Restart(p) => SetProc(w, p, Process(w.procs[p].offset, false, Quiet, None))
    case Pass(d) => w.(now := w.now + d)
  }

  // ---------------------------------------------------------------------
  // Runs
  // ---------------------------------------------------------------------

  /** Nobody has started; there may be a lease left over from processes that are gone. */
  predicate Initial(k: Config, w: World) {
    && w.writes == {} && w.vouched == map[]
    && (w.lease.Some? ==> w.lease.value.version < w.nextVersion)
    && (forall p :: p in w.procs ==> w.procs[p] == Process(w.procs[p].offset, false, Quiet, None))
    && (forall p, q :: p in w.procs && q in w.procs ==> w.procs[q].offset - w.procs[p].offset <= k.skew)
  }

  ghost predicate Next(k: Config, w: World, w': World) {
    exists ev :: Enabled(k, w, ev) && w' == Apply(k, w, ev)
  }

  ghost predicate Run(k: Config, run: seq<World>) {
    && run != []
    && Initial(k, run[0])
    && forall i :: 0 < i < |run| ==> Next(k, run[i - 1], run[i])
  }

  predicate Leads(w: World, p: Id) {
    p in w.procs && w.procs[p].leader
  }

  ghost predicate AtMostOneLeader(w: World) {
    forall p, q :: Leads(w, p) && Leads(w, q) ==> p == q
  }

  // ---------------------------------------------------------------------
  // Invariant
  // ---------------------------------------------------------------------

  /** What holds of each process on its own. */
  ghost predicate ProcInv(k: Config, w: World, p: Id)
    requires p in w.procs
  {
    var q := w.procs[p];
    var r := q.request;
    && (q.tick.Some? ==> q.tick.value <= w.now + k.interval)
    && (!r.Quiet? ==> (r.goal == Renew <==> q.leader))
    && (r.Putting? || r.Put? ==>
          r.write.from == p && r.write.written <= w.now && r.deadline == r.write.written + k.timeout)
    && (r.Got? && r.lease.Some? ==>
          && w.lease.Some? && r.lease.value.version <= w.lease.value.version
          && (r.lease.value.version == w.lease.value.version ==> r.lease == w.lease))
  }

  /** What holds of each write on its way. */
  ghost predicate WriteInv(w: World, m: Write) {
    && m.from in w.procs && m.written <= w.now
    && m.renewTime == m.written + w.procs[m.from].offset
    && (m.expected.Some? ==> m.expected.value < w.nextVersion)
  }

  predicate Aims(w: World, m: Write) {
    w.lease.Some? && m.expected == Some(w.lease.value.version)
  }

  predicate HeldBy(w: World, p: Id) {
    && w.lease.Some? && p in w.procs && w.lease.value.holder == p
    && w.lease.value.renewTime == w.lease.value.written + w.procs[p].offset
  }

  /** A write that has been applied and not yet acknowledged is still the last one. */
  ghost predicate AppliedInv(k: Config, w: World, p: Id)
    requires p in w.procs
  {
    w.procs[p].request.Put? && w.procs[p].request.applied ==>
      && HeldBy(w, p) && w.lease.value.written == w.procs[p].request.write.written
      && forall m :: m in w.writes ==> !Aims(w, m)
  }

  /** The time by which a leader must have settled what it is doing now. */
  function Limit(k: Config, q: Process, vouched: int): int {
    match q.request
    case Quiet => vouched + k.timeout + k.interval
    case Getting(_, _) => vouched + 2 * k.timeout + k.interval
    case Got(_, _, _) => vouched + 2 * k.timeout + k.interval
    case Putting(_, _, _) => vouched + 3 * k.timeout + k.interval
    case Put(_, _, _, _) => vouched + 3 * k.timeout + k.interval
  }

  /** A leader holds the lease, settles in time, and nobody else can still overwrite it. */
  ghost predicate LeaderInv(k: Config, w: World, p: Id)
    requires p in w.procs
  {
    w.procs[p].leader ==>
      var q := w.procs[p];
      && HeldBy(w, p) && p in w.vouched && w.vouched[p] <= w.lease.value.written && w.vouched[p] <= w.now
      && (q.request.Quiet? ==> q.tick.Some? && q.tick.value <= Limit(k, q, w.vouched[p]))
      && (!q.request.Quiet? ==> q.request.deadline <= Limit(k, q, w.vouched[p]))
      && forall m :: m in w.writes && Aims(w, m) ==> m.from == p && w.vouched[p] <= m.written
  }

  ghost predicate Inv(k: Config, w: World) {
    && (w.lease.Some? ==> w.lease.value.version < w.nextVersion)
    && (forall p, q :: p in w.procs && q in w.procs ==> w.procs[q].offset - w.procs[p].offset <= k.skew)
    && Deadlines(w, w.now)
    && (forall p :: p in w.procs ==> ProcInv(k, w, p) && AppliedInv(k, w, p) && LeaderInv(k, w, p))
    && (forall m :: m in w.writes ==> WriteInv(w, m))
  }

  /** A leader is never past its limit. */
  lemma LeaderInTime(k: Config, w: World, p: Id)
    requires Inv(k, w) && p in w.procs && w.procs[p].leader
    ensures w.now <= w.vouched[p] + 3 * k.timeout + k.interval
  {}

  /** While a leader holds the lease, or a write that took it is unacknowledged, nobody sees it expired. */
  lemma NotExpired(k: Config, w: World, p: Id, j: Id)
    requires Safe(k) && Inv(k, w) && p in w.procs && j in w.procs
    requires w.procs[p].leader || (w.procs[p].request.Put? && w.procs[p].request.applied)
    ensures w.lease.Some? && !Expired(k, w.now, w.procs[j].offset, w.lease.value)
  {
    if w.procs[p].leader { LeaderInTime(k, w, p); }
    assert w.procs[j].offset - w.procs[p].offset <= k.skew;
  }

  /** Changing one process, and nothing else, only has to be checked for that process. */
  lemma LocalStep(k: Config, w: World, p: Id, q: Process)
    requires Inv(k, w) && p in w.procs && q.offset == w.procs[p].offset
    requires !q.request.Quiet? ==> w.now <= q.request.deadline
    requires q.tick.Some? ==> w.now <= q.tick.value
    requires ProcInv(k, SetProc(w, p, q), p)
    requires AppliedInv(k, SetProc(w, p, q), p) && LeaderInv(k, SetProc(w, p, q), p)
    ensures Inv(k, SetProc(w, p, q))
  {
    var w' := SetProc(w, p, q);
    forall o | o in w'.procs ensures ProcInv(k, w', o) && AppliedInv(k, w', o) && LeaderInv(k, w', o) {
      if o != p { assert ProcInv(k, w, o) && AppliedInv(k, w, o) && LeaderInv(k, w, o); }
    }
    forall m | m in w'.writes ensures WriteInv(w', m) { assert WriteInv(w, m); }
  }

  lemma BeginKeepsInv(k: Config, w: World, ev: Event)
    requires Inv(k, w) && Enabled(k, w, ev) && (ev.Start? || ev.Tick? || ev.Serve? || ev.Restart?)
    ensures Inv(k, Apply(k, w, ev))
  {
    assert LeaderInv(k, w, ev.p);
    LocalStep(k, w, ev.p, Apply(k, w, ev).procs[ev.p]);
  }

  /** Ending a cycle without leadership is always safe. */
  lemma SettleKeepsInv(k: Config, w: World, p: Id)
    requires Inv(k, w) && p in w.procs
    ensures Inv(k, Settle(k, w, p, false))
  {
    LocalStep(k, w, p, Settle(k, w, p, false).procs[p]);
  }

  lemma FailKeepsInv(k: Config, w: World, p: Id)
    requires Inv(k, w) && Enabled(k, w, Fail(p))
    ensures Inv(k, Apply(k, w, Fail(p)))
  {
    SettleKeepsInv(k, w, p);
  }

  /** A write may leave if it does not aim at a lease that somebody else relies on. */
  lemma AddWrite(k: Config, w: World, m: Write)
    requires Inv(k, w) && WriteInv(w, m)
    requires Aims(w, m) ==> forall o :: o in w.procs ==>
               && !(w.procs[o].request.Put? && w.procs[o].request.applied)
               && (w.procs[o].leader ==> m.from == o && w.vouched[o] <= m.written)
    ensures Inv(k, w.(writes := w.writes + {m}))
  {
    var w' := w.(writes := w.writes + {m});
    forall o | o in w'.procs ensures ProcInv(k, w', o) { assert ProcInv(k, w, o); }
    forall o | o in w'.procs ensures AppliedInv(k, w', o) { assert AppliedInv(k, w, o); }
    forall o | o in w'.procs ensures LeaderInv(k, w', o) { assert LeaderInv(k, w, o); }
    forall n | n in w'.writes ensures WriteInv(w', n) { if n != m { assert WriteInv(w, n); } }
  }

  lemma SendKeepsInv(k: Config, w: World, p: Id, goal: Goal, expected: Option<nat>)
    requires Inv(k, w) && p in w.procs && w.procs[p].request.Got? && w.procs[p].request.goal == goal
    requires expected.Some? ==> expected.value < w.nextVersion
    requires w.lease.Some? && expected == Some(w.lease.value.version) ==>
               forall o :: o in w.procs && o != p ==>
                 !w.procs[o].leader && !(w.procs[o].request.Put? && w.procs[o].request.applied)
    ensures Inv(k, Send(k, w, p, goal, expected))
  {
    var w' := Send(k, w, p, goal, expected);
    var m := w'.procs[p].request.write;
    assert ProcInv(k, w, p) && LeaderInv(k, w, p);
    AddWrite(k, w, m);
    LocalStep(k, w.(writes := w.writes + {m}), p, w'.procs[p]);
  }

  lemma ReceiveKeepsInv(k: Config, w: World, p: Id)
    requires Safe(k) && Inv(k, w) && Enabled(k, w, Receive(p))
    ensures Inv(k, Apply(k, w, Receive(p)))
  {
    var q := w.procs[p];
    var seen := q.request.lease;
    assert ProcInv(k, w, p);
    if seen.Some? && w.lease == seen {
      forall o | o in w.procs && o != p
        ensures (q.request.goal == Acquire && Expired(k, w.now, q.offset, seen.value))
                || (q.request.goal == Renew && seen.value.holder == p) ==>
                  !w.procs[o].leader && !(w.procs[o].request.Put? && w.procs[o].request.applied)
      {
        assert AppliedInv(k, w, o) && LeaderInv(k, w, o);
        if w.procs[o].leader || (w.procs[o].request.Put? && w.procs[o].request.applied) {
          NotExpired(k, w, o, p);
        }
      }
    }
    match q.request.goal
    case Acquire =>
      if seen.None? { SendKeepsInv(k, w, p, Acquire, None); }
      else if Expired(k, w.now, q.offset, seen.value) { SendKeepsInv(k, w, p, Acquire, Some(seen.value.version)); }
      else { SettleKeepsInv(k, w, p); }
    case Renew =>
      if seen.Some? && seen.value.holder == p { SendKeepsInv(k, w, p, Renew, Some(seen.value.version)); }
      else { SettleKeepsInv(k, w, p); }
  }

  lemma DropWrite(k: Config, w: World, m: Write)
    requires Inv(k, w)
    ensures Inv(k, w.(writes := w.writes - {m}))
  {
    var w' := w.(writes := w.writes - {m});
    forall o | o in w'.procs ensures ProcInv(k, w', o) { assert ProcInv(k, w, o); }
    forall o | o in w'.procs ensures AppliedInv(k, w', o) { assert AppliedInv(k, w, o); }
    forall o | o in w'.procs ensures LeaderInv(k, w', o) { assert LeaderInv(k, w, o); }
    forall n | n in w'.writes ensures WriteInv(w', n) { assert WriteInv(w, n); }
  }

  /** The lease as an accepted write leaves it. */
  function Written(w: World, m: Write): World {
    w.(writes := w.writes - {m},
       lease := Some(Lease(w.nextVersion, m.from, m.renewTime, m.written)),
       nextVersion := w.nextVersion + 1)
  }

  /** An accepted write comes from the leader or from a time without one. */
  lemma AcceptedKeepsInv(k: Config, w: World, m: Write)
    requires Inv(k, w) && m in w.writes && Accepted(w, m)
    ensures Inv(k, Written(w, m))
    ensures forall n :: n in w.writes ==> !Aims(Written(w, m), n)
  {
    var w' := Written(w, m);
    assert WriteInv(w, m);
    forall n | n in w.writes ensures !Aims(w', n) && WriteInv(w', n) { assert WriteInv(w, n); }
    forall o | o in w'.procs ensures ProcInv(k, w', o) { assert ProcInv(k, w, o); }
    forall o | o in w'.procs ensures AppliedInv(k, w', o) && LeaderInv(k, w', o) {
      assert AppliedInv(k, w, o) && LeaderInv(k, w, o);
      if w.lease.Some? { assert Aims(w, m); }
    }
  }

  lemma LandKeepsInv(k: Config, w: World, m: Write)
    requires Inv(k, w) && m in w.writes
    ensures Inv(k, Apply(k, w, Land(m)))
  {
    var p := m.from;
    var w1 := if Accepted(w, m) then Written(w, m) else w.(writes := w.writes - {m});
    if Accepted(w, m) { AcceptedKeepsInv(k, w, m); } else { DropWrite(k, w, m); }
    assert WriteInv(w, m);
    var w' := Apply(k, w, Land(m));
    if w.procs[p].request.Putting? && w.procs[p].request.write == m {
      assert ProcInv(k, w1, p) && LeaderInv(k, w1, p);
      LocalStep(k, w1, p, w'.procs[p]);
    }
  }

  lemma AcknowledgeKeepsInv(k: Config, w: World, p: Id)
    requires Inv(k, w) && Enabled(k, w, Acknowledge(p))
    ensures Inv(k, Apply(k, w, Acknowledge(p)))
  {
    if !w.procs[p].request.applied {
      SettleKeepsInv(k, w, p);
    } else {
      var w' := Apply(k, w, Acknowledge(p));
      assert ProcInv(k, w, p) && AppliedInv(k, w, p);
      forall o | o in w'.procs ensures ProcInv(k, w', o) && AppliedInv(k, w', o) && LeaderInv(k, w', o) {
        assert ProcInv(k, w, o) && AppliedInv(k, w, o) && LeaderInv(k, w, o);
      }
      forall m | m in w'.writes ensures WriteInv(w', m) { assert WriteInv(w, m); }
    }
  }

  lemma PassKeepsInv(k: Config, w: World, d: nat)
    requires Inv(k, w) && Deadlines(w, w.now + d)
    ensures Inv(k, Apply(k, w, Pass(d)))
  {
    var w' := Apply(k, w, Pass(d));
    forall o | o in w'.procs ensures ProcInv(k, w', o) && AppliedInv(k, w', o) && LeaderInv(k, w', o) {
      assert ProcInv(k, w, o) && AppliedInv(k, w, o) && LeaderInv(k, w, o);
    }
    forall m | m in w'.writes ensures WriteInv(w', m) { assert WriteInv(w, m); }
  }

  lemma StepKeepsInv(k: Config, w: World, ev: Event)
    requires Safe(k) && Inv(k, w) && Enabled(k, w, ev)
    ensures Inv(k, Apply(k, w, ev))
  {
    match ev
    case Start(_) => BeginKeepsInv(k, w, ev);
    case Tick(_) => BeginKeepsInv(k, w, ev);
    case Serve(_) => BeginKeepsInv(k, w, ev);
    case Restart(_) => BeginKeepsInv(k, w, ev);
    case Receive(p) => ReceiveKeepsInv(k, w, p);
    case Land(m) => LandKeepsInv(k, w, m);
    case Acknowledge(p) => AcknowledgeKeepsInv(k, w, p);
    case Fail(p) => FailKeepsInv(k, w, p);
    case Pass(d) => PassKeepsInv(k, w, d);
  }

  lemma {:induction false} RunKeepsInv(k: Config, run: seq<World>, i: nat)
    requires Safe(k) && Run(k, run) && i < |run|
    ensures Inv(k, run[i])
  {
    if i > 0 {
      RunKeepsInv(k, run, i - 1);
      assert Next(k, run[i - 1], run[i]);
      var ev :| Enabled(k, run[i - 1], ev) && run[i] == Apply(k, run[i - 1], ev);
      StepKeepsInv(k, run[i - 1], ev);
    }
  }

  /** Mutual exclusion over every run, for every configuration that leaves the margin. */
  lemma {:induction false} NeverTwoLeaders(k: Config, run: seq<World>, i: nat)
    requires Safe(k) && Run(k, run) && i < |run|
    ensures AtMostOneLeader(run[i])
  {
    RunKeepsInv(k, run, i);
    forall p, q | Leads(run[i], p) && Leads(run[i], q) ensures p == q {
      assert LeaderInv(k, run[i], p) && LeaderInv(k, run[i], q);
    }
  }

  lemma DeployedIsSafe()
    ensures Safe(DEPLOYED) && !Safe(DEPLOYED.(skew := 5_001))
  {}

  // ---------------------------------------------------------------------
  // The margin is needed in full
  // ---------------------------------------------------------------------

  lemma Extend(k: Config, run: seq<World>, ev: Event)
    requires Run(k, run) && Enabled(k, run[|run| - 1], ev)
    ensures Run(k, run + [Apply(k, run[|run| - 1], ev)])
  {
    var w' := Apply(k, run[|run| - 1], ev);
    assert Next(k, run[|run| - 1], w');
    var run' := run + [w'];
    forall i | 0 < i < |run'| ensures Next(k, run'[i - 1], run'[i]) {
      if i < |run| { assert Next(k, run[i - 1], run[i]); }
    }
  }

  lemma Play(k: Config, run: seq<World>, ev: Event) returns (run': seq<World>)
    requires Run(k, run) && Enabled(k, run[|run| - 1], ev)
    ensures Run(k, run') && |run'| == |run| + 1
    ensures run'[|run'| - 1] == Apply(k, run[|run| - 1], ev)
  {
    Extend(k, run, ev);
    run' := run + [Apply(k, run[|run| - 1], ev)];
  }

  /** The stage for two processes whose clocks differ by the skew. */
  ghost predicate Staged(k: Config, w: World, now: int, holder: Process) {
    && w.now == now
    && w.lease == Some(Lease(0, 0, 0, 0)) && w.nextVersion == 1
    && w.procs == map[0 := holder, 1 := Process(k.skew, false, Quiet, None)]
  }

  /** Process 0 has asked for the lease and there is none. */
  lemma Asked(k: Config) returns (run: seq<World>)
    ensures Run(k, run)
    ensures var w := run[|run| - 1];
            && w.now == 0 && w.lease.None? && w.nextVersion == 0 && w.writes == {}
            && w.procs == map[0 := Process(0, false, Got(Acquire, None, k.timeout), None),
                              1 := Process(k.skew, false, Quiet, None)]
  {
    var other := Process(k.skew, false, Quiet, None);
    var w0 := World(0, None, 0, {}, map[0 := Process(0, false, Quiet, None), 1 := other], map[]);
    run := [w0];
    run := Play(k, run, Start(0));
    run := Play(k, run, Serve(0));
  }

  /** Process 0 has created the lease and does not know it yet. */
  lemma Claimed(k: Config) returns (run: seq<World>)
    ensures Run(k, run)
    ensures Staged(k, run[|run| - 1], 0,
                   Process(0, false, Put(Acquire, Write(0, None, 0, 0), true, k.timeout), None))
  {
    run := Asked(k);
    run := Play(k, run, Receive(0));
    var m := Write(0, None, 0, 0);
    assert run[|run| - 1].writes == {m};
    run := Play(k, run, Land(m));
  }

  /** It learns at the last moment that it leads. */
  lemma FreshLeader(k: Config) returns (run: seq<World>)
    ensures Run(k, run)
    ensures Staged(k, run[|run| - 1], k.timeout, Process(0, true, Quiet, Some(k.timeout + k.interval)))
  {
    run := Claimed(k);
    run := Play(k, run, Pass(k.timeout));
    run := Play(k, run, Acknowledge(0));
  }

  /** Its renewal has begun. */
  lemma Renewing(k: Config) returns (run: seq<World>)
    requires 2 * k.timeout <= k.interval
    ensures Run(k, run)
    ensures Staged(k, run[|run| - 1], k.timeout + k.interval,
                   Process(0, true, Getting(Renew, 2 * k.timeout + k.interval), Some(k.timeout + 2 * k.interval)))
  {
    run := FreshLeader(k);
    run := Play(k, run, Pass(k.interval));
    run := Play(k, run, Tick(0));
  }

  /** Its renewal is under way, and as much time as possible has passed. */
  lemma SlowLeader(k: Config) returns (run: seq<World>, holder: Process)
    requires 2 * k.timeout <= k.interval
    ensures Run(k, run) && holder.leader && holder.request.Putting?
    ensures holder.request.deadline == 3 * k.timeout + k.interval
    ensures holder.tick == Some(k.timeout + 2 * k.interval)
    ensures Staged(k, run[|run| - 1], k.interval + 2 * k.timeout, holder)
  {
    run := Renewing(k);
    run := Play(k, run, Pass(k.timeout));
    run := Play(k, run, Serve(0));
    run := Play(k, run, Receive(0));
    holder := run[|run| - 1].procs[0];
  }

  /** Without the margin some run has two leaders, provided two requests fit into an interval. */
  lemma {:induction false} TwoLeaders(k: Config) returns (run: seq<World>)
    requires !Safe(k) && 2 * k.timeout <= k.interval
    ensures Run(k, run) && !AtMostOneLeader(run[|run| - 1])
  {
    var holder;
    run, holder := SlowLeader(k);
    run := Play(k, run, Pass(k.timeout));
    run := Play(k, run, Start(1));
    run := Play(k, run, Serve(1));
    run := Play(k, run, Receive(1));
    var m := run[|run| - 1].procs[1].request.write;
    run := Play(k, run, Land(m));
    run := Play(k, run, Acknowledge(1));
    assert Leads(run[|run| - 1], 0) && Leads(run[|run| - 1], 1);
  }

  /** The constants are right exactly when they leave the margin. */
  lemma {:induction false} MutualExclusionExactly(k: Config)
    requires 2 * k.timeout <= k.interval
    ensures Safe(k) <==> forall run, i :: Run(k, run) && 0 <= i < |run| ==> AtMostOneLeader(run[i])
  {
    if Safe(k) {
      forall run: seq<World>, i: int | Run(k, run) && 0 <= i < |run| ensures AtMostOneLeader(run[i]) {
        NeverTwoLeaders(k, run, i);
      }
    } else {
      var run := TwoLeaders(k);
      assert !AtMostOneLeader(run[|run| - 1]);
    }
  }
}
