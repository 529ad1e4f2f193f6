/**
 * Stopping one instance of a model and forgetting it: stopModel, waitForDrain
 * and refreshModelRoutingState (control-plane/src/services/sleep-wake.ts), the
 * compare-and-set transition (control-plane/src/services/model-lifecycle.ts)
 * and teardownInstance (control-plane/src/routes/models.ts). No other operation
 * runs on the instance meanwhile. Whether a call fails, and whether it does so
 * before or after taking effect, is a nondeterministic choice, so the contracts
 * hold for every pattern of failures.
 */
module StopTeardown {
  import opened Options
  import opened Lifecycle

  // ---------------------------------------------------------------------
  // Waiting for a drain
  // ---------------------------------------------------------------------

  /** One health poll: an unreachable runner, one that reports ERROR, or any other state. */
  datatype Poll =
    | Unreachable
    | Failed(active: Option<nat>)
    | Fine(active: Option<nat>)

  datatype Drain = Drained | RunnerUnavailable | TimedOut

  const MAX_CONSECUTIVE_HEALTH_FAILURES: nat := 3

  predicate Idle(p: Poll) {
    !p.Unreachable? && p.active == Some(0)
  }

  /** Three failed polls in a row, the last of them poll i. */
  predicate Streak(polls: seq<Poll>, i: int)
    requires 0 <= i < |polls|
  {
    i >= 2 && !polls[i].Fine? && !polls[i - 1].Fine? && !polls[i - 2].Fine?
  }

  /** Poll i decides: it is idle, or completes a streak, and no earlier poll did either. */
  predicate Decides(polls: seq<Poll>, i: int)
    requires 0 <= i < |polls|
  {
    && (Idle(polls[i]) || Streak(polls, i))
    && forall j :: 0 <= j < i ==> !Idle(polls[j]) && !Streak(polls, j)
  }

  /** The runner reported ERROR before or at the poll that decides. */
  ghost predicate ReportsError(polls: seq<Poll>) {
    exists i :: 0 <= i < |polls| && polls[i].Failed? && forall j :: 0 <= j < i ==> !Idle(polls[j]) && !Streak(polls, j)
  }

  /** What a drain must end in, said of the whole list of answers until the timeout. */
  ghost predicate Ends(polls: seq<Poll>, d: Drain) {
    match d
    case Drained => exists i :: 0 <= i < |polls| && Decides(polls, i) && !Streak(polls, i)
    case RunnerUnavailable => exists i :: 0 <= i < |polls| && Decides(polls, i) && Streak(polls, i)
    case TimedOut => forall i :: 0 <= i < |polls| ==> !Idle(polls[i]) && !Streak(polls, i)
  }

  /** Every list of answers has exactly one outcome. */
  lemma EndsUnique(polls: seq<Poll>, a: Drain, b: Drain)
    requires Ends(polls, a) && Ends(polls, b)
    ensures a == b
  {
    if a != TimedOut && b != TimedOut {
      var i :| 0 <= i < |polls| && Decides(polls, i) && (a == Drained <==> !Streak(polls, i));
      var j :| 0 <= j < |polls| && Decides(polls, j) && (b == Drained <==> !Streak(polls, j));
      assert i == j;
    }
  }

  // ---------------------------------------------------------------------
  // The store
  // ---------------------------------------------------------------------

  type Id = string
  type Address = string

  datatype Record = Record(state: State, address: Option<Address>, worker: Option<nat>, runner: Option<nat>)

  /** The aggregate of the records, said without listing them. */
  ghost predicate IsAggregate(records: map<Id, Record>, s: State) {
    && (forall id :: id in records ==> Rank(records[id].state) <= Rank(s))
    && (s == Stopped || exists id :: id in records && records[id].state == s)
  }

  /** The routing entry is the one that the aggregate of the records calls for. */
  ghost predicate EntryMatches(records: map<Id, Record>, entry: Option<RoutingState>) {
    exists s :: IsAggregate(records, s) && entry == ToRoutingState(s)
  }

  lemma EntryUnique(records: map<Id, Record>, a: Option<RoutingState>, b: Option<RoutingState>)
    requires EntryMatches(records, a) && EntryMatches(records, b)
    ensures a == b
  {
    var s :| IsAggregate(records, s) && a == ToRoutingState(s);
    var t :| IsAggregate(records, t) && b == ToRoutingState(t);
    if s != Stopped {
      var id :| id in records && records[id].state == s;
      assert Rank(s) <= Rank(t);
    }
    if t != Stopped {
      var id :| id in records && records[id].state == t;
      assert Rank(t) <= Rank(s);
    }
    RankInjective(s, t);
  }

  /** Forgetting a STOPPED record leaves the routing entry right. */
  lemma ForgettingStopped(records: map<Id, Record>, id: Id, entry: Option<RoutingState>)
    requires id in records && records[id].state == Stopped
    requires EntryMatches(records, entry)
    ensures EntryMatches(records - {id}, entry)
  {
    var s :| IsAggregate(records, s) && entry == ToRoutingState(s);
    assert IsAggregate(records - {id}, s) by {
      if s != Stopped {
        var x :| x in records && records[x].state == s;
        assert x in records - {id} && (records - {id})[x].state == s;
      }
    }
  }

  /** An endpoint at the address of an instance, if it has one. */
  function Own(address: Option<Address>): set<Address> {
    if address.Some? then {address.value} else {}
  }

  /** The endpoints are as they should be, or all went with an entry that the other instances do not call for. */
  ghost predicate Spares(due: set<Address>, endpoints: set<Address>, others: map<Id, Record>) {
    endpoints == due || (endpoints == {} && EntryMatches(others, None))
  }

  /** At most the endpoint at the instance's own address left an entry that the other instances call for. */
  ghost predicate SparesOthers(
      before: set<Address>, endpoints: set<Address>, own: set<Address>, others: map<Id, Record>) {
    Spares(before, endpoints, others) || Spares(before - own, endpoints, others)
  }

  /** Another instance is in a state that has a routing entry, whatever the states of the rest. */
  predicate KeepsEntry(others: map<Id, Record>, x: Id) {
    x in others && others[x].state in {Starting, Active, Draining, Sleeping}
  }

  lemma OthersUntouched(records: map<Id, Record>, id: Id, s: State)
    ensures WithState(records, id, s) - {id} == records - {id}
  {}

  /** An instance that drains, failed or stopped holds no entry back: one dropped is one the others do not call for. */
  lemma DropIsDue(records: map<Id, Record>, id: Id)
    requires id in records && records[id].state in {Draining, Error, Stopped}
    requires EntryMatches(records, None)
    ensures EntryMatches(records - {id}, None)
  {
    var s :| IsAggregate(records, s) && ToRoutingState(s) == None;
    assert IsAggregate(records - {id}, s) by {
      assert Rank(records[id].state) <= Rank(s);
      if s != Stopped {
        var x :| x in records && records[x].state == s;
        assert x in records - {id} && (records - {id})[x].state == s;
      }
    }
  }

  /** Once the instance is STOPPED the entry is the one that the others call for. */
  lemma EntryOfOthers(records: map<Id, Record>, id: Id, entry: Option<RoutingState>)
    requires id in records && records[id].state == Stopped && EntryMatches(records, entry)
    ensures entry.None? <==> EntryMatches(records - {id}, None)
  {
    ForgettingStopped(records, id, entry);
    if EntryMatches(records - {id}, None) {
      EntryUnique(records - {id}, None, entry);
    }
  }

  /** The states a stop goes through; `failed` when the runner reported ERROR while draining. */
  function StopPath(from: State, failed: bool): seq<State> {
    match from
    case Pending => [Error, Stopped]
    case Starting => [Error, Stopped]
    case Active => [Draining] + (if failed then [Error, Stopped] else [Stopping, Stopped])
    case Draining => if failed then [Error, Stopped] else [Stopping, Stopped]
    case Sleeping => [Stopping, Stopped]
    case Stopping => [Stopped]
    case Error => [Stopped]
    case Stopped => []
  }

  /** What the states up to the end of the drain are. */
  function Quiet(from: State, failed: bool): seq<State> {
    (if from == Active then [Draining] else []) +
    (if (from == Active || from == Draining) && failed then [Error] else [])
  }

  lemma StopPathValid(from: State, failed: bool)
    ensures ValidPath([from] + StopPath(from, failed))
    ensures ([from] + StopPath(from, failed))[|StopPath(from, failed)|] == Stopped
  {}

  /** The records after a write of one state. */
  function WithState(records: map<Id, Record>, id: Id, s: State): map<Id, Record> {
    if id in records then records[id := records[id].(state := s)] else records
  }

  lemma LastStateStays(records: map<Id, Record>, id: Id, s: State, t: State)
    ensures WithState(WithState(records, id, s), id, t) == WithState(records, id, t)
  {}

  /** An accepted path from one state to another, the first not repeated. */
  predicate Leads(from: State, path: seq<State>, to: State) {
    ValidPath([from] + path) && ([from] + path)[|path|] == to
  }

  lemma LeadsOn(from: State, path: seq<State>, mid: State, to: State)
    requires Leads(from, path, mid) && ValidTransition(mid, to)
    ensures Leads(from, path + [to], to)
  {
    ValidPathConcat([from] + path, [to]);
    assert [from] + (path + [to]) == [from] + path + [to];
  }

  lemma LeadsThrough(from: State, p: seq<State>, mid: State, q: seq<State>, to: State)
    requires Leads(from, p, mid) && Leads(mid, q, to)
    ensures Leads(from, p + q, to)
  {
    forall i | 0 < i < |q| ensures ValidTransition(q[i - 1], q[i]) {
      assert ValidTransition(([mid] + q)[i], ([mid] + q)[i + 1]);
    }
    if q != [] {
      assert ValidTransition(([mid] + q)[0], ([mid] + q)[1]);
    }
    ValidPathConcat([from] + p, q);
    assert [from] + (p + q) == [from] + p + q;
  }

  /** Quietening and settling together are the whole path. */
  lemma StopPathSplit(from: State, failed: bool, mid: State)
    requires Leads(from, Quiet(from, failed), mid)
    ensures Quiet(from, failed) + StopPath(mid, false) == StopPath(from, failed)
  {}

  /** An instance that may be serving, with a runner to ask, was seen idle before it entered STOPPING. */
  ghost predicate StopsDrained(from: State, client: bool, polls: seq<Poll>, path: seq<State>) {
    client && (from == Active || from == Draining) && Stopping in path ==> Ends(polls, Drained)
  }

  /** An instance that may be serving, with a runner to ask, is seen idle before anything else is decided. */
  ghost predicate Drains(from: State, client: bool, polls: seq<Poll>) {
    client && (from == Active || from == Draining) ==> Ends(polls, Drained)
  }

  /** The path the state calls for: through ERROR if the runner reported it, and surely so when no call failed. */
  ghost predicate Prescribed(from: State, client: bool, polls: seq<Poll>, path: seq<State>, sure: bool) {
    || path == StopPath(from, client && ReportsError(polls))
    || (!sure && path == StopPath(from, false))
  }

  ghost predicate Quietened(from: State, client: bool, polls: seq<Poll>, path: seq<State>, sure: bool) {
    path == Quiet(from, client && ReportsError(polls)) || (!sure && path == Quiet(from, false))
  }

  lemma QuietThenSettled(
      from: State, client: bool, polls: seq<Poll>, path: seq<State>, mid: State, sure: bool)
    requires Leads(from, path, mid) && Quietened(from, client, polls, path, sure)
    ensures Prescribed(from, client, polls, path + StopPath(mid, false), sure)
  {
    StopPathSplit(from, path == Quiet(from, true), mid);
  }

  datatype Outcome = NotFound | Settled | Threw

  /** What a worker answers when asked for an instance's runner. */
  datatype Lookup = Absent | Found(runner: nat)

  /** What a worker answers when told to stop a runner. */
  datatype StopReply = Terminated | HttpError(status: nat) | NoReply

  /** A worker told to stop a runner confirmed that it is gone: stopped now, or unknown to it. */
  predicate StopConfirmed(runner: nat, told: seq<nat>, reply: StopReply) {
    runner in told && !reply.NoReply? && (reply.HttpError? ==> reply.status == 404)
  }

  /** The runner behind a record on a worker: the recorded one, or the one that the worker reports. */
  predicate Runs(r: Record, lookup: Option<Lookup>, runner: nat) {
    r.worker.Some? && if r.runner.Some? then r.runner.value == runner else lookup == Some(Found(runner))
  }

  /** That runner, and no other, has been told to stop. */
  predicate ToldOwn(before: seq<nat>, told: seq<nat>, r: Record, lookup: Option<Lookup>) {
    |told| == |before| + 1 && told[..|before|] == before && Runs(r, lookup, told[|before|])
  }

  /** The worker of a record is known, and answers what it must about the runner. */
  predicate Reached(r: Record, workers: set<nat>, lookup: Option<Lookup>, reply: StopReply) {
    r.worker.Some? ==>
      && r.worker.value in workers
      && (r.runner.Some? || lookup.Some?)
      && (r.runner.Some? || lookup.value.Found? ==> reply == Terminated || reply == HttpError(404))
  }

  /** The runner of a record on a worker is known to be gone: confirmed so, or never there. */
  predicate RunnerGone(r: Record, lookup: Option<Lookup>, told: seq<nat>, reply: StopReply) {
    r.worker.Some? ==>
      if r.runner.Some? then StopConfirmed(r.runner.value, told, reply)
      else
        && lookup.Some?
        && (lookup.value.Found? ==> StopConfirmed(lookup.value.runner, told, reply))
  }

  class Plane {
    var records: map<Id, Record>
    var endpoints: set<Address>
    var entry: Option<RoutingState>
    var held: set<Id>
    /** The states written, oldest first. */
    ghost var log: seq<State>
    /** The runners that workers were told to stop, oldest first. */
    ghost var told: seq<nat>
    /** The lifecycle store answered the last write to it, or the read that was to decide on one. */
    ghost var answered: bool
    /** Some call to a store has failed. */
    ghost var faulted: bool

    /**
     * The compare-and-set script: only along an accepted edge of the present
     * state. When the store does not answer, the write may have been performed.
     */
    method Transition(id: Id, to: State) returns (ok: bool, ghost wrote: bool)
      modifies this`records, this`log, this`answered, this`faulted
      ensures ok ==> wrote && answered
      ensures wrote ==> id in old(records) && ValidTransition(old(records[id].state), to)
      ensures wrote ==> records == WithState(old(records), id, to) && log == old(log) + [to]
      ensures !wrote ==> records == old(records) && log == old(log)
      ensures !ok && id in old(records) && ValidTransition(old(records[id].state), to) ==> !answered && faulted
      ensures old(faulted) ==> faulted
    {
      var reply: bool := *;
      var performed: bool := *;
      ok, wrote, answered := false, false, true;
      if id in records && ValidTransition(records[id].state, to) {
        ok, wrote, answered, faulted := reply, reply || performed, reply, faulted || !reply;
        if reply || performed {
          records, log := WithState(records, id, to), log + [to];
        }
      }
    }

    /** refreshModelRoutingState: publish the aggregate of the records as they are. */
    method Refresh() returns (ok: bool)
      modifies this`entry, this`endpoints, this`faulted
      ensures var published := EntryMatches(records, entry) && endpoints == if entry.Some? then old(endpoints) else {};
              if ok then published else published || (entry == old(entry) && endpoints == old(endpoints))
      ensures faulted == (old(faulted) || !ok)
    {
      var todo, states := records.Keys, [];
      while todo != {}
        invariant todo <= records.Keys
        invariant forall id :: id in records && id !in todo ==> records[id].state in states
        invariant forall s :: s in states ==> exists id :: id in records && records[id].state == s
        decreases |todo|
      {
        var id :| id in todo;
        todo, states := todo - {id}, states + [records[id].state];
      }
      ok := *;
      faulted := faulted || !ok;
      var performed: bool := *;
      if ok || performed {
        AggregateIsHighest(states);
        assert IsAggregate(records, Aggregate(states));
        entry := RoutingStateOf(states);
        endpoints := if entry.Some? then endpoints else {};
      }
    }

    /** A best-effort write of ERROR, then of the aggregate; both may fail silently. */
    method TransitionToError(id: Id) returns (ghost wrote: bool)
      modifies this`records, this`log, this`answered, this`entry, this`endpoints, this`faulted
      ensures wrote ==> id in old(records) && old(records[id].state) != Error
      ensures wrote ==> records == WithState(old(records), id, Error) && log == old(log) + [Error]
      ensures !wrote ==> records == old(records) && log == old(log)
      ensures id in records ==> records[id].state == Error || !answered
      ensures id in old(records) && old(records[id].state) != Error ==> wrote || faulted
      ensures old(faulted) ==> faulted
      ensures Spares(old(endpoints), endpoints, old(records) - {id})
    {
      var ok, w := Transition(id, Error);
      wrote := w;
      if ok {
        var _ := Refresh();
        OthersUntouched(old(records), id, Error);
        if endpoints != old(endpoints) {
          DropIsDue(records, id);
        }
      }
    }

    /** waitForDrain, given every answer the runner would give until the timeout. */
    method WaitForDrain(id: Id, polls: seq<Poll>) returns (d: Drain, ghost wrote: bool)
      modifies this`records, this`log, this`answered, this`entry, this`endpoints, this`faulted
      ensures Ends(polls, d)
      ensures id in old(records) && old(records[id].state) != Error && ReportsError(polls) ==> wrote || faulted
      ensures old(faulted) ==> faulted
      ensures wrote ==> ReportsError(polls) && id in old(records) && old(records[id].state) != Error
      ensures wrote ==> records == WithState(old(records), id, Error) && log == old(log) + [Error]
      ensures !wrote ==> records == old(records) && log == old(log)
      ensures Spares(old(endpoints), endpoints, old(records) - {id})
    {
      wrote := false;
      OthersUntouched(records, id, Error);
      var failures := 0;
      for i := 0 to |polls|
        invariant failures < MAX_CONSECUTIVE_HEALTH_FAILURES && failures <= i
        invariant forall j :: i - failures <= j < i ==> !polls[j].Fine?
        invariant failures < i ==> polls[i - failures - 1].Fine?
        invariant forall j :: 0 <= j < i ==> !Idle(polls[j]) && !Streak(polls, j)
        invariant wrote ==> ReportsError(polls) && id in old(records) && old(records[id].state) != Error
        invariant wrote ==> records == WithState(old(records), id, Error) && log == old(log) + [Error]
        invariant !wrote ==> records == old(records) && log == old(log)
        invariant Spares(old(endpoints), endpoints, old(records) - {id})
        invariant id in old(records) && old(records[id].state) != Error ==>
                    wrote || faulted || forall j :: 0 <= j < i ==> !polls[j].Failed?
        invariant old(faulted) ==> faulted
      {
        var p := polls[i];
        if p.Failed? {
          ghost var w := TransitionToError(id);
          wrote := wrote || w;
        }
        if !p.Fine? {
          failures := failures + 1;
          if failures >= MAX_CONSECUTIVE_HEALTH_FAILURES {
            assert Decides(polls, i) && Streak(polls, i);
            return RunnerUnavailable, wrote;
          }
        } else {
          failures := 0;
        }
        if !p.Unreachable? && p.active == Some(0) {
          assert Decides(polls, i) && !Streak(polls, i);
          return Drained, wrote;
        }
      }
      d := TimedOut;
    }

    /** An ACTIVE instance becomes DRAINING, and its model is published as it then is. */
    method Claim(id: Id) returns (ok: bool, ghost path: seq<State>)
      requires id in records
      modifies this`records, this`log, this`answered, this`entry, this`endpoints, this`faulted
      ensures id in records && records == WithState(old(records), id, records[id].state)
      ensures log == old(log) + path && (path == [] || path == [Draining])
      ensures Leads(old(records[id].state), path, records[id].state)
      ensures ok ==> path == Quiet(old(records[id].state), false)
      ensures (old(faulted) || !ok) ==> faulted
      ensures Spares(old(endpoints), endpoints, old(records) - {id})
    {
      path := [];
      if records[id].state == Active {
        ghost var wrote;
        ok, wrote := Transition(id, Draining);
        path := if wrote then [Draining] else [];
        if ok {
          ok := Refresh();
          OthersUntouched(old(records), id, Draining);
          if endpoints != old(endpoints) {
            DropIsDue(records, id);
          }
        }
      } else {
        ok := true;
      }
    }

    /** The first half of stopModel: stop new traffic, wait out what is in flight. */
    method Quieten(id: Id, client: bool, polls: seq<Poll>) returns (ok: bool, ghost path: seq<State>)
      requires id in records
      modifies this`records, this`log, this`answered, this`entry, this`endpoints, this`faulted
      ensures id in records && records == WithState(old(records), id, records[id].state)
      ensures log == old(log) + path && Leads(old(records[id].state), path, records[id].state)
      ensures Stopping !in path && Spares(old(endpoints), endpoints, old(records) - {id})
      ensures ok ==> Drains(old(records[id].state), client, polls)
      ensures old(faulted) || (!ok && Drains(old(records[id].state), client, polls)) ==> faulted
      ensures ok ==> Quietened(old(records[id].state), client, polls, path, !faulted)
    {
      var from := records[id].state;
      ok, path := Claim(id);
      if !ok {
        return;
      }
      ghost var failed := false;
      if client && (from == Active || from == Draining) {
        OthersUntouched(old(records), id, records[id].state);
        var d, wrote := WaitForDrain(id, polls);
        if wrote {
          failed := true;
          LeadsOn(from, path, Draining, Error);
          path := path + [Error];
        }
        if d != Drained {
          if Ends(polls, Drained) { EndsUnique(polls, d, Drained); }
          return false, path;
        }
      }
      ok := true;
      assert path == Quiet(from, failed);
    }

    /** The second half: the remaining edges to STOPPED. */
    method Settle(id: Id) returns (ok: bool, ghost path: seq<State>)
      requires id in records && records[id].state != Active
      modifies this`records, this`log, this`answered, this`faulted
      ensures id in records && records == WithState(old(records), id, records[id].state)
      ensures log == old(log) + path && Leads(old(records[id].state), path, records[id].state)
      ensures ok ==> path == StopPath(old(records[id].state), false) && records[id].state == Stopped
      ensures old(faulted) || !ok ==> faulted
    {
      var from := records[id].state;
      ghost var wrote;
      path := [];
      ok := true;
      if from == Pending || from == Starting {
        ok, wrote := Transition(id, Error);
        path := if wrote then [Error] else [];
      } else if from == Draining || from == Sleeping {
        ok, wrote := Transition(id, Stopping);
        path := if wrote then [Stopping] else [];
      }
      if ok && from != Stopped {
        ok, wrote := Transition(id, Stopped);
        path := if wrote then path + [Stopped] else path;
      }
    }

    /** The endpoint leaves the routing entry; an unplaced instance has none. */
    method Detach(address: Option<Address>) returns (ok: bool)
      modifies this`endpoints, this`faulted
      ensures endpoints == old(endpoints) - Own(address) || (!ok && endpoints == old(endpoints))
      ensures faulted == (old(faulted) || !ok)
    {
      ok := true;
      if address.Some? {
        ok := *;
        faulted := faulted || !ok;
        var performed: bool := *;
        if ok || performed {
          endpoints := endpoints - {address.value};
        }
      }
    }

    /** Quieten and detach, then read the record once more. */
    method Withdraw(id: Id, client: bool, polls: seq<Poll>) returns (ok: bool, ghost path: seq<State>)
      requires id in records
      modifies this`records, this`log, this`answered, this`entry, this`endpoints, this`faulted
      ensures id in records && records == WithState(old(records), id, records[id].state)
      ensures log == old(log) + path && Leads(old(records[id].state), path, records[id].state)
      ensures Stopping !in path
      ensures var own, others := Own(old(records[id].address)), old(records) - {id};
              if ok then Spares(old(endpoints) - own, endpoints, others)
              else SparesOthers(old(endpoints), endpoints, own, others)
      ensures ok ==> Drains(old(records[id].state), client, polls)
      ensures old(faulted) || (!ok && Drains(old(records[id].state), client, polls)) ==> faulted
      ensures ok ==> Quietened(old(records[id].state), client, polls, path, !faulted) && records[id].state != Active
    {
      var address := records[id].address;
      ok, path := Quieten(id, client, polls);
      if ok {
        var detached := Detach(address);
        var readable: bool := *;
        faulted := faulted || !readable;
        ok := detached && readable;
      }
    }

    /** The end of stopModel: publish what is left of the model, release the hold. */
    method Release(id: Id, ghost due: set<Address>) returns (ok: bool)
      requires id in records && records[id].state == Stopped && Spares(due, endpoints, records - {id})
      modifies this`entry, this`endpoints, this`held, this`faulted
      ensures ok ==> EntryMatches(records, entry) && endpoints == if entry.Some? then due else {}
      ensures Spares(due, endpoints, records - {id})
      ensures faulted == (old(faulted) || !ok)
      ensures held == if ok then old(held) - {id} else old(held)
    {
      ok := Refresh();
      if EntryMatches(records, entry) {
        EntryOfOthers(records, id, entry);
      }
      if ok {
        held := held - {id};
      }
    }

    /** The body of stopModel; false when it throws. */
    method Stop(id: Id, client: bool, polls: seq<Poll>) returns (ok: bool, ghost path: seq<State>)
      requires id in records
      modifies this`records, this`log, this`answered, this`entry, this`endpoints, this`held, this`faulted
      ensures id in records && records == WithState(old(records), id, records[id].state)
      ensures log == old(log) + path && Leads(old(records[id].state), path, records[id].state)
      ensures StopsDrained(old(records[id].state), client, polls, path)
      ensures ok ==> Prescribed(old(records[id].state), client, polls, path, !faulted)
      ensures ok ==> Drains(old(records[id].state), client, polls)
      ensures old(faulted) || (!ok && Drains(old(records[id].state), client, polls)) ==> faulted
      ensures ok ==> records[id].state == Stopped && EntryMatches(records, entry)
      ensures held == if ok then old(held) - {id} else old(held)
      ensures var own, others := Own(old(records[id].address)), old(records) - {id};
              && SparesOthers(old(endpoints), endpoints, own, others)
              && (ok ==> endpoints == if entry.Some? then old(endpoints) - own else {})
    {
      ghost var r := records[id];
      ok, path := Withdraw(id, client, polls);
      if !ok {
        return;
      }
      ghost var mid, before, sure := records[id].state, path, !faulted;
      var settled, rest := Settle(id);
      LastStateStays(old(records), id, mid, records[id].state);
      LeadsThrough(r.state, before, mid, rest, records[id].state);
      path := before + rest;
      if !settled {
        return false, path;
      }
      QuietThenSettled(r.state, client, polls, before, mid, sure);
      OthersUntouched(old(records), id, Stopped);
      ok := Release(id, old(endpoints) - Own(r.address));
    }

    /**
     * stopModel: STOPPED along the prescribed path, or ERROR when it throws,
     * whatever fails on the way, before or after taking effect; only a first read
     * or a last write that the lifecycle store does not answer can leave another
     * state.
     */
    method StopModel(id: Id, client: bool, polls: seq<Poll>) returns (r: Outcome, ghost path: seq<State>)
      modifies this`records, this`log, this`answered, this`entry, this`endpoints, this`held, this`faulted
      ensures r == NotFound ==> id !in old(records)
      ensures r == Settled ==> id in old(records) && Drains(old(records[id].state), client, polls)
      ensures old(faulted) ==> faulted
      ensures !faulted ==>
                r == if id !in old(records) then NotFound
                     else if Drains(old(records[id].state), client, polls) then Settled
                     else Threw
      ensures id !in old(records) ==> records == old(records) && entry == old(entry) && endpoints == old(endpoints)
      ensures id in records ==> records == WithState(old(records), id, records[id].state)
      ensures records.Keys == old(records.Keys) && log == old(log) + path
      ensures id in records ==> Leads(old(records[id].state), path, records[id].state)
      ensures id in records ==> StopsDrained(old(records[id].state), client, polls, path)
      ensures r == Settled ==> Prescribed(old(records[id].state), client, polls, path, !faulted)
      ensures r == Settled ==> records[id].state == Stopped && EntryMatches(records, entry)
      ensures r == Settled ==> endpoints == if entry.Some? then old(endpoints) - Own(records[id].address) else {}
      ensures id in old(records) ==>
                SparesOthers(old(endpoints), endpoints, Own(old(records[id].address)), old(records) - {id})
      ensures forall x :: id in old(records) && KeepsEntry(old(records) - {id}, x) ==>
                old(endpoints) - Own(old(records[id].address)) <= endpoints <= old(endpoints)
      ensures r == Threw ==> !answered || (id in records && records[id].state == Error)
      ensures held == if r == Settled then old(held) - {id} else old(held)
    {
      path := [];
      var readable: bool := *;
      if !readable {
        answered, faulted := false, true;
        return Threw, path;
      }
      if id !in records {
        return NotFound, path;
      }
      ghost var from := records[id].state;
      var ok, p := Stop(id, client, polls);
      path := p;
      if ok {
        return Settled, path;
      }
      ghost var mid := records[id].state;
      OthersUntouched(old(records), id, mid);
      ghost var wrote := TransitionToError(id);
      if wrote {
        LeadsOn(from, path, mid, Error);
        path := path + [Error];
      }
      r := Threw;
    }

    /** The process behind a record: its recorded runner, or the one its worker reports. */
    method Resolve(r: Record, workers: set<nat>, lookup: Option<Lookup>) returns (ok: bool, runner: Option<nat>)
      ensures r.worker.None? || r.runner.Some? ==> ok && runner == r.runner
      ensures !ok ==> r.worker.value !in workers || lookup.None?
      ensures ok && r.worker.Some? && r.runner.None? ==>
                && r.worker.value in workers && lookup.Some?
                && runner == if lookup.value.Found? then Some(lookup.value.runner) else None
    {
      runner := r.runner;
      if r.worker.Some? && r.runner.None? {
        if r.worker.value !in workers || lookup.None? {
          return false, None;
        }
        match lookup.value
        case Absent =>
        case Found(found) => runner := Some(found);
      }
      ok := true;
    }

    /** A placed instance's process is stopped by its worker; 404 says that there is none. */
    method StopRunner(r: Record, runner: Option<nat>, workers: set<nat>, reply: StopReply) returns (ok: bool)
      modifies this`told
      ensures ok <==> (runner.Some? && r.worker.Some? ==>
                         r.worker.value in workers && (reply == Terminated || reply == HttpError(404)))
      ensures told == old(told) || (runner.Some? && r.worker.Some? && told == old(told) + [runner.value])
      ensures ok && runner.Some? && r.worker.Some? ==> told == old(told) + [runner.value]
    {
      if runner.Some? && r.worker.Some? {
        if r.worker.value !in workers {
          return false;
        }
        told := told + [runner.value];
        if reply != Terminated && reply != HttpError(404) {
          return false;
        }
      }
      ok := true;
    }

    /** A STOPPED record is forgotten, unless the store fails; it may fail after the removal. */
    method RemoveRecord(id: Id) returns (ok: bool)
      requires id in records && records[id].state == Stopped && EntryMatches(records, entry)
      modifies this`records, this`faulted
      ensures records == old(records) - {id} || (!ok && records == old(records))
      ensures EntryMatches(records, entry)
      ensures faulted == (old(faulted) || !ok)
    {
      ok := *;
      faulted := faulted || !ok;
      var performed: bool := *;
      if ok || performed {
        ForgettingStopped(records, id, entry);
        records := records - {id};
      }
    }

    /** Settle the lifecycle, reap the process, forget the record; false when any step throws. */
    method Reap(id: Id, client: bool, workers: set<nat>, lookup: Option<Lookup>, reply: StopReply, polls: seq<Poll>)
      returns (ok: bool)
      modifies this
      ensures |told| >= |old(told)|
      ensures told == old(told) || (id in old(records) && ToldOwn(old(told), told, old(records[id]), lookup))
      ensures ok ==> id in old(records) && id !in records
      ensures old(faulted) ==> faulted
      ensures !faulted ==>
                (ok <==> && id in old(records) && Drains(old(records[id].state), client, polls)
                         && Reached(old(records[id]), workers, lookup, reply))
      ensures if id in old(records) && id !in records
              then Forgotten(old(records), id, lookup, reply, told[|old(told)|..], old(held), old(endpoints))
              else Retained(old(records), id, old(endpoints)) && (held == old(held) || held == old(held) - {id})
    {
      var readable: bool := *;
      if !readable {
        faulted := true;
        return false;
      }
      var known := id in records;
      var r := if known then records[id] else Record(Stopped, None, None, None);
      var resolved, runner := Resolve(r, workers, lookup);
      if !resolved {
        return false;
      }
      var settled, path := StopModel(id, client, polls);
      if settled != Settled {
        return false;
      }
      ok := StopRunner(r, runner, workers, reply);
      if ok {
        OthersUntouched(old(records), id, Stopped);
        ok := RemoveRecord(id);
      }
    }

    /**
     * The record is gone and so is everything behind it: its runner is known to
     * be gone, its endpoint and hold are released, and the routing entry is that
     * of the other instances, with their endpoints.
     */
    ghost predicate Forgotten(
        before: map<Id, Record>, id: Id, lookup: Option<Lookup>, reply: StopReply, told: seq<nat>, held: set<Id>,
        endpoints: set<Address>)
      reads this
    {
      && id in before && records == before - {id} && EntryMatches(records, entry)
      && RunnerGone(before[id], lookup, told, reply)
      && (this.endpoints == if entry.Some? then endpoints - Own(before[id].address) else {})
      && this.held == held - {id}
    }

    /** Nothing but the state of the record has changed among the records, nor among the others' endpoints. */
    ghost predicate Retained(before: map<Id, Record>, id: Id, endpoints: set<Address>)
      reads this
    {
      if id in before then
        && id in records && records == WithState(before, id, records[id].state)
        && SparesOthers(endpoints, this.endpoints, Own(before[id].address), before - {id})
      else records == before && this.endpoints == endpoints
    }

    /**
     * teardownInstance. Either the record is gone, and then so is everything
     * behind it, or it is retained. Success means the former; failure means the
     * latter, unless only the reply to the removal was lost. A retained record is
     * not STOPPED unless the lifecycle store did not answer at the end. While
     * another instance keeps the entry, its endpoints stay, whatever fails.
     */
    method TeardownInstance(
        id: Id, client: bool, workers: set<nat>, lookup: Option<Lookup>, reply: StopReply, polls: seq<Poll>)
      returns (ok: bool)
      modifies this
      ensures |told| >= |old(told)|
      ensures told == old(told) || (id in old(records) && ToldOwn(old(told), told, old(records[id]), lookup))
      ensures ok ==> id in old(records) && id !in records
      ensures old(faulted) ==> faulted
      ensures !faulted ==>
                (ok <==> && id in old(records) && Drains(old(records[id].state), client, polls)
                         && Reached(old(records[id]), workers, lookup, reply))
      ensures if id in old(records) && id !in records
              then Forgotten(old(records), id, lookup, reply, told[|old(told)|..], old(held), old(endpoints))
              else Retained(old(records), id, old(endpoints)) && (held == old(held) || held == old(held) - {id})
      ensures !ok && id in records ==> records[id].state != Stopped || !answered
      ensures forall x :: id in old(records) && KeepsEntry(old(records) - {id}, x) ==>
                old(endpoints) - Own(old(records[id].address)) <= endpoints <= old(endpoints)
    {
      ok := Reap(id, client, workers, lookup, reply, polls);
      if !ok {
        var readable: bool := *;
        if !readable {
          answered, faulted := false, true;
        } else if id in records && records[id].state == Stopped {
          OthersUntouched(old(records), id, Stopped);
          ghost var _ := TransitionToError(id);
        }
      }
    }
  }
}
