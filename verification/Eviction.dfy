/**
 * Freeing capacity by stopping the least recently used instances, behind a
 * windowed circuit breaker (control-plane/src/services/eviction.ts). Last-use
 * timestamps are integers, which order as the ISO strings of the source do.
 */
module Eviction {
  import opened Options
  import opened Lifecycle

  datatype Instance = Instance(
    id: string,
    model: string,
    state: State,
    worker: Option<string>,
    changedAt: Option<int>,
    lastUsed: Option<int>)

  datatype Candidate = Candidate(
    id: string,
    model: string,
    state: State,
    worker: string,
    memory: int,
    lastUsed: Option<int>)

  datatype Config = Config(maxPerCycle: nat, minActiveMs: int, threshold: nat, windowMs: nat)

  /** What one selection is asked for. */
  datatype Demand = Demand(
    pinned: set<string>,
    required: int,
    targets: Option<set<string>>,
    memory: map<string, int>)

  // ---------------------------------------------------------------------
  // Candidates
  // ---------------------------------------------------------------------

  function WorkerName(m: Instance): string {
    if m.worker.Some? then m.worker.value else ""
  }

  predicate Eligible(c: Config, q: Demand, now: int, m: Instance) {
    && (m.state == Active || m.state == Sleeping)
    && m.model !in q.pinned
    && (q.targets.Some? ==> WorkerName(m) in q.targets.value)
    && (m.changedAt.Some? ==> now - m.changedAt.value >= c.minActiveMs)
    && m.model in q.memory && q.memory[m.model] > 0
  }

  function AsCandidate(q: Demand, m: Instance): Candidate
    requires m.model in q.memory
  {
    Candidate(m.id, m.model, m.state, WorkerName(m), q.memory[m.model], m.lastUsed)
  }

  /** The eligible instances, in listing order. */
  function Candidates(c: Config, q: Demand, now: int, all: seq<Instance>): seq<Candidate> {
    if all == [] then []
    else
      var m := all[|all| - 1];
      Candidates(c, q, now, all[..|all| - 1]) + if Eligible(c, q, now, m) then [AsCandidate(q, m)] else []
  }

  lemma {:induction false} CandidateMembers(c: Config, q: Demand, now: int, all: seq<Instance>, x: Candidate)
    ensures x in Candidates(c, q, now, all) <==>
            exists m :: m in all && Eligible(c, q, now, m) && x == AsCandidate(q, m)
  {
    if all != [] {
      var rest, last := all[..|all| - 1], all[|all| - 1];
      CandidateMembers(c, q, now, rest, x);
      assert all == rest + [last];
    }
  }

  predicate Makes(c: Config, q: Demand, now: int, m: Instance, x: Candidate) {
    Eligible(c, q, now, m) && x == AsCandidate(q, m)
  }

  /** Every eligible instance is in xs once, in listing order: `at` are their places in the listing. */
  ghost predicate InOrder(
      c: Config, q: Demand, now: int, all: seq<Instance>, xs: seq<Candidate>, at: seq<nat>) {
    && |at| == |xs| && (forall i, j :: 0 <= i < j < |at| ==> at[i] < at[j])
    && (forall i :: 0 <= i < |at| ==> at[i] < |all| && Makes(c, q, now, all[at[i]], xs[i]))
    && (forall k :: 0 <= k < |all| && Eligible(c, q, now, all[k]) ==> k in at)
  }

  lemma InOrderNext(
      c: Config, q: Demand, now: int, all: seq<Instance>, m: Instance, xs: seq<Candidate>, at: seq<nat>)
    requires InOrder(c, q, now, all, xs, at)
    ensures if Eligible(c, q, now, m) then InOrder(c, q, now, all + [m], xs + [AsCandidate(q, m)], at + [|all|])
            else InOrder(c, q, now, all + [m], xs, at)
  {
    forall k | 0 <= k < |all + [m]| && Eligible(c, q, now, (all + [m])[k]) ensures k == |all| || k in at {
      assert k < |all| ==> (all + [m])[k] == all[k];
    }
  }

  lemma {:induction false} CandidatesInOrder(c: Config, q: Demand, now: int, all: seq<Instance>) returns (at: seq<nat>)
    ensures InOrder(c, q, now, all, Candidates(c, q, now, all), at)
  {
    at := [];
    if all != [] {
      var front, m := all[..|all| - 1], all[|all| - 1];
      at := CandidatesInOrder(c, q, now, front);
      InOrderNext(c, q, now, front, m, Candidates(c, q, now, front), at);
      at := if Eligible(c, q, now, m) then at + [|front|] else at;
      assert all == front + [m];
    }
  }

  // ---------------------------------------------------------------------
  // Least recently used first
  // ---------------------------------------------------------------------

  /** Strictly less recently used; never used comes before any use. */
  predicate Before(a: Candidate, b: Candidate) {
    b.lastUsed.Some? && (a.lastUsed.None? || a.lastUsed.value < b.lastUsed.value)
  }

  predicate Sorted(s: seq<Candidate>) {
    forall i, j :: 0 <= i < j < |s| ==> !Before(s[j], s[i])
  }

  /** Insert behind everything used no later. */
  function Insert(s: seq<Candidate>, x: Candidate): seq<Candidate> {
    if s == [] || !Before(x, s[|s| - 1]) then s + [x]
    else Insert(s[..|s| - 1], x) + [s[|s| - 1]]
  }

  /** The stable sort. */
  function Sort(s: seq<Candidate>): seq<Candidate> {
    if s == [] then [] else Insert(Sort(s[..|s| - 1]), s[|s| - 1])
  }

  /** The candidates last used at one time, in order. */
  function UsedAt(s: seq<Candidate>, t: Option<int>): seq<Candidate> {
    if s == [] then []
    else
      var x := s[|s| - 1];
      UsedAt(s[..|s| - 1], t) + if x.lastUsed == t then [x] else []
  }

  lemma {:induction false} InsertPermutes(s: seq<Candidate>, x: Candidate)
    ensures multiset(Insert(s, x)) == multiset(s) + multiset{x}
  {
    if s != [] && Before(x, s[|s| - 1]) {
      InsertPermutes(s[..|s| - 1], x);
      assert s == s[..|s| - 1] + [s[|s| - 1]];
    }
  }

  lemma {:induction false} InsertMembers(s: seq<Candidate>, x: Candidate, y: Candidate)
    requires y in Insert(s, x)
    ensures y in s || y == x
  {
    InsertPermutes(s, x);
    assert y in multiset(Insert(s, x));
  }

  lemma {:induction false} InsertSorted(s: seq<Candidate>, x: Candidate)
    requires Sorted(s)
    ensures Sorted(Insert(s, x))
  {
    if s != [] && Before(x, s[|s| - 1]) {
      var rest, last := s[..|s| - 1], s[|s| - 1];
      InsertSorted(rest, x);
      var r := Insert(rest, x);
      forall i | 0 <= i < |r| ensures !Before(last, r[i]) {
        InsertMembers(rest, x, r[i]);
      }
    }
  }

  lemma {:induction false} InsertStable(s: seq<Candidate>, x: Candidate, t: Option<int>)
    requires Sorted(s)
    ensures UsedAt(Insert(s, x), t) == UsedAt(s + [x], t)
  {
    if s != [] && Before(x, s[|s| - 1]) {
      var rest, last := s[..|s| - 1], s[|s| - 1];
      InsertStable(rest, x, t);
      assert Insert(s, x)[..|Insert(s, x)| - 1] == Insert(rest, x);
      assert (rest + [x])[..|rest|] == rest && (s + [x])[..|s|] == s;
    }
  }

  /** The result is sorted, a permutation, and keeps the order of equals. */
  lemma {:induction false} SortCorrect(s: seq<Candidate>, t: Option<int>)
    ensures Sorted(Sort(s)) && multiset(Sort(s)) == multiset(s)
    ensures UsedAt(Sort(s), t) == UsedAt(s, t)
  {
    if s != [] {
      var rest, last := s[..|s| - 1], s[|s| - 1];
      assert s == rest + [last];
      SortCorrect(rest, t);
      InsertSorted(Sort(rest), last);
      InsertPermutes(Sort(rest), last);
      InsertStable(Sort(rest), last, t);
      assert (Sort(rest) + [last])[..|Sort(rest)|] == Sort(rest);
    }
  }

  lemma {:induction false} UsedAtMembers(s: seq<Candidate>, t: Option<int>)
    requires UsedAt(s, t) != []
    ensures exists i :: 0 <= i < |s| && s[i].lastUsed == t
  {
    if s[|s| - 1].lastUsed != t {
      UsedAtMembers(s[..|s| - 1], t);
      var i :| 0 <= i < |s| - 1 && s[..|s| - 1][i].lastUsed == t;
      assert s[i].lastUsed == t;
    }
  }

  /** The order of equals is the same. */
  ghost predicate SameUses(a: seq<Candidate>, b: seq<Candidate>) {
    forall t :: UsedAt(a, t) == UsedAt(b, t)
  }

  lemma {:induction false} BothEmpty(a: seq<Candidate>, b: seq<Candidate>)
    requires SameUses(a, b) && (a == [] || b == [])
    ensures a == b
  {
    assert a != [] ==> UsedAt(a, a[|a| - 1].lastUsed) != [];
    assert b != [] ==> UsedAt(b, b[|b| - 1].lastUsed) != [];
  }

  lemma {:induction false} FrontsAgree(a: seq<Candidate>, b: seq<Candidate>)
    requires SameUses(a, b) && a != [] && b != [] && a[|a| - 1] == b[|b| - 1]
    ensures SameUses(a[..|a| - 1], b[..|b| - 1])
  {
    var a', b' := a[..|a| - 1], b[..|b| - 1];
    forall t ensures UsedAt(a', t) == UsedAt(b', t) {
      UsedAtFront(a, b, t);
    }
  }

  lemma FrontAndLast(a: seq<Candidate>, b: seq<Candidate>)
    requires a != [] && b != [] && a[|a| - 1] == b[|b| - 1] && a[..|a| - 1] == b[..|b| - 1]
    ensures a == b
  {
    assert a == a[..|a| - 1] + [a[|a| - 1]] && b == b[..|b| - 1] + [b[|b| - 1]];
  }

  lemma {:induction false} LastUnique(a: seq<Candidate>, b: seq<Candidate>)
    requires Sorted(a) && Sorted(b) && a != [] && b != [] && SameUses(a, b)
    ensures a[|a| - 1] == b[|b| - 1]
  {
    var x, y := a[|a| - 1], b[|b| - 1];
    var u, v := UsedAt(a, x.lastUsed), UsedAt(b, y.lastUsed);
    assert u == UsedAt(b, x.lastUsed) && v == UsedAt(a, y.lastUsed);
    assert u != [] && u[|u| - 1] == x && v != [] && v[|v| - 1] == y;
    UsedAtMembers(b, x.lastUsed);
    UsedAtMembers(a, y.lastUsed);
    assert x.lastUsed == y.lastUsed;
  }

  lemma {:induction false} UsedAtFront(a: seq<Candidate>, b: seq<Candidate>, t: Option<int>)
    requires a != [] && b != [] && a[|a| - 1] == b[|b| - 1] && UsedAt(a, t) == UsedAt(b, t)
    ensures UsedAt(a[..|a| - 1], t) == UsedAt(b[..|b| - 1], t)
  {
    var p, q := UsedAt(a[..|a| - 1], t), UsedAt(b[..|b| - 1], t);
    if a[|a| - 1].lastUsed == t {
      assert UsedAt(a, t)[..|p|] == p && UsedAt(b, t)[..|q|] == q;
    } else {
      assert UsedAt(a, t) == p && UsedAt(b, t) == q;
    }
  }

  /** Being sorted and keeping the order of equals determine the list. */
  lemma {:induction false} SortedUnique(a: seq<Candidate>, b: seq<Candidate>)
    requires Sorted(a) && Sorted(b) && SameUses(a, b)
    ensures a == b
  {
    if a == [] || b == [] {
      BothEmpty(a, b);
    } else {
      LastUnique(a, b);
      FrontsAgree(a, b);
      SortedUnique(a[..|a| - 1], b[..|b| - 1]);
      FrontAndLast(a, b);
    }
  }

  // ---------------------------------------------------------------------
  // Victims
  // ---------------------------------------------------------------------

  function Freed(s: seq<Candidate>): int {
    if s == [] then 0 else Freed(s[..|s| - 1]) + s[|s| - 1].memory
  }

  /** The shortest prefix of the sorted candidates that frees enough, or all of them. */
  predicate ShortestPrefix(sorted: seq<Candidate>, required: int, victims: seq<Candidate>) {
    && |victims| <= |sorted| && victims == sorted[..|victims|]
    && (forall n :: 0 <= n < |victims| ==> Freed(sorted[..n]) < required)
    && (|victims| < |sorted| ==> Freed(victims) >= required)
  }

  /** LruEvictionStrategy.selectVictims. */
  method SelectLeastRecent(candidates: seq<Candidate>, required: int) returns (victims: seq<Candidate>)
    ensures ShortestPrefix(Sort(candidates), required, victims)
  {
    var sorted := Sort(candidates);
    victims := [];
    var freed := 0;
    for i := 0 to |sorted|
      invariant victims == sorted[..i] && freed == Freed(victims)
      invariant forall n :: 0 <= n < i ==> Freed(sorted[..n]) < required
    {
      if freed >= required {
        return;
      }
      assert (victims + [sorted[i]])[..i] == victims;
      victims := victims + [sorted[i]];
      freed := freed + sorted[i].memory;
    }
  }

  /** Nobody spared was used less recently than a victim. */
  ghost predicate SparesRecent(candidates: seq<Candidate>, victims: seq<Candidate>) {
    && multiset(victims) <= multiset(candidates)
    && forall v, x :: v in victims && x in multiset(candidates) - multiset(victims) ==> !Before(x, v)
  }

  /** Nobody is taken needlessly, and the demand is missed only at the cap or with nobody left. */
  predicate JustEnough(candidates: seq<Candidate>, required: int, cap: nat, victims: seq<Candidate>) {
    && |victims| <= cap
    && (victims != [] ==> Freed(victims[..|victims| - 1]) < required)
    && (Freed(victims) < required ==> |victims| == cap || multiset(victims) == multiset(candidates))
  }

  lemma PrefixParts(s: seq<Candidate>, n: nat)
    requires n <= |s|
    ensures multiset(s[..n]) <= multiset(s) && multiset(s) - multiset(s[..n]) == multiset(s[n..])
  {
    assert s == s[..n] + s[n..];
  }

  lemma PrefixIsEarlier(sorted: seq<Candidate>, n: nat, v: Candidate, x: Candidate)
    requires Sorted(sorted) && n <= |sorted| && v in sorted[..n] && x in sorted[n..]
    ensures !Before(x, v)
  {
    var i :| 0 <= i < n && sorted[..n][i] == v;
    var j :| 0 <= j < |sorted| - n && sorted[n..][j] == x;
    assert sorted[i] == v && sorted[n + j] == x;
  }

  lemma PrefixSpares(candidates: seq<Candidate>, sorted: seq<Candidate>, n: nat)
    requires Sorted(sorted) && multiset(sorted) == multiset(candidates) && n <= |sorted|
    ensures SparesRecent(candidates, sorted[..n])
  {
    PrefixParts(sorted, n);
    forall v, x | v in sorted[..n] && x in multiset(candidates) - multiset(sorted[..n]) ensures !Before(x, v) {
      assert x in multiset(sorted[n..]);
      PrefixIsEarlier(sorted, n, v, x);
    }
  }

  function Capped(s: seq<Candidate>, cap: nat): seq<Candidate> {
    if |s| <= cap then s else s[..cap]
  }

  /** Cut at the cap it is still a prefix, short of the demand before its last, and cut short only for a reason. */
  lemma {:induction false} CappedPrefix(sorted: seq<Candidate>, required: int, cap: nat, prefix: seq<Candidate>)
    requires ShortestPrefix(sorted, required, prefix)
    ensures var victims := Capped(prefix, cap);
            && |victims| <= |sorted| && |victims| <= cap && victims == sorted[..|victims|]
            && (victims != [] ==> Freed(victims[..|victims| - 1]) < required)
            && (Freed(victims) < required ==> |victims| == cap || victims == sorted)
  {
    var victims := Capped(prefix, cap);
    if victims != [] {
      assert victims[..|victims| - 1] == sorted[..|victims| - 1];
    }
  }

  lemma {:induction false} CappedSpares(candidates: seq<Candidate>, required: int, cap: nat, prefix: seq<Candidate>)
    requires ShortestPrefix(Sort(candidates), required, prefix)
    ensures SparesRecent(candidates, Capped(prefix, cap))
  {
    SortCorrect(candidates, None);
    CappedPrefix(Sort(candidates), required, cap, prefix);
    PrefixSpares(candidates, Sort(candidates), |Capped(prefix, cap)|);
  }

  lemma {:induction false} CappedIsEnough(candidates: seq<Candidate>, required: int, cap: nat, prefix: seq<Candidate>)
    requires ShortestPrefix(Sort(candidates), required, prefix)
    ensures JustEnough(candidates, required, cap, Capped(prefix, cap))
  {
    SortCorrect(candidates, None);
    CappedPrefix(Sort(candidates), required, cap, prefix);
  }

  /** Cutting the shortest prefix at the cap is fair and just enough. */
  lemma {:induction false} CappedIsFair(candidates: seq<Candidate>, required: int, cap: nat, prefix: seq<Candidate>)
    requires ShortestPrefix(Sort(candidates), required, prefix)
    ensures SparesRecent(candidates, Capped(prefix, cap))
    ensures JustEnough(candidates, required, cap, Capped(prefix, cap))
  {
    CappedSpares(candidates, required, cap, prefix);
    CappedIsEnough(candidates, required, cap, prefix);
  }

  // ---------------------------------------------------------------------
  // The circuit breaker
  // ---------------------------------------------------------------------

  /** The timestamps after a cutoff, in order. */
  function After(times: seq<int>, cutoff: int): seq<int> {
    if times == [] then []
    else
      var t := times[|times| - 1];
      After(times[..|times| - 1], cutoff) + if t > cutoff then [t] else []
  }

  predicate NoneBetween(times: seq<int>, cutoff: int, pruned: int) {
    forall t :: t in times ==> !(cutoff < t <= pruned)
  }

  lemma NoneBetweenAppend(times: seq<int>, t: int, cutoff: int, pruned: int)
    ensures NoneBetween(times + [t], cutoff, pruned) <==> NoneBetween(times, cutoff, pruned) && !(cutoff < t <= pruned)
  {
    assert t in times + [t];
    assert forall x :: x in times ==> x in times + [t];
  }

  /** Pruning at one cutoff loses nothing for another exactly when no timestamp lies between them. */
  lemma {:induction false} PruningAgrees(times: seq<int>, pruned: int, cutoff: int)
    ensures After(After(times, pruned), cutoff) == After(times, cutoff) <==> NoneBetween(times, cutoff, pruned)
    ensures |After(After(times, pruned), cutoff)| <= |After(times, cutoff)|
  {
    if times != [] {
      var rest, t := times[..|times| - 1], times[|times| - 1];
      PruningAgrees(rest, pruned, cutoff);
      assert times == rest + [t];
      NoneBetweenAppend(rest, t, cutoff, pruned);
      var kept, all := After(After(rest, pruned), cutoff), After(rest, cutoff);
      AfterAppend(rest, t, pruned);
      AfterAppend(rest, t, cutoff);
      AfterAppend(After(rest, pruned), t, cutoff);
      assert (kept + [t])[..|kept|] == kept && (all + [t])[..|all|] == all;
      assert After(rest, pruned) + [] == After(rest, pruned) && kept + [] == kept && all + [] == all;
    }
  }

  lemma AfterAppend(times: seq<int>, t: int, cutoff: int)
    ensures After(times + [t], cutoff) == After(times, cutoff) + if t > cutoff then [t] else []
  {
    assert (times + [t])[..|times|] == times;
  }

  lemma {:induction false} PrunedAsGood(times: seq<int>, pruned: int, cutoff: int)
    requires cutoff >= pruned
    ensures After(After(times, pruned), cutoff) == After(times, cutoff)
  {
    PruningAgrees(times, pruned, cutoff);
  }

  method Prune(times: seq<int>, cutoff: int) returns (kept: seq<int>)
    ensures kept == After(times, cutoff)
    ensures forall t :: t in kept ==> t > cutoff
  {
    kept := [];
    for i := 0 to |times|
      invariant kept == After(times[..i], cutoff)
      invariant forall t :: t in kept ==> t > cutoff
    {
      assert times[..i + 1][..i] == times[..i];
      if times[i] > cutoff {
        kept := kept + [times[i]];
      }
    }
    assert times[..|times|] == times;
  }

  /** The breaker as the whole history of evictions has it. */
  predicate Open(c: Config, history: seq<int>, now: int) {
    |After(history, now - c.windowMs)| >= c.threshold
  }

  function Later(a: int, b: int): int {
    if a < b then b else a
  }

  class Engine {
    const config: Config
    var recent: seq<int>
    /** Every eviction recorded, and the latest time of a check. */
    ghost var history: seq<int>
    ghost var clock: int

    /** From the latest check on the pruned list is as good as the history; before, it may have lost some. */
    ghost predicate Valid()
      reads this
    {
      && (forall c :: c >= clock - config.windowMs ==> After(recent, c) == After(history, c))
      && (forall c :: |After(recent, c)| <= |After(history, c)|)
    }

    constructor (config: Config, now: int)
      ensures Valid() && this.config == config && recent == [] && history == [] && clock == now
    {
      this.config := config;
      recent, history, clock := [], [], now;
    }

    method IsCircuitBreakerOpen(now: int) returns (open: bool)
      requires Valid()
      modifies this`recent, this`clock
      ensures Valid() && clock == Later(old(clock), now)
      ensures open ==> Open(config, history, now)
      ensures now >= old(clock) ==> (open <==> Open(config, history, now))
      ensures forall t :: t in recent ==> t > now - config.windowMs
    {
      var cutoff := now - config.windowMs;
      var kept := Prune(recent, cutoff);
      forall c ensures |After(kept, c)| <= |After(history, c)| {
        PruningAgrees(recent, cutoff, c);
      }
      forall c | c >= cutoff ensures After(kept, c) == After(recent, c) {
        PrunedAsGood(recent, cutoff, c);
      }
      assert After(kept, cutoff) == kept;
      recent, clock := kept, Later(clock, now);
      open := |recent| >= config.threshold;
    }

    method RecordEviction(now: int)
      requires Valid()
      modifies this`recent, this`history
      ensures Valid() && history == old(history) + [now]
      ensures recent == old(recent) + [now]
    {
      forall c
        ensures |After(recent + [now], c)| <= |After(history + [now], c)|
        ensures c >= clock - config.windowMs ==> After(recent + [now], c) == After(history + [now], c)
      {
        AfterAppend(recent, now, c);
        AfterAppend(history, now, c);
      }
      recent, history := recent + [now], history + [now];
    }

    /** EvictionEngine.selectVictims. */
    method SelectVictims(all: seq<Instance>, q: Demand, now: int) returns (victims: seq<Candidate>)
      requires Valid()
      modifies this`recent, this`clock
      ensures Valid() && clock == Later(old(clock), now)
      ensures now >= old(clock) && Open(config, history, now) ==> victims == []
      ensures !Open(config, history, now) || victims != [] ==>
                var candidates := Candidates(config, q, now, all);
                && victims <= Sort(candidates) && SparesRecent(candidates, victims)
                && JustEnough(candidates, q.required, config.maxPerCycle, victims)
      ensures |victims| <= config.maxPerCycle
      ensures forall v :: v in victims ==> exists m :: m in all && Eligible(config, q, now, m) && v == AsCandidate(q, m)
    {
      var open := IsCircuitBreakerOpen(now);
      if open {
        return [];
      }
      var candidates := Candidates(config, q, now, all);
      var prefix := SelectLeastRecent(candidates, q.required);
      victims := Capped(prefix, config.maxPerCycle);
      CappedIsFair(candidates, q.required, config.maxPerCycle, prefix);
      CappedPrefix(Sort(candidates), q.required, config.maxPerCycle, prefix);
      forall v | v in victims ensures exists m :: m in all && Eligible(config, q, now, m) && v == AsCandidate(q, m) {
        assert v in multiset(candidates);
        CandidateMembers(config, q, now, all, v);
      }
    }
  }

  // ---------------------------------------------------------------------
  // How many evictions a window can hold
  // ---------------------------------------------------------------------

  /** The clock, the evictions recorded, and what each running cycle may still record. */
  datatype World = World(clock: int, history: seq<int>, left: seq<nat>)

  datatype Event =
    | Pass(d: nat)
    | Begin(victims: nat)   // a selection; nothing when the breaker is open
    | Record(i: nat)        // cycle i has torn down a victim
    | Finish(i: nat)

  function Apply(c: Config, w: World, ev: Event): World {
    match ev
    case Pass(d) => w.(clock := w.clock + d)
    case Begin(n) =>
      if Open(c, w.history, w.clock) || n > c.maxPerCycle then w else w.(left := w.left + [n])
    case Record(i) =>
      if i < |w.left| && w.left[i] > 0
      then w.(history := w.history + [w.clock], left := w.left[i := w.left[i] - 1])
      else w
    case Finish(i) => if i < |w.left| then w.(left := w.left[..i] + w.left[i + 1..]) else w
  }

  /** The world after some events. */
  function Play(c: Config, start: int, events: seq<Event>): World {
    if events == [] then World(start, [], [])
    else Apply(c, Play(c, start, events[..|events| - 1]), events[|events| - 1])
  }

  /** At most `overlap` cycles are ever under way at a time. */
  predicate Fits(c: Config, start: int, overlap: nat, events: seq<Event>) {
    && |Play(c, start, events).left| <= overlap
    && (events != [] ==> Fits(c, start, overlap, events[..|events| - 1]))
  }

  /** The evictions recorded after lo and up to hi. */
  function Within(times: seq<int>, lo: int, hi: int): nat {
    if times == [] then 0
    else
      var t := times[|times| - 1];
      Within(times[..|times| - 1], lo, hi) + if lo < t <= hi then 1 else 0
  }

  /** The evictions in the window that ends at t. */
  function InWindow(c: Config, history: seq<int>, t: int): nat {
    Within(history, t - c.windowMs, t)
  }

  function Bound(c: Config, overlap: nat): nat {
    if c.threshold == 0 then 0 else c.threshold - 1 + overlap * c.maxPerCycle
  }

  function Total(left: seq<nat>): nat {
    if left == [] then 0 else Total(left[..|left| - 1]) + left[|left| - 1]
  }

  lemma {:induction false} TotalAtMost(left: seq<nat>, max: nat)
    requires forall i :: 0 <= i < |left| ==> left[i] <= max
    ensures Total(left) <= |left| * max
  {
    if left != [] {
      TotalAtMost(left[..|left| - 1], max);
      assert |left| * max == (|left| - 1) * max + max;
    }
  }

  lemma TotalAppend(left: seq<nat>, n: nat)
    ensures Total(left + [n]) == Total(left) + n
  {
    assert (left + [n])[..|left|] == left;
  }

  lemma {:induction false} TotalUpdate(left: seq<nat>, i: nat, n: nat)
    requires i < |left|
    ensures Total(left[i := n]) == Total(left) - left[i] + n
  {
    var rest, last := left[..|left| - 1], left[|left| - 1];
    if i < |left| - 1 {
      TotalUpdate(rest, i, n);
      assert left[i := n] == rest[i := n] + [last];
      TotalAppend(rest[i := n], last);
    } else {
      assert left[i := n] == rest + [n];
      TotalAppend(rest, n);
    }
  }

  lemma {:induction false} TotalRemove(left: seq<nat>, i: nat)
    requires i < |left|
    ensures Total(left[..i] + left[i + 1..]) <= Total(left)
  {
    var rest, last := left[..|left| - 1], left[|left| - 1];
    if i < |left| - 1 {
      TotalRemove(rest, i);
      assert left[..i] + left[i + 1..] == (rest[..i] + rest[i + 1..]) + [last];
      TotalAppend(rest[..i] + rest[i + 1..], last);
    } else {
      assert left[..i] + left[i + 1..] == rest;
    }
  }

  lemma WithinAppend(times: seq<int>, t: int, lo: int, hi: int)
    ensures Within(times + [t], lo, hi) == Within(times, lo, hi) + if lo < t <= hi then 1 else 0
  {
    assert (times + [t])[..|times|] == times;
  }

  /** Up to the latest timestamp a window counts what the breaker counts, and later windows count no more. */
  lemma {:induction false} WithinIsAfter(times: seq<int>, lo: int, hi: int, lo': int, hi': int)
    requires forall t :: t in times ==> t <= hi
    requires lo <= lo' && hi <= hi'
    ensures Within(times, lo, hi) == |After(times, lo)|
    ensures Within(times, lo', hi') <= Within(times, lo, hi)
  {
    if times != [] {
      var rest, t := times[..|times| - 1], times[|times| - 1];
      assert times == rest + [t] && t in times && forall x :: x in rest ==> x in times;
      WithinIsAfter(rest, lo, hi, lo', hi');
    }
  }

  ghost predicate Inv(c: Config, overlap: nat, w: World) {
    && (forall t :: t in w.history ==> t <= w.clock)
    && (forall i :: 0 <= i < |w.left| ==> w.left[i] <= c.maxPerCycle)
    && (c.threshold == 0 ==> w.left == [])
    && (forall t :: InWindow(c, w.history, t) <= Bound(c, overlap))
    && InWindow(c, w.history, w.clock) + Total(w.left) <= Bound(c, overlap)
  }

  lemma {:induction false} TimesMonotone(a: nat, b: nat, m: nat)
    requires a <= b
    ensures a * m <= b * m
  {
    if a < b {
      TimesMonotone(a, b - 1, m);
      assert b * m == (b - 1) * m + m;
    }
  }

  lemma CyclesFit(left: seq<nat>, n: nat, overlap: nat, max: nat)
    requires forall i :: 0 <= i < |left| ==> left[i] <= max
    requires n <= max && |left| < overlap
    ensures Total(left + [n]) <= overlap * max
  {
    TotalAtMost(left + [n], max);
    TimesMonotone(|left + [n]|, overlap, max);
  }

  lemma RoomToBegin(c: Config, overlap: nat, w: World, n: nat)
    requires Inv(c, overlap, w) && !Open(c, w.history, w.clock)
    requires n <= c.maxPerCycle && |w.left| < overlap
    ensures InWindow(c, w.history, w.clock) + Total(w.left + [n]) <= Bound(c, overlap)
  {
    var lo := w.clock - c.windowMs;
    WithinIsAfter(w.history, lo, w.clock, lo, w.clock);
    CyclesFit(w.left, n, overlap, c.maxPerCycle);
  }

  lemma RecordKeepsInv(c: Config, overlap: nat, w: World, i: nat)
    requires Inv(c, overlap, w) && i < |w.left| && w.left[i] > 0
    ensures Inv(c, overlap, Apply(c, w, Record(i)))
  {
    var w' := Apply(c, w, Record(i));
    TotalUpdate(w.left, i, w.left[i] - 1);
    forall t ensures InWindow(c, w'.history, t) <= Bound(c, overlap) {
      assert InWindow(c, w.history, t) <= Bound(c, overlap);
      WithinAppend(w.history, w.clock, t - c.windowMs, t);
      if t >= w.clock {
        WithinIsAfter(w.history, w.clock - c.windowMs, w.clock, t - c.windowMs, t);
      }
    }
    WithinAppend(w.history, w.clock, w.clock - c.windowMs, w.clock);
  }

  lemma PassKeepsInv(c: Config, overlap: nat, w: World, d: nat)
    requires Inv(c, overlap, w)
    ensures Inv(c, overlap, w.(clock := w.clock + d))
  {
    WithinIsAfter(w.history, w.clock - c.windowMs, w.clock, w.clock + d - c.windowMs, w.clock + d);
  }

  lemma BeginKeepsInv(c: Config, overlap: nat, w: World, n: nat)
    requires Inv(c, overlap, w) && !Open(c, w.history, w.clock)
    requires n <= c.maxPerCycle && |w.left| < overlap
    ensures Inv(c, overlap, w.(left := w.left + [n]))
  {
    RoomToBegin(c, overlap, w, n);
  }

  lemma FinishKeepsInv(c: Config, overlap: nat, w: World, i: nat)
    requires Inv(c, overlap, w) && i < |w.left|
    ensures Inv(c, overlap, w.(left := w.left[..i] + w.left[i + 1..]))
  {
    TotalRemove(w.left, i);
    var left := w.left[..i] + w.left[i + 1..];
    forall j | 0 <= j < |left| ensures left[j] <= c.maxPerCycle {
      assert left[j] == if j < i then w.left[j] else w.left[j + 1];
    }
  }

  lemma StepKeepsInv(c: Config, overlap: nat, w: World, ev: Event)
    requires Inv(c, overlap, w) && |Apply(c, w, ev).left| <= overlap
    ensures Inv(c, overlap, Apply(c, w, ev))
  {
    match ev
    case Pass(d) => PassKeepsInv(c, overlap, w, d);
    case Begin(n) =>
      if !Open(c, w.history, w.clock) && n <= c.maxPerCycle {
        BeginKeepsInv(c, overlap, w, n);
      }
    case Record(i) =>
      if i < |w.left| && w.left[i] > 0 {
        RecordKeepsInv(c, overlap, w, i);
      }
    case Finish(i) =>
      if i < |w.left| {
        FinishKeepsInv(c, overlap, w, i);
      }
  }

  /**
   * Over any run in which at most `overlap` cycles are under way at a time, no
   * window holds more than the bound: threshold - 1 + maxPerCycle when cycles
   * never overlap.
   */
  lemma {:induction false} RateBound(c: Config, start: int, overlap: nat, events: seq<Event>)
    requires Fits(c, start, overlap, events)
    ensures Inv(c, overlap, Play(c, start, events))
    ensures forall t :: InWindow(c, Play(c, start, events).history, t) <= Bound(c, overlap)
  {
    if events != [] {
      var before := events[..|events| - 1];
      RateBound(c, start, overlap, before);
      StepKeepsInv(c, overlap, Play(c, start, before), events[|events| - 1]);
    }
  }

  // ---------------------------------------------------------------------
  // The bound is attained
  // ---------------------------------------------------------------------

  lemma {:induction false} Extend(c: Config, overlap: nat, events: seq<Event>, ev: Event, w: World)
    returns (longer: seq<Event>)
    requires Fits(c, 0, overlap, events) && w == Apply(c, Play(c, 0, events), ev) && |w.left| <= overlap
    ensures Fits(c, 0, overlap, longer) && Play(c, 0, longer) == w
  {
    longer := events + [ev];
    assert longer[..|longer| - 1] == events;
  }

  /** n evictions, all at time 0. */
  function AtOnce(n: nat): seq<int> {
    if n == 0 then [] else AtOnce(n - 1) + [0]
  }

  lemma {:induction false} AtOnceCounts(c: Config, n: nat)
    requires c.windowMs > 0
    ensures |After(AtOnce(n), 0 - c.windowMs)| == n && InWindow(c, AtOnce(n), 0) == n
  {
    if n > 0 {
      AtOnceCounts(c, n - 1);
      AfterAppend(AtOnce(n - 1), 0, 0 - c.windowMs);
      WithinAppend(AtOnce(n - 1), 0, 0 - c.windowMs, 0);
    }
  }

  lemma StillClosed(c: Config, n: nat, left: seq<nat>, v: nat)
    requires c.windowMs > 0 && n < c.threshold && v <= c.maxPerCycle
    ensures Apply(c, World(0, AtOnce(n), left), Begin(v)) == World(0, AtOnce(n), left + [v])
  {
    AtOnceCounts(c, n);
    assert !Open(c, AtOnce(n), 0);
  }

  lemma OneEviction(c: Config, n: nat)
    requires n > 0
    ensures Apply(c, World(0, AtOnce(n - 1), [1]), Record(0)) == World(0, AtOnce(n), [0])
    ensures Apply(c, World(0, AtOnce(n), [0]), Finish(0)) == World(0, AtOnce(n), [])
  {}

  /** One eviction per cycle until the breaker is one short of opening. */
  lemma {:induction false} FillUp(c: Config, overlap: nat, n: nat) returns (events: seq<Event>)
    requires c.windowMs > 0 && c.maxPerCycle > 0 && overlap > 0 && n < c.threshold
    ensures Fits(c, 0, overlap, events) && Play(c, 0, events) == World(0, AtOnce(n), [])
  {
    events := [];
    if n > 0 {
      events := FillUp(c, overlap, n - 1);
      StillClosed(c, n - 1, [], 1);
      OneEviction(c, n);
      events := Extend(c, overlap, events, Begin(1), World(0, AtOnce(n - 1), [1]));
      events := Extend(c, overlap, events, Record(0), World(0, AtOnce(n), [0]));
      events := Extend(c, overlap, events, Finish(0), World(0, AtOnce(n), []));
    }
  }

  function Full(cycles: nat, max: nat): seq<nat> {
    if cycles == 0 then [] else Full(cycles - 1, max) + [max]
  }

  lemma {:induction false} FullLength(cycles: nat, max: nat)
    ensures |Full(cycles, max)| == cycles
  {
    if cycles > 0 {
      FullLength(cycles - 1, max);
    }
  }

  lemma {:induction false} FullTotal(cycles: nat, max: nat)
    ensures Total(Full(cycles, max)) == cycles * max
  {
    if cycles > 0 {
      FullTotal(cycles - 1, max);
      TotalAppend(Full(cycles - 1, max), max);
      assert cycles * max == (cycles - 1) * max + max;
    }
  }

  /** Then every cycle that may overlap begins before any of them records. */
  lemma {:induction false} BeginAll(c: Config, overlap: nat, cycles: nat) returns (events: seq<Event>)
    requires c.windowMs > 0 && c.maxPerCycle > 0 && c.threshold > 0 && 0 < overlap && cycles <= overlap
    ensures Fits(c, 0, overlap, events)
    ensures Play(c, 0, events) == World(0, AtOnce(c.threshold - 1), Full(cycles, c.maxPerCycle))
  {
    if cycles == 0 {
      events := FillUp(c, overlap, c.threshold - 1);
    } else {
      events := BeginAll(c, overlap, cycles - 1);
      StillClosed(c, c.threshold - 1, Full(cycles - 1, c.maxPerCycle), c.maxPerCycle);
      FullLength(cycles, c.maxPerCycle);
      var full := World(0, AtOnce(c.threshold - 1), Full(cycles, c.maxPerCycle));
      events := Extend(c, overlap, events, Begin(c.maxPerCycle), full);
    }
  }

  lemma {:induction false} SomeLeft(left: seq<nat>) returns (i: nat)
    requires Total(left) > 0
    ensures i < |left| && left[i] > 0
  {
    i := |left| - 1;
    if left[i] == 0 {
      i := SomeLeft(left[..i]);
    }
  }

  lemma {:induction false} RecordOne(c: Config, overlap: nat, n: nat, left: seq<nat>, events: seq<Event>)
    returns (less: seq<nat>, longer: seq<Event>)
    requires Fits(c, 0, overlap, events) && Play(c, 0, events) == World(0, AtOnce(n), left) && Total(left) > 0
    ensures Fits(c, 0, overlap, longer) && Play(c, 0, longer) == World(0, AtOnce(n + 1), less)
    ensures Total(less) == Total(left) - 1
  {
    var i := SomeLeft(left);
    less := left[i := left[i] - 1];
    longer := Extend(c, overlap, events, Record(i), World(0, AtOnce(n + 1), less));
    TotalUpdate(left, i, left[i] - 1);
  }

  /** And all of them record everything they may. */
  lemma {:induction false} RecordAll(c: Config, overlap: nat, n: nat, left: seq<nat>, events: seq<Event>)
    returns (all: seq<Event>)
    requires Fits(c, 0, overlap, events) && Play(c, 0, events) == World(0, AtOnce(n), left)
    ensures Fits(c, 0, overlap, all) && Play(c, 0, all).history == AtOnce(n + Total(left))
    decreases Total(left)
  {
    all := events;
    if Total(left) > 0 {
      var less;
      less, all := RecordOne(c, overlap, n, left, events);
      all := RecordAll(c, overlap, n + 1, less, all);
    }
  }

  /** Some run fills a window exactly to the bound. */
  lemma BoundAttained(c: Config, overlap: nat) returns (events: seq<Event>)
    requires c.windowMs > 0 && c.maxPerCycle > 0 && c.threshold > 0 && overlap > 0
    ensures Fits(c, 0, overlap, events)
    ensures InWindow(c, Play(c, 0, events).history, 0) == Bound(c, overlap)
  {
    events := BeginAll(c, overlap, overlap);
    FullTotal(overlap, c.maxPerCycle);
    events := RecordAll(c, overlap, c.threshold - 1, Full(overlap, c.maxPerCycle), events);
    AtOnceCounts(c, c.threshold - 1 + Total(Full(overlap, c.maxPerCycle)));
  }
}
