/**
 * How leadership is won, kept and lost (control-plane/src/services/leader-election.ts).
 * With the margin that mutual exclusion needs, a leader is never voted out: its
 * renewals find its own lease and are accepted, so that only a request that
 * throws, or the end of the process, costs it the leadership.
 */
module LeaderTenure {
  import opened Options
  import opened LeaderElection

  /** A leader's renewal is about the lease as it is, and no other write can get at that lease. */
  ghost predicate Undisturbed(w: World, p: Id)
    requires p in w.procs
  {
    w.procs[p].leader ==>
      var r := w.procs[p].request;
      && (r.Got? ==> r.lease == w.lease)
      && (r.Putting? ==> r.write in w.writes && Aims(w, r.write))
      && (r.Put? ==> r.applied)
      && forall m :: m in w.writes && Aims(w, m) ==> r.Putting? && m == r.write
  }

  ghost predicate AllUndisturbed(w: World) {
    forall p :: p in w.procs ==> Undisturbed(w, p)
  }

  /** While p leads, nobody else sends a write that the API server would accept. */
  lemma OthersReceive(k: Config, w: World, o: Id, p: Id)
    requires Safe(k) && Inv(k, w) && Enabled(k, w, Receive(o)) && o != p
    requires Leads(w, p) && Undisturbed(w, p)
    ensures Undisturbed(Apply(k, w, Receive(o)), p)
  {
    var q := w.procs[o];
    assert ProcInv(k, w, o) && LeaderInv(k, w, p) && LeaderInv(k, w, o);
    NotExpired(k, w, p, o);
  }

  lemma OwnReceive(k: Config, w: World, p: Id)
    requires Inv(k, w) && Enabled(k, w, Receive(p)) && Undisturbed(w, p)
    ensures Undisturbed(Apply(k, w, Receive(p)), p)
    ensures Leads(w, p) ==> Leads(Apply(k, w, Receive(p)), p)
  {
    assert ProcInv(k, w, p) && LeaderInv(k, w, p);
  }

  lemma Landing(k: Config, w: World, m: Write, p: Id)
    requires Inv(k, w) && m in w.writes && Leads(w, p) && Undisturbed(w, p)
    ensures Undisturbed(Apply(k, w, Land(m)), p)
  {
    assert ProcInv(k, w, p) && LeaderInv(k, w, p) && WriteInv(w, m);
    if Accepted(w, m) {
      AcceptedKeepsInv(k, w, m);
      assert Aims(w, m);
    }
  }

  lemma StepKeepsUndisturbed(k: Config, w: World, ev: Event, p: Id)
    requires Safe(k) && Inv(k, w) && Enabled(k, w, ev) && p in w.procs && Undisturbed(w, p)
    ensures Undisturbed(Apply(k, w, ev), p)
  {
    assert ProcInv(k, w, p) && LeaderInv(k, w, p) && AppliedInv(k, w, p);
    if ev == Receive(p) {
      OwnReceive(k, w, p);
    } else if ev.Receive? && Leads(w, p) {
      OthersReceive(k, w, ev.p, p);
    } else if ev.Land? && Leads(w, p) {
      Landing(k, w, ev.w, p);
    }
  }

  lemma StepKeepsAll(k: Config, w: World, ev: Event)
    requires Safe(k) && Inv(k, w) && Enabled(k, w, ev) && AllUndisturbed(w)
    ensures AllUndisturbed(Apply(k, w, ev))
  {
    var w' := Apply(k, w, ev);
    forall p | p in w'.procs ensures Undisturbed(w', p) {
      assert p in w.procs;
      StepKeepsUndisturbed(k, w, ev, p);
    }
  }

  lemma {:induction false} RunIsUndisturbed(k: Config, run: seq<World>, i: nat)
    requires Safe(k) && Run(k, run) && i < |run|
    ensures AllUndisturbed(run[i])
  {
    if i > 0 {
      RunIsUndisturbed(k, run, i - 1);
      RunKeepsInv(k, run, i - 1);
      assert Next(k, run[i - 1], run[i]);
      var ev :| Enabled(k, run[i - 1], ev) && run[i] == Apply(k, run[i - 1], ev);
      StepKeepsAll(k, run[i - 1], ev);
    }
  }

  lemma StepTurns(k: Config, w: World, ev: Event, p: Id)
    requires Inv(k, w) && Enabled(k, w, ev) && AllUndisturbed(w)
    ensures !Leads(w, p) && Leads(Apply(k, w, ev), p) ==> ev == Acknowledge(p) && w.procs[p].request.applied
    ensures Leads(w, p) && !Leads(Apply(k, w, ev), p) ==> ev == Fail(p) || ev == Restart(p)
  {
    if Leads(w, p) {
      assert Undisturbed(w, p);
      if ev == Receive(p) { OwnReceive(k, w, p); }
    }
  }

  /**
   * In every run, whatever the delays and the other processes do: a process
   * begins to lead only by the reply that its write was applied, and stops only
   * because a request of its own threw or it restarted.
   */
  lemma {:induction false} TermsBeginAndEnd(k: Config, run: seq<World>, i: nat, ev: Event, p: Id)
    requires Safe(k) && Run(k, run) && 0 < i < |run|
    requires Enabled(k, run[i - 1], ev) && run[i] == Apply(k, run[i - 1], ev)
    ensures !Leads(run[i - 1], p) && Leads(run[i], p) ==>
              ev == Acknowledge(p) && run[i - 1].procs[p].request.applied
    ensures Leads(run[i - 1], p) && !Leads(run[i], p) ==> ev == Fail(p) || ev == Restart(p)
  {
    RunKeepsInv(k, run, i - 1);
    RunIsUndisturbed(k, run, i - 1);
    StepTurns(k, run[i - 1], ev, p);
  }

  // ---------------------------------------------------------------------
  // A cycle that nothing interrupts
  // ---------------------------------------------------------------------

  /** A due tick, its GET answered and received at once. */
  function Asks(k: Config, w: World, p: Id): World
    requires Enabled(k, w, Tick(p))
  {
    var asked := Apply(k, w, Tick(p));
    var served := Apply(k, asked, Serve(p));
    Apply(k, served, Receive(p))
  }

  /** If that sent a write: the write decided and the reply received at once. */
  function Cycle(k: Config, w: World, p: Id): World
    requires Enabled(k, w, Tick(p))
  {
    var asked := Asks(k, w, p);
    if asked.procs[p].request.Putting? then
      var landed := Apply(k, asked, Land(asked.procs[p].request.write));
      Apply(k, landed, Acknowledge(p))
    else asked
  }

  /** The process leads already, or the lease is free for it to take. */
  predicate Entitled(k: Config, w: World, p: Id)
    requires p in w.procs
  {
    w.procs[p].leader || w.lease.None? || Expired(k, w.now, w.procs[p].offset, w.lease.value)
  }

  lemma AsksIfEntitled(k: Config, w: World, p: Id)
    requires Inv(k, w) && Enabled(k, w, Tick(p))
    ensures var q, w' := w.procs[p], Asks(k, w, p);
            && w'.now == w.now && w'.lease == w.lease && w'.nextVersion == w.nextVersion
            && w'.procs == w.procs[p := Process(q.offset, q.leader, w'.procs[p].request, Some(w.now + k.interval))]
            && (if Entitled(k, w, p)
                then
                  var seen := if w.lease.None? then None else Some(w.lease.value.version);
                  && w'.procs[p].request.Putting? && w'.procs[p].request.write in w'.writes
                  && w'.procs[p].request.write == Write(p, seen, w.now + q.offset, w.now)
                else w'.procs[p].request.Quiet?)
  {
    assert LeaderInv(k, w, p);
  }

  /** A write that names the lease as it is, decided and acknowledged. */
  lemma ClaimSucceeds(k: Config, w: World, p: Id, m: Write)
    requires p in w.procs && w.procs[p].request.Putting? && w.procs[p].request.write == m && m in w.writes
    requires m.from == p && Accepted(w, m) && w.procs[p].tick.Some?
    ensures var w' := Apply(k, Apply(k, w, Land(m)), Acknowledge(p));
            && w'.lease == Some(Lease(w.nextVersion, p, m.renewTime, m.written))
            && w'.procs == w.procs[p := Process(w.procs[p].offset, true, Quiet, w.procs[p].tick)]
  {}

  /**
   * An undisturbed cycle of any process in any reachable state: it leads at the
   * end if and only if it led, or there was no lease, or its clock had the lease
   * expired; and then the lease is its own and stamped with the present moment.
   * Otherwise the lease is as it was.
   */
  lemma CycleDecides(k: Config, w: World, p: Id)
    requires Inv(k, w) && Enabled(k, w, Tick(p))
    ensures var q, w' := w.procs[p], Cycle(k, w, p);
            && (Leads(w', p) <==> Entitled(k, w, p))
            && (w'.lease == if Entitled(k, w, p)
                            then Some(Lease(w.nextVersion, p, w.now + q.offset, w.now)) else w.lease)
            && w'.procs == w.procs[p := Process(q.offset, Entitled(k, w, p), Quiet, Some(w.now + k.interval))]
  {
    AsksIfEntitled(k, w, p);
    var asked := Asks(k, w, p);
    if asked.procs[p].request.Putting? {
      ClaimSucceeds(k, asked, p, asked.procs[p].request.write);
    }
  }
}
