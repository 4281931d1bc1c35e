/** What makes a bridge port's lease and holder change, and where its connections go, over every interleaving. */
module ArmedCauses {
  import opened Runs
  import opened Armed

  predicate IsAt(s: State, t: nat, pc: Pc) { t in s.threads && s.threads[t] == pc }

  predicate Acts(s: State, step: Step, pc: Pc) { step.Advance? && IsAt(s, step.thread, pc) }

  // ---- Leases ----

  /** The step writes a lease for this port, asking for this deadline. */
  predicate WritesLease(s: State, step: Step, port: nat, deadline: nat) { Acts(s, step, ArmLocked(port, deadline)) }

  /** The step drops this port's lease: a new hold takes its place, or a connection finds it expired. */
  predicate DropsLease(s: State, step: Step, port: nat)
    requires port in s.ports
  {
    || Acts(s, step, HoldInserted(port))
    || (step.Advance? && step.thread in s.threads && s.threads[step.thread].ConnectAsking? && s.ports[port] <= step.now)
  }

  lemma LeaseAfter(s: State, step: Step, port: nat)
    requires Enabled(s, step)
    ensures var after := Effect(s, step).ports;
            && (port in after <==>
                || (exists deadline :: WritesLease(s, step, port, deadline))
                || (port in s.ports && !DropsLease(s, step, port)))
            && (port in after && port in s.ports ==> s.ports[port] <= after[port])
            && (forall deadline :: WritesLease(s, step, port, deadline) ==>
                  after[port] == if port in s.ports && deadline <= s.ports[port] then s.ports[port] else deadline)
            && (port in after && (forall deadline :: !WritesLease(s, step, port, deadline)) ==>
                  after[port] == s.ports[port])
  {
    if step.Advance? && s.threads[step.thread].ArmLocked? && s.threads[step.thread].port == port {
      assert WritesLease(s, step, port, s.threads[step.thread].deadline);
    }
  }

  /**
   A port is leased exactly from an `arm` call's commit, to the later of the deadline asked and the one
   it had, until a hold replaces the lease or a connection finds it expired.
   */
  lemma LeasedIff(run: Run<State, Step>, k: nat, port: nat)
    requires IsRun(run) && k < |run.steps|
    ensures var s, step, after := run.states[k], run.steps[k], run.states[k + 1].ports;
            && (port in after <==>
                || (exists deadline :: WritesLease(s, step, port, deadline))
                || (port in s.ports && !DropsLease(s, step, port)))
            && (forall deadline :: WritesLease(s, step, port, deadline) ==>
                  after[port] == if port in s.ports && deadline <= s.ports[port] then s.ports[port] else deadline)
            && (port in after && (forall deadline :: !WritesLease(s, step, port, deadline)) ==>
                  after[port] == s.ports[port])
  {
    assert StepAt(run, Next, k);
    LeaseAfter(run.states[k], run.steps[k], port);
  }

  // ---- Holders ----

  /** The step gives the port, held by no one, to a new holder that acknowledged. */
  predicate Installs(s: State, step: Step, port: nat, holder: nat) {
    Acts(s, step, HoldLooking(port)) && step.yes && port !in s.holders && holder == s.nextHolder
  }

  /** The step releases this very holder, which was found dead, or whose dial failed. */
  predicate Releases(s: State, step: Step, port: nat, holder: nat) {
    && step.Advance? && step.thread in s.threads
    && var pc := s.threads[step.thread];
    (pc.ArmReleasing? || pc.HoldReleasing? || pc.ConnectReleasing?) && pc.port == port && pc.holder == holder
  }

  predicate Holds(s: State, port: nat, holder: nat) { port in s.holders && s.holders[port] == holder }

  lemma HolderAfter(s: State, step: Step, port: nat, holder: nat)
    requires Enabled(s, step)
    ensures Holds(Effect(s, step), port, holder) <==>
            Installs(s, step, port, holder) || (Holds(s, port, holder) && !Releases(s, step, port, holder))
  {
  }

  /** A port is held exactly from an acknowledged hold of a free port until a call that found that holder gone. */
  lemma HeldIff(run: Run<State, Step>, k: nat, port: nat, holder: nat)
    requires IsRun(run) && k < |run.steps|
    ensures Holds(run.states[k + 1], port, holder) <==>
            || Installs(run.states[k], run.steps[k], port, holder)
            || (Holds(run.states[k], port, holder) && !Releases(run.states[k], run.steps[k], port, holder))
  {
    assert StepAt(run, Next, k);
    HolderAfter(run.states[k], run.steps[k], port, holder);
  }

  // ---- Calls ----

  /** An `arm` call ends exactly when it writes its lease, or finds the port's holder alive and writes nothing. */
  lemma ArmCallEndsIff(run: Run<State, Step>, k: nat, t: nat, port: nat)
    requires IsRun(run) && k < |run.steps| && InArmCall(run.states[k], t, port)
    ensures !InArmCall(run.states[k + 1], t, port) <==>
            && run.steps[k].Advance? && run.steps[k].thread == t
            && var pc := run.states[k].threads[t]; pc.ArmLocked? || (pc.ArmPeeking? && run.steps[k].yes)
  {
    assert StepAt(run, Next, k);
    if run.steps[k].thread != t { OthersStay(run.states[k], run.steps[k], t); }
  }

  /** It may write exactly once it finds the port held by no one, under the mutex it then keeps. */
  lemma ArmLocksIff(run: Run<State, Step>, k: nat, t: nat, port: nat, deadline: nat)
    requires IsRun(run) && k < |run.steps|
    ensures IsAt(run.states[k + 1], t, ArmLocked(port, deadline)) <==>
            || (Acts(run.states[k], run.steps[k], ArmChecking(port, deadline)) && run.steps[k].thread == t
                && port !in run.states[k].holders)
            || (IsAt(run.states[k], t, ArmLocked(port, deadline)) && run.steps[k].thread != t)
  {
    assert StepAt(run, Next, k);
    if run.steps[k].thread != t { OthersStay(run.states[k], run.steps[k], t); }
  }

  predicate InHoldCall(s: State, t: nat, port: nat) {
    && t in s.threads
    && (var pc := s.threads[t]; pc.HoldLooking? || pc.HoldPeeking? || pc.HoldReleasing? || pc.HoldInserted?)
    && s.threads[t].port == port
  }

  /** A `hold` call ends exactly when it holds the port, its own peer is gone, or the port's holder is alive. */
  lemma HoldCallEndsIff(run: Run<State, Step>, k: nat, t: nat, port: nat)
    requires IsRun(run) && k < |run.steps| && InHoldCall(run.states[k], t, port)
    ensures !InHoldCall(run.states[k + 1], t, port) <==>
            && run.steps[k].Advance? && run.steps[k].thread == t
            && var pc := run.states[k].threads[t];
            || pc.HoldInserted? || (pc.HoldPeeking? && run.steps[k].yes)
            || (pc.HoldLooking? && port !in run.states[k].holders && !run.steps[k].yes)
  {
    assert StepAt(run, Next, k);
    if run.steps[k].thread != t { OthersStay(run.states[k], run.steps[k], t); }
  }

  /** An `arm` call peeks at whoever holds the port, and releases only a holder it found gone. */
  lemma ArmPeeksAtTheHolder(run: Run<State, Step>, k: nat, t: nat, port: nat, deadline: nat, holder: nat)
    requires IsRun(run) && k < |run.steps| && run.steps[k].Advance? && run.steps[k].thread == t
    ensures IsAt(run.states[k + 1], t, ArmPeeking(port, deadline, holder)) <==>
            IsAt(run.states[k], t, ArmLooking(port, deadline)) && Holds(run.states[k], port, holder)
    ensures IsAt(run.states[k + 1], t, ArmReleasing(port, deadline, holder)) <==>
            IsAt(run.states[k], t, ArmPeeking(port, deadline, holder)) && !run.steps[k].yes
  {
    assert StepAt(run, Next, k);
  }

  /** So does a `hold` call. */
  lemma HoldPeeksAtTheHolder(run: Run<State, Step>, k: nat, t: nat, port: nat, holder: nat)
    requires IsRun(run) && k < |run.steps| && run.steps[k].Advance? && run.steps[k].thread == t
    ensures IsAt(run.states[k + 1], t, HoldPeeking(port, holder)) <==>
            IsAt(run.states[k], t, HoldLooking(port)) && Holds(run.states[k], port, holder)
    ensures IsAt(run.states[k + 1], t, HoldReleasing(port, holder)) <==>
            IsAt(run.states[k], t, HoldPeeking(port, holder)) && !run.steps[k].yes
  {
    assert StepAt(run, Next, k);
  }

  /** A call goes ahead exactly for a callback port that is no service's and none of those never dialled. */
  lemma BeginsIff(run: Run<State, Step>, k: nat, t: nat, port: nat)
    requires IsRun(run) && k < |run.steps|
    requires (exists deadline :: run.steps[k] == Arm(t, port, deadline)) || run.steps[k] == Hold(t, port)
    ensures var cfg := run.states[k].cfg;
            InArmCall(run.states[k + 1], t, port) || InHoldCall(run.states[k + 1], t, port) <==>
            && 1024 <= port && port != 12800 && port != 12802 && port != cfg.bridgePort && port != cfg.relayPort
            && port != cfg.pcscPort && port != cfg.grantPort && port != cfg.pulsePort
            && port !in [2345, 2375, 2376, 3306, 5432, 5678, 6379, 8001, 9229]
  {
    assert StepAt(run, Next, k);
  }

  /** A connection is dialled through a port's holder exactly when it has one, and asks for a lease exactly when not. */
  lemma ConnectionRoutedIff(run: Run<State, Step>, k: nat, t: nat, port: nat)
    requires IsRun(run) && k < |run.steps| && IsAt(run.states[k], t, ConnectLooking(port))
    requires run.steps[k].Advance? && run.steps[k].thread == t
    ensures var s := run.states[k];
            && (port in s.holders <==> exists holder :: IsAt(run.states[k + 1], t, ConnectDialling(port, holder)))
            && (port in s.holders ==> IsAt(run.states[k + 1], t, ConnectDialling(port, s.holders[port])))
            && (port !in s.holders <==> IsAt(run.states[k + 1], t, ConnectAsking(port)))
  {
    assert StepAt(run, Next, k);
  }

  /** A dialled connection releases the holder it was dialled through exactly when that holder is gone. */
  lemma DialReleasesIff(run: Run<State, Step>, k: nat, t: nat, port: nat, holder: nat)
    requires IsRun(run) && k < |run.steps| && run.steps[k].Advance? && run.steps[k].thread == t
    ensures IsAt(run.states[k + 1], t, ConnectReleasing(port, holder)) <==>
            IsAt(run.states[k], t, ConnectDialling(port, holder)) && !run.steps[k].yes
  {
    assert StepAt(run, Next, k);
  }

  /** A call under way can act, unless it wants the mutex another call holds, which then can act itself. */
  lemma NeverStuck(s: State, t: nat, now: nat, yes: bool) returns (u: nat)
    requires t in s.threads && !s.threads[t].Idle?
    ensures u in s.threads && !s.threads[u].Idle? && Enabled(s, Advance(u, now, yes))
    ensures u != t ==> Locks(s.threads[u])
  {
    if Enabled(s, Advance(t, now, yes)) {
      u := t;
    } else {
      u :| u in s.threads && Locks(s.threads[u]);
    }
  }
}
