/**
 What makes each piece of a callback lease change, and nothing else does: its stop
 flag, its row and deadline, and its listeners.
 */
module LeaseCauses {
  import opened Base
  import opened Runs
  import opened Leases
  import opened LeaseRuns

  // ---- Stop flags ----

  /** A stored lease of this serve has reached its deadline. */
  ghost predicate HasExpired(s: State, id: nat, now: nat) {
    exists port :: port in s.leases && s.leases[port].serve == id && s.leases[port].deadline <= now
  }

  /** The step raises this serve's stop flag. */
  ghost predicate Stops(s: State, step: Step, id: nat)
    requires Enabled(s, step)
  {
    match step
    case Reap(now) => HasExpired(s, id, now)
    case AcceptFails(failing, _) => failing == id
    case Insert(newer, _) => IsCurrent(s.leases, s.serves[newer].port, id)
    case Release(last, _) =>
      last == id && IsCurrent(s.leases, s.serves[id].port, id) && s.leases[s.serves[id].port].listeners == 1
    case _ => false
  }

  lemma StoppedAfter(s: State, step: Step, id: nat)
    requires Enabled(s, step)
    ensures id in Effect(s, step).stopped <==> id in s.stopped || Stops(s, step, id)
  {
  }

  /**
   A flag is raised exactly by a reap at or past the deadline of the serve's stored lease, by a
   failed accept of the serve itself, by its replacement, or by the release of its last listener.
   */
  lemma FlagRaisedIff(run: Run<State, Step>, k: nat, id: nat)
    requires IsRun(run) && k < |run.steps|
    ensures Enabled(run.states[k], run.steps[k])
    ensures id in run.states[k + 1].stopped <==> id in run.states[k].stopped || Stops(run.states[k], run.steps[k], id)
  {
    assert StepAt(run, Next, k);
    StoppedAfter(run.states[k], run.steps[k], id);
  }

  lemma {:induction false} FlagStays(run: Run<State, Step>, i: nat, j: nat, id: nat)
    requires IsRun(run) && i <= j < |run.states| && id in run.states[i].stopped
    ensures id in run.states[j].stopped
    decreases j
  {
    if i < j {
      FlagStays(run, i, j - 1, id);
      FlagRaisedIff(run, j - 1, id);
    }
  }

  /** From a reap at or past a lease's deadline on, each of its accept loops can exit. */
  lemma ExpiredCanExit(run: Run<State, Step>, i: nat, j: nat, port: nat, f: Family)
    requires IsRun(run) && i < j < |run.states| && run.steps[i].Reap?
    requires port in run.states[i].leases && run.states[i].leases[port].deadline <= run.steps[i].now
    ensures run.states[i].leases[port].serve in run.states[j].stopped
    ensures var id := run.states[i].leases[port].serve;
            id in run.states[j].serves && SocketOf(run.states[j].serves[id], f).Accepting? ==>
              Enabled(run.states[j], LoopExits(id, f))
  {
    FlagRaisedIff(run, i, run.states[i].leases[port].serve);
    FlagStays(run, i + 1, j, run.states[i].leases[port].serve);
  }

  /** Until then, with no failed accept and no replacement, a live lease keeps its flag down. */
  lemma {:induction false} LiveLeaseGoesOn(run: Run<State, Step>, i: nat, j: nat, id: nat)
    requires IsRun(run) && i <= j < |run.states| && id !in run.states[i].stopped
    requires forall n :: i <= n < j ==>
                           Enabled(run.states[n], run.steps[n]) && !Stops(run.states[n], run.steps[n], id)
    ensures id !in run.states[j].stopped
    decreases j
  {
    if i < j {
      LiveLeaseGoesOn(run, i, j - 1, id);
      FlagRaisedIff(run, j - 1, id);
    }
  }

  // ---- Rows ----

  /** The call extends this row: it asks for the port while the row is live and its own VM's. */
  predicate Extends(s: State, step: Step, port: nat)
    requires step.Refresh? ==> step.id in s.serves
  {
    && step.Refresh? && port != 0 && port in s.leases && s.serves[step.id].port == port
    && s.leases[port].serve !in s.stopped && s.leases[port].owner == s.serves[step.id].owner
  }

  /** The step takes this row's last listener away. */
  predicate Empties(s: State, step: Step, port: nat)
    requires step.Release? ==> step.id in s.serves
  {
    && step.Release? && port in s.leases && s.serves[step.id].port == port
    && s.leases[port].serve == step.id && s.leases[port].listeners == 1
  }

  lemma RowAfter(s: State, step: Step, port: nat)
    requires Enabled(s, step)
    ensures var rows := Effect(s, step).leases;
            if step.Insert? && s.serves[step.id].port == port then
              && port in rows && rows[port].owner == s.serves[step.id].owner && rows[port].serve == step.id
              && rows[port].deadline == step.now + s.serves[step.id].ttl
              && rows[port].listeners == (if s.serves[step.id].v6.Held? then 2 else 1)
            else
              && (port in rows <==> port in s.leases && !Empties(s, step, port))
              && (port in rows ==>
                    && rows[port].owner == s.leases[port].owner && rows[port].serve == s.leases[port].serve
                    && rows[port].deadline == (if Extends(s, step, port)
                                               then Max(s.leases[port].deadline, step.now + s.serves[step.id].ttl)
                                               else s.leases[port].deadline)
                    && rows[port].listeners == s.leases[port].listeners -
                                               (if step.Release? && s.serves[step.id].port == port
                                                   && s.leases[port].serve == step.id then 1 else 0))
  {
  }

  /**
   A row is written exactly by its serve's insertion, for as long as that asks; its deadline is
   moved exactly by its own VM's calls while it is live, and never back; it goes with its last listener.
   */
  lemma RowChangesIff(run: Run<State, Step>, k: nat, port: nat)
    requires IsRun(run) && k < |run.steps|
    ensures Enabled(run.states[k], run.steps[k])
    ensures var s, step, rows := run.states[k], run.steps[k], run.states[k + 1].leases;
            if step.Insert? && s.serves[step.id].port == port then
              && port in rows && rows[port].owner == s.serves[step.id].owner && rows[port].serve == step.id
              && rows[port].deadline == step.now + s.serves[step.id].ttl
            else
              && (port in rows <==> port in s.leases && !Empties(s, step, port))
              && (port in rows ==>
                    rows[port].deadline == if Extends(s, step, port)
                                           then Max(s.leases[port].deadline, step.now + s.serves[step.id].ttl)
                                           else s.leases[port].deadline)
  {
    assert StepAt(run, Next, k);
    RowAfter(run.states[k], run.steps[k], port);
  }

  // ---- Calls ----

  /** What a call finds: no row of its port, one being released, another VM's, or its own. */
  lemma RefreshAnswers(s: State, id: nat, now: nat)
    requires Enabled(s, Refresh(id, now))
    ensures id in Effect(s, Refresh(id, now)).serves
    ensures var v, w := s.serves[id], Effect(s, Refresh(id, now)).serves[id];
            && w == v.(pc := w.pc)
            && (w.pc.Binding? <==> v.port == 0 || v.port !in s.leases)
            && (w.pc.Waiting? <==> v.port != 0 && v.port in s.leases && s.leases[v.port].serve in s.stopped)
            && (w.pc.Done? <==> v.port != 0 && v.port in s.leases && s.leases[v.port].serve !in s.stopped)
  {
  }

  /** The call finds a row of its port whose lease is being released, or any other row. */
  predicate Finds(s: State, id: nat, stopped: bool)
    requires id in s.serves
  {
    && s.serves[id].port != 0 && s.serves[id].port in s.leases
    && (s.leases[s.serves[id].port].serve in s.stopped <==> stopped)
  }

  /** How far a call has got: where it stands after a step, by where it stood and what the step brought. */
  predicate StandsAt(s: State, step: Step, id: nat, pc: Pc)
    requires Enabled(s, step) && id in s.serves
  {
    var was := s.serves[id].pc;
    match pc
    case Asked => was.Asked? && !(step.Refresh? && step.id == id)
    case Waiting =>
      (step.Refresh? && step.id == id && Finds(s, id, true)) || (was.Waiting? && step != Wake(id))
    case Binding =>
      || (step.Refresh? && step.id == id && !Finds(s, id, true) && !Finds(s, id, false))
      || step == Wake(id) || (was.Binding? && !(step.BindV4? && step.id == id))
    case BoundV4 => (step.BindV4? && step.id == id && step.ok) || (was.BoundV4? && !(step.BindV6? && step.id == id))
    case Bound =>
      || (step.BindV6? && step.id == id && !step.result.AddressInUse?)
      || (was.Bound? && !(step.Insert? && step.id == id))
    case Inserted => (step.Insert? && step.id == id) || (was.Inserted? && !(step.SpawnV4? && step.id == id))
    case SpawnedV4 => step == SpawnV4(id, true) || (was.SpawnedV4? && !(step.SpawnV6? && step.id == id))
    case V4NotSpawned => step == SpawnV4(id, false) || (was.V4NotSpawned? && step != GiveUpV6(id))
    case Done =>
      || was.Done? || (step.Refresh? && step.id == id && Finds(s, id, false)) || step == GiveUpV6(id)
      || (step.BindV4? && step.id == id && !step.ok) || step == BindV6(id, AddressInUse)
      || (step.SpawnV6? && step.id == id)
  }

  /** The step is an action of this call itself. */
  predicate IsOwn(step: Step, id: nat) {
    && !step.Reap? && step.id == id
    && (step.Refresh? || step.Wake? || step.BindV4? || step.BindV6? || step.Insert? || step.SpawnV4? || step.SpawnV6?
        || step.GiveUpV6?)
  }

  lemma StillAfter(s: State, step: Step, id: nat, pc: Pc)
    requires Enabled(s, step) && id in s.serves && !IsOwn(step, id)
    ensures StandsAt(s, step, id, pc) <==> s.serves[id].pc == pc
  {
  }

  lemma BindingAfter(s: State, step: Step, id: nat, pc: Pc)
    requires Enabled(s, step) && id in s.serves && IsOwn(step, id)
    requires step.Refresh? || step.Wake? || step.BindV4? || step.BindV6?
    ensures id in Effect(s, step).serves
    ensures Effect(s, step).serves[id].pc == pc <==> StandsAt(s, step, id, pc)
  {
  }

  lemma ServingAfter(s: State, step: Step, id: nat, pc: Pc)
    requires Enabled(s, step) && id in s.serves && IsOwn(step, id)
    requires step.Insert? || step.SpawnV4? || step.SpawnV6? || step.GiveUpV6?
    ensures id in Effect(s, step).serves
    ensures Effect(s, step).serves[id].pc == pc <==> StandsAt(s, step, id, pc)
  {
  }

  lemma CallAfter(s: State, step: Step, id: nat, pc: Pc)
    requires Enabled(s, step) && id in s.serves
    ensures id in Effect(s, step).serves
    ensures Effect(s, step).serves[id].pc == pc <==> StandsAt(s, step, id, pc)
  {
    if !IsOwn(step, id) {
      StillAfter(s, step, id, pc);
      if step.Reap? || step.id != id { OthersStay(s, step, id); } else { LoopsStay(s, step); }
    } else if step.Refresh? || step.Wake? || step.BindV4? || step.BindV6? {
      BindingAfter(s, step, id, pc);
    } else {
      ServingAfter(s, step, id, pc);
    }
  }

  lemma LoopsStay(s: State, step: Step)
    requires Enabled(s, step) && (step.AcceptFails? || step.LoopExits? || step.Release?)
    ensures step.id in Effect(s, step).serves && Effect(s, step).serves[step.id].pc == s.serves[step.id].pc
  {
  }

  lemma OthersStay(s: State, step: Step, id: nat)
    requires Enabled(s, step) && id in s.serves && (step.Reap? || step.id != id)
    ensures id in Effect(s, step).serves && Effect(s, step).serves[id] == s.serves[id]
  {
  }

  /** A call takes exactly the steps it should: it waits for a row being released, gives way to a live one, or binds. */
  lemma CallMovesIff(run: Run<State, Step>, k: nat, id: nat, pc: Pc)
    requires IsRun(run) && k < |run.steps| && id in run.states[k].serves
    ensures Enabled(run.states[k], run.steps[k]) && id in run.states[k + 1].serves
    ensures run.states[k + 1].serves[id].pc == pc <==> StandsAt(run.states[k], run.steps[k], id, pc)
  {
    assert StepAt(run, Next, k);
    CallAfter(run.states[k], run.steps[k], id, pc);
  }

  /** The step starts, or ends, this serve's accept loop on that side. */
  lemma LoopAfter(s: State, step: Step, id: nat, f: Family)
    requires Enabled(s, step) && id in s.serves && Shape(s.serves[id])
    ensures id in Effect(s, step).serves
    ensures var before, after := SocketOf(s.serves[id], f), SocketOf(Effect(s, step).serves[id], f);
            && (!before.Accepting? ==>
                  (after.Accepting? <==>
                   || (f.V4? && step == SpawnV4(id, true))
                   || (f.V6? && step == SpawnV6(id, true) && before.Held?)))
            && (before.Accepting? ==> (!after.Accepting? <==> step == LoopExits(id, f)))
  {
  }

  predicate IsAccepting(s: State, id: nat, f: Family) { id in s.serves && SocketOf(s.serves[id], f).Accepting? }

  /** A loop that accepts was spawned by its serve, and has accepted ever since: only its own exit ends it. */
  lemma {:induction false} AcceptingWasSpawned(run: Run<State, Step>, k: nat, id: nat, f: Family) returns (i: nat)
    requires IsRun(run) && k < |run.states| && IsAccepting(run.states[k], id, f)
    ensures i < k && run.steps[i] == (if f.V4? then SpawnV4(id, true) else SpawnV6(id, true))
    ensures forall n :: i < n <= k ==> IsAccepting(run.states[n], id, f)
    ensures forall n :: i < n < k ==> run.steps[n] != LoopExits(id, f)
    decreases k
  {
    assert k > 0;
    var s, step := run.states[k - 1], run.steps[k - 1];
    assert StepAt(run, Next, k - 1);
    RunKeepsInv(run, k - 1);
    ServeWasThere(s, step, id, f);
    LoopAfter(s, step, id, f);
    if IsAccepting(s, id, f) {
      i := AcceptingWasSpawned(run, k - 1, id, f);
    } else {
      i := k - 1;
    }
  }

  lemma ServeWasThere(s: State, step: Step, id: nat, f: Family)
    requires Inv(s) && Enabled(s, step) && IsAccepting(Effect(s, step), id, f)
    ensures id in s.serves && Shape(s.serves[id])
  {
    if id in s.serves { assert Shape(s.serves[id]); }
  }

  // ---- No call is ever stuck ----

  /** The next action of a call, with these answers from the kernel. */
  function NextOf(v: Serve, id: nat, now: nat, ok: bool, result: BindResult, bound: nat): Step {
    match v.pc
    case Asked => Refresh(id, now)
    case Waiting => Wake(id)
    case Binding => BindV4(id, bound, ok)
    case BoundV4 => BindV6(id, result)
    case Bound => Insert(id, now)
    case Inserted => SpawnV4(id, ok)
    case SpawnedV4 => SpawnV6(id, ok)
    case V4NotSpawned => if v.v4.Released? then GiveUpV6(id) else Release(id, V4)
    case Done => Reap(now)
  }

  /**
   A call goes on whatever the kernel answers, except that it waits while the row it found being
   released is there; its loops end once told to, and what they leave is released.
   */
  lemma NeverStuck(run: Run<State, Step>, k: nat, id: nat, now: nat, f: Family)
    requires IsRun(run) && k < |run.states| && id in run.states[k].serves
    ensures var s, v := run.states[k], run.states[k].serves[id];
            && (Enabled(s, NextOf(v, id, now, false, AddressInUse, 0)) <==> !(v.pc.Waiting? && v.port in s.leases))
            && (SocketOf(v, f).Accepting? ==>
                  Enabled(s, AcceptFails(id, f)) && (id in s.stopped <==> Enabled(s, LoopExits(id, f))))
            && (SocketOf(v, f).Closed? ==> Enabled(s, Release(id, f)))
  {
    RunKeepsInv(run, k);
    assert Shape(run.states[k].serves[id]);
  }
}
