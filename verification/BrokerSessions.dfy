/**
 What a session's end does to a decrypt made for it. A registration is in force
 from the REGISTER that binds its token to the UNREGISTER, or the REGISTER of
 another token for the same session, that ends it; a token bound again later is
 another registration, perhaps of another process.
 */
module BrokerSessions {
  import opened Base
  import opened Runs
  import opened Scopes
  import opened Requests
  import opened Broker
  import opened BrokerSafety
  import opened BrokerRuns
  import Sessions = SessionRegistry

  // ---- Registrations over a run ----

  /** The step takes this token's registration away. */
  predicate Ends(s: State, step: Step, token: nat) {
    var m := s.registry.sessions;
    token in m && match step
    case Unregister(session) => m[token].session == session
    case Register(r) => r.token !in m && m[token].session == r.session
    case _ => false
  }

  /** The step gives this token a registration it did not have. */
  predicate Binds(s: State, step: Step, token: nat) {
    step.Register? && step.registration.token == token && token !in s.registry.sessions
  }

  /** Nothing else changes which registration a token has. */
  lemma RegistrationStep(s: State, step: Step, token: nat)
    requires Enabled(s, step)
    ensures var m, m' := s.registry.sessions, Effect(s, step).registry.sessions;
            && (token in m' <==> Binds(s, step, token) || (token in m && !Ends(s, step, token)))
            && (token in m && token in m' ==> m'[token] == m[token])
            && (token !in m && token in m' ==> m'[token] == step.registration)
  {
    match step
    case Register(r) =>
    case Unregister(session) =>
    case _ => RegistryUntouched(s, step);
  }

  lemma RegistryUntouched(s: State, step: Step)
    requires Enabled(s, step) && !step.Register? && !step.Unregister?
    ensures Effect(s, step).registry.sessions == s.registry.sessions
  {
    if IsClients(step) { RegistryUntouchedByClients(s, step); }
  }

  lemma RegistryUntouchedByClients(s: State, step: Step)
    requires Enabled(s, step) && IsClients(step)
    ensures Effect(s, step).registry.sessions == s.registry.sessions
  {
    if step.Enter? {
      RegistryUntouchedByEnter(s, step.client, step.lookupAt, step.now, step.sameFile, step.located);
    }
  }

  lemma RegistryUntouchedByEnter(s: State, c: nat, lookupAt: nat, now: nat, sameFile: bool, located: bool)
    requires c in s.clients && s.clients[c].phase.Scoped?
    ensures OnEnter(s, c, lookupAt, now, sameFile, located).registry == s.registry
  {
  }

  predicate Registered(run: Run<State, Step>, k: nat, token: nat)
    requires k < |run.states|
  {
    token in run.states[k].registry.sessions
  }

  /** The step that bound the registration a token has at state `k`: which registration it is. */
  function BoundBy(run: Run<State, Step>, k: nat, token: nat): Option<nat>
    requires k < |run.states|
  {
    if k == 0 || !Registered(run, k, token) then None
    else if Registered(run, k - 1, token) then BoundBy(run, k - 1, token)
    else Some(k - 1)
  }

  /** No step from `i` on, before `j`, takes the token's registration away. */
  ghost predicate NeverEnds(run: Run<State, Step>, i: nat, j: nat, token: nat)
    requires j < |run.states| == |run.steps| + 1
  {
    forall n :: i <= n < j ==> !Ends(run.states[n], run.steps[n], token)
  }

  lemma NextRegistration(run: Run<State, Step>, n: nat, token: nat)
    requires IsRun(run) && n < |run.steps|
    ensures Registered(run, n + 1, token) <==>
            Binds(run.states[n], run.steps[n], token)
            || (Registered(run, n, token) && !Ends(run.states[n], run.steps[n], token))
    ensures Registered(run, n, token) && Registered(run, n + 1, token) ==>
              run.states[n + 1].registry.sessions[token] == run.states[n].registry.sessions[token]
    ensures !Registered(run, n, token) && Registered(run, n + 1, token) ==>
              run.states[n + 1].registry.sessions[token] == run.steps[n].registration
  {
    assert StepAt(run, Next, n);
    RegistrationStep(run.states[n], run.steps[n], token);
  }

  /** A registration in force was bound by one REGISTER, is what that asked for, and has not ended since. */
  lemma {:induction false} BoundByARegister(run: Run<State, Step>, k: nat, token: nat)
    requires IsRun(run) && k < |run.states| && Registered(run, k, token)
    ensures BoundBy(run, k, token).Some?
    ensures var n := BoundBy(run, k, token).value;
            && n < k && Binds(run.states[n], run.steps[n], token) && NeverEnds(run, n + 1, k, token)
            && run.states[k].registry.sessions[token] == run.steps[n].registration
    decreases k
  {
    assert k > 0;
    NextRegistration(run, k - 1, token);
    if Registered(run, k - 1, token) {
      BoundByARegister(run, k - 1, token);
    }
  }

  lemma {:induction false} StaysBound(run: Run<State, Step>, i: nat, j: nat, token: nat)
    requires IsRun(run) && i <= j < |run.states| && Registered(run, i, token) && NeverEnds(run, i, j, token)
    ensures Registered(run, j, token) && BoundBy(run, j, token) == BoundBy(run, i, token)
    ensures run.states[j].registry.sessions[token] == run.states[i].registry.sessions[token]
    decreases j
  {
    if i < j {
      StaysBound(run, i, j - 1, token);
      NextRegistration(run, j - 1, token);
    }
  }

  /** A token has the same registration at two states exactly when none of the steps between ended it. */
  lemma SameRegistrationIff(run: Run<State, Step>, i: nat, j: nat, token: nat)
    requires IsRun(run) && i <= j < |run.states| && Registered(run, i, token) && Registered(run, j, token)
    ensures BoundBy(run, i, token) == BoundBy(run, j, token) <==> NeverEnds(run, i, j, token)
  {
    if NeverEnds(run, i, j, token) {
      StaysBound(run, i, j, token);
    } else {
      var n :| i <= n < j && Ends(run.states[n], run.steps[n], token);
      BoundByARegister(run, i, token);
      BoundByARegister(run, j, token);
      NextRegistration(run, n, token);
      assert BoundBy(run, j, token).value >= n;
    }
  }

  // ---- A session gone for good ----

  lemma {:induction false} StaysUnregistered(run: Run<State, Step>, i: nat, j: nat, token: nat)
    requires IsRun(run) && i <= j < |run.states| && !Registered(run, i, token)
    requires forall n :: i <= n < j ==> !Binds(run.states[n], run.steps[n], token)
    ensures !Registered(run, j, token)
    decreases j
  {
    if i < j {
      StaysUnregistered(run, i, j - 1, token);
      NextRegistration(run, j - 1, token);
    }
  }

  /**
   A decrypt made for a session that was unregistered, or displaced, at any
   moment before it finishes installs nothing, unless the same token is
   registered again before the finish.
   */
  lemma LostSessionInstallsNothing(run: Run<State, Step>, i: nat, j: nat)
    requires IsRun(run) && i <= j < |run.steps| && run.steps[j].Finish? && run.states[j].worker.Returned?
    requires run.states[j].worker.job.scope.Session?
    requires !Registered(run, i, run.states[j].worker.job.scope.token)
    requires forall n :: i <= n < j ==> !Binds(run.states[n], run.steps[n], run.states[j].worker.job.scope.token)
    ensures run.states[j + 1].grants == run.states[j].grants
  {
    StaysUnregistered(run, i, j, run.states[j].worker.job.scope.token);
    RunKeepsInv(run, j);
    assert StepAt(run, Next, j);
    if run.states[j].worker.outcome.Some? {
      InstallsIff(run.states[j], run.steps[j].denyAt, run.steps[j].completeAt, run.steps[j].alive);
    }
  }

  // ---- Which caller a decrypt was made for ----

  /** The client has a scope, this one. */
  predicate HasScope(s: State, c: nat, scope: Scope) {
    c in s.clients && !s.clients[c].phase.Starting? && s.clients[c].phase.scope == scope
  }

  lemma EnterLeavesScopes(s: State, client: nat, lookupAt: nat, now: nat, sameFile: bool, located: bool, c: nat,
                          scope: Scope)
    requires client in s.clients && s.clients[client].phase.Scoped?
    requires HasScope(OnEnter(s, client, lookupAt, now, sameFile, located), c, scope)
    ensures HasScope(s, c, scope)
  {
  }

  lemma ClientsUntouched(s: State, step: Step)
    requires Enabled(s, step) && !IsClients(step)
    ensures Effect(s, step).clients == s.clients
  {
  }

  lemma OthersLeaveScopes(s: State, step: Step, c: nat, scope: Scope)
    requires Enabled(s, step) && IsClients(step) && !step.Enter? && !step.Resolve?
    requires HasScope(Effect(s, step), c, scope)
    ensures HasScope(s, c, scope)
  {
  }

  /** A scope comes from the registry, and the client keeps it to its end. */
  lemma ScopedBefore(s: State, step: Step, c: nat, scope: Scope)
    requires Enabled(s, step) && HasScope(Effect(s, step), c, scope)
    ensures || HasScope(s, c, scope)
            || (step.Resolve? && step.client == c
                && Sessions.ScopeFor(s.registry, step.token, step.tty, step.within) == Ok(scope))
  {
    if step.Enter? {
      EnterLeavesScopes(s, step.client, step.lookupAt, step.now, step.sameFile, step.located, c, scope);
    } else if !IsClients(step) {
      ClientsUntouched(s, step);
    } else if !step.Resolve? {
      OthersLeaveScopes(s, step, c, scope);
    }
  }

  /** The client got its scope at step `i` and has had it until state `k`. */
  ghost predicate ResolvedAt(run: Run<State, Step>, i: nat, k: nat, c: nat, scope: Scope)
    requires k < |run.states| == |run.steps| + 1
  {
    && i < k && run.steps[i].Resolve? && run.steps[i].client == c
    && Sessions.ScopeFor(run.states[i].registry, run.steps[i].token, run.steps[i].tty, run.steps[i].within) == Ok(scope)
    && forall n :: i < n <= k ==> HasScope(run.states[n], c, scope)
  }

  lemma {:induction false} ScopedWasResolved(run: Run<State, Step>, k: nat, c: nat, scope: Scope) returns (i: nat)
    requires IsRun(run) && k < |run.states| && HasScope(run.states[k], c, scope)
    ensures ResolvedAt(run, i, k, c, scope)
    ensures scope.Session? ==>
              && Registered(run, i, scope.token)
              && run.states[i].registry.sessions[scope.token].root in run.steps[i].within
    decreases k
  {
    assert k > 0;
    assert StepAt(run, Next, k - 1);
    ScopedBefore(run.states[k - 1], run.steps[k - 1], c, scope);
    if HasScope(run.states[k - 1], c, scope) {
      i := ScopedWasResolved(run, k - 1, c, scope);
    } else {
      i := k - 1;
    }
  }

  lemma PickAddsNothing(s: State, now: nat, present: set<string>)
    requires WellKeyed(s.queue)
    ensures OnPick(s, now, present).queue.requests.Keys <= s.queue.requests.Keys
  {
    SweepWinds(s.queue, now);
    PruneWinds(SweepTimeouts(s.queue, now), now);
  }

  lemma FinishAddsNothing(s: State, denyAt: nat, completeAt: nat, insertAt: nat, alive: bool)
    requires WellKeyed(s.queue) && s.worker.Returned?
    ensures OnFinish(s, denyAt, completeAt, insertAt, alive).queue.requests.Keys <= s.queue.requests.Keys
  {
  }

  lemma EnterAddsItsOwn(s: State, c: nat, lookupAt: nat, now: nat, sameFile: bool, located: bool, id: nat)
    requires c in s.clients && s.clients[c].phase.Scoped?
    requires id in OnEnter(s, c, lookupAt, now, sameFile, located).queue.requests && id !in s.queue.requests
    ensures id == s.queue.nextId
    ensures var r := OnEnter(s, c, lookupAt, now, sameFile, located).queue.requests[id];
            r.scope == s.clients[c].phase.scope && r.key == s.clients[c].key
  {
  }

  lemma LockAddsNothing(s: State, now: nat)
    requires WellKeyed(s.queue)
    ensures OnLock(s, now).queue.requests.Keys <= s.queue.requests.Keys
  {
    if s.active.Some? { EndWinds(s.queue, s.active.value, RequestState.Denied, now); }
  }

  lemma OthersAddNothing(s: State, step: Step)
    requires WellKeyed(s.queue) && Enabled(s, step) && !step.Enter?
    ensures Effect(s, step).queue.requests.Keys <= s.queue.requests.Keys
  {
    match step
    case Pick(now, present) => PickAddsNothing(s, now, present);
    case Finish(denyAt, completeAt, insertAt, alive) => FinishAddsNothing(s, denyAt, completeAt, insertAt, alive);
    case Poll(c, now) => EndWinds(s.queue, s.clients[c].phase.id, TimedOut, now);
    case Deny(denied, now) => EndWinds(s.queue, denied, RequestState.Denied, now);
    case Lock(now) => LockAddsNothing(s, now);
    case Spawned | DecryptReturns(_, _) | Start(_, _, _, _) | Resolve(_, _, _, _) | Collect(_, _) | Mint(_, _, _)
       | Register(_) | Unregister(_) | Redeem(_, _, _) => QueueUntouched(s, step);
  }

  /** A request enters the queue only for a client whose scope is resolved. */
  lemma NewRequestIsAClients(s: State, step: Step, id: nat)
    requires WellKeyed(s.queue) && Enabled(s, step)
    requires id in Effect(s, step).queue.requests && id !in s.queue.requests
    ensures step.Enter? && id == s.queue.nextId
    ensures var r := Effect(s, step).queue.requests[id];
            r.scope == s.clients[step.client].phase.scope && r.key == s.clients[step.client].key
  {
    if step.Enter? {
      EnterAddsItsOwn(s, step.client, step.lookupAt, step.now, step.sameFile, step.located, id);
    } else {
      OthersAddNothing(s, step);
    }
  }

  /** Step `e` put the request in the queue, for a client with that scope and key. */
  ghost predicate EnteredAt(run: Run<State, Step>, e: nat, k: nat, id: nat, scope: Scope, key: string)
    requires k < |run.states| == |run.steps| + 1
  {
    && e < k && run.steps[e].Enter? && id == run.states[e].queue.nextId
    && run.steps[e].client in run.states[e].clients
    && run.states[e].clients[run.steps[e].client].phase == Scoped(scope)
    && run.states[e].clients[run.steps[e].client].key == key
  }

  lemma RequestBefore(run: Run<State, Step>, k: nat, id: nat)
    requires IsRun(run) && k < |run.steps| && id in run.states[k + 1].queue.requests
    ensures var r := run.states[k + 1].queue.requests[id];
            if id in run.states[k].queue.requests then
              run.states[k].queue.requests[id].scope == r.scope && run.states[k].queue.requests[id].key == r.key
            else EnteredAt(run, k, k + 1, id, r.scope, r.key)
  {
    assert StepAt(run, Next, k);
    if id in run.states[k].queue.requests {
      NextEvolves(run, k);
      assert RequestEvolves(run.states[k].queue.requests[id], run.states[k + 1].queue.requests[id]);
    } else {
      RunIsKeyed(run, k);
      NewRequestIsAClients(run.states[k], run.steps[k], id);
    }
  }

  lemma {:induction false} RequestWasEntered(run: Run<State, Step>, k: nat, id: nat) returns (e: nat)
    requires IsRun(run) && k < |run.states| && id in run.states[k].queue.requests
    ensures EnteredAt(run, e, k, id, run.states[k].queue.requests[id].scope, run.states[k].queue.requests[id].key)
    decreases k
  {
    assert k > 0;
    RequestBefore(run, k - 1, id);
    if id in run.states[k - 1].queue.requests {
      e := RequestWasEntered(run, k - 1, id);
    } else {
      e := k - 1;
    }
  }

  /** A job starts from a request of its own scope and key. */
  lemma PickedJob(s: State, now: nat, present: set<string>)
    requires WellKeyed(s.queue) && s.worker.Idle? && !OnPick(s, now, present).worker.Idle?
    ensures var job := OnPick(s, now, present).worker.job;
            && job.id in s.queue.requests
            && s.queue.requests[job.id].scope == job.scope && s.queue.requests[job.id].key == job.key
  {
    PickEvolves(s, now, present);
    PickAddsNothing(s, now, present);
    var job, q := OnPick(s, now, present).worker.job, OnPick(s, now, present).queue;
    assert job.id in q.requests;
    assert RequestEvolves(s.queue.requests[job.id], q.requests[job.id]);
  }

  lemma JobUntouched(s: State, step: Step)
    requires Enabled(s, step) && !step.Pick? && !Effect(s, step).worker.Idle?
    ensures !s.worker.Idle? && s.worker.job == Effect(s, step).worker.job
  {
  }

  lemma JobBefore(s: State, step: Step)
    requires WellKeyed(s.queue) && Enabled(s, step) && !Effect(s, step).worker.Idle?
    ensures var job := Effect(s, step).worker.job;
            || (!s.worker.Idle? && s.worker.job == job)
            || (job.id in s.queue.requests
                && s.queue.requests[job.id].scope == job.scope && s.queue.requests[job.id].key == job.key)
  {
    if step.Pick? {
      PickedJob(s, step.now, step.presentTtys);
    } else {
      JobUntouched(s, step);
    }
  }

  lemma {:induction false} JobWasEntered(run: Run<State, Step>, k: nat) returns (e: nat)
    requires IsRun(run) && k < |run.states| && !run.states[k].worker.Idle?
    ensures var job := run.states[k].worker.job; EnteredAt(run, e, k, job.id, job.scope, job.key)
    decreases k
  {
    assert k > 0;
    RunIsKeyed(run, k - 1);
    assert StepAt(run, Next, k - 1);
    JobBefore(run.states[k - 1], run.steps[k - 1]);
    if !run.states[k - 1].worker.Idle? && run.states[k - 1].worker.job == run.states[k].worker.job {
      e := JobWasEntered(run, k - 1);
    } else {
      e := RequestWasEntered(run, k - 1, run.states[k].worker.job.id);
    }
  }

  /** Every decrypt under way was asked for by a caller inside the tree of the registration its token then had. */
  lemma JobWasResolved(run: Run<State, Step>, k: nat) returns (i: nat, e: nat)
    requires IsRun(run) && k < |run.states| && !run.states[k].worker.Idle?
    ensures var job := run.states[k].worker.job;
            && EnteredAt(run, e, k, job.id, job.scope, job.key)
            && ResolvedAt(run, i, e, run.steps[e].client, job.scope)
            && (job.scope.Session? ==>
                  && Registered(run, i, job.scope.token)
                  && run.states[i].registry.sessions[job.scope.token].root in run.steps[i].within)
  {
    e := JobWasEntered(run, k);
    i := ScopedWasResolved(run, e, run.steps[e].client, run.states[k].worker.job.scope);
  }

  /**
   The exact condition. When a session's decrypt finishes with its token
   registered, the registration that receives the grant is the one its caller
   was resolved under if and only if no step from that resolve to the finish
   unregistered or displaced it; and then its process root is the same.
   */
  lemma InstalledUnderTheSameRegistrationIff(run: Run<State, Step>, j: nat) returns (i: nat, e: nat)
    requires IsRun(run) && j < |run.steps| && run.steps[j].Finish? && run.states[j].worker.Returned?
    requires run.states[j].worker.job.scope.Session? && Registered(run, j, run.states[j].worker.job.scope.token)
    ensures var job := run.states[j].worker.job; var token := job.scope.token;
            && EnteredAt(run, e, j, job.id, job.scope, job.key)
            && ResolvedAt(run, i, e, run.steps[e].client, job.scope) && Registered(run, i, token)
            && (BoundBy(run, i, token) == BoundBy(run, j, token) <==> NeverEnds(run, i, j, token))
            && (NeverEnds(run, i, j, token) ==>
                  run.states[j].registry.sessions[token] == run.states[i].registry.sessions[token])
  {
    i, e := JobWasResolved(run, j);
    var token := run.states[j].worker.job.scope.token;
    SameRegistrationIff(run, i, j, token);
    if NeverEnds(run, i, j, token) { StaysBound(run, i, j, token); }
  }

  /** From its installation on a grant has one registration: ending that revokes the grant. */
  lemma GrantKeepsItsRegistration(run: Run<State, Step>, i: nat, j: nat, token: nat, key: string)
    requires IsRun(run) && i <= j < |run.states|
    requires forall n :: i <= n <= j ==> (Scope.Session(token), key) in run.states[n].grants
    ensures Registered(run, i, token) && Registered(run, j, token)
    ensures NeverEnds(run, i, j, token) && BoundBy(run, i, token) == BoundBy(run, j, token)
  {
    GrantsAreCurrent(run, i, Scope.Session(token), key);
    forall n | i <= n < j
      ensures !Ends(run.states[n], run.steps[n], token)
    {
      GrantsAreCurrent(run, n + 1, Scope.Session(token), key);
      GrantsAreCurrent(run, n, Scope.Session(token), key);
      NextRegistration(run, n, token);
    }
    StaysBound(run, i, j, token);
  }

  // ---- Which caller a value is released to ----

  /** The step hands a value to a caller of this session. */
  ghost predicate Releases(run: Run<State, Step>, k: nat, token: nat)
    requires IsRun(run) && k < |run.steps|
  {
    && run.states[k + 1].history.releases != run.states[k].history.releases
    && run.steps[k].Collect? && HasScope(run.states[k], run.steps[k].client, Scope.Session(token))
  }

  lemma ReleasedFromAGrant(s: State, c: nat, now: nat)
    requires Enabled(s, Collect(c, now)) && OnCollect(s, c, now).history.releases != s.history.releases
    ensures (s.clients[c].phase.scope, s.clients[c].key) in s.grants
  {
  }

  /**
   A release goes to a caller resolved under the very registration its grant has if and
   only if no step from that resolve to the collection unregistered or displaced it.
   */
  lemma ReleasedUnderTheSameRegistrationIff(run: Run<State, Step>, k: nat, token: nat) returns (i: nat)
    requires IsRun(run) && k < |run.steps| && Releases(run, k, token)
    ensures var c := run.steps[k].client;
            && (Scope.Session(token), run.states[k].clients[c].key) in run.states[k].grants
            && ResolvedAt(run, i, k, c, Scope.Session(token))
            && Registered(run, k, token) && Registered(run, i, token)
            && run.states[i].registry.sessions[token].root in run.steps[i].within
            && (BoundBy(run, i, token) == BoundBy(run, k, token) <==> NeverEnds(run, i, k, token))
            && (NeverEnds(run, i, k, token) ==>
                  run.states[k].registry.sessions[token] == run.states[i].registry.sessions[token])
  {
    var c := run.steps[k].client;
    assert StepAt(run, Next, k);
    ReleasedFromAGrant(run.states[k], c, run.steps[k].now);
    GrantsAreCurrent(run, k, Scope.Session(token), run.states[k].clients[c].key);
    i := ScopedWasResolved(run, k, c, Scope.Session(token));
    SameRegistrationIff(run, i, k, token);
    if NeverEnds(run, i, k, token) { StaysBound(run, i, k, token); }
  }
}
