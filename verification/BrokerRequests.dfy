/**
 The broker's queue over whole runs: which request a pick starts, and exactly what moves or
 ends each request.
 */
module BrokerRequests {
  import opened Base
  import opened Runs
  import opened Requests
  import opened QueueAnswers
  import opened Broker
  import opened BrokerQueue
  import opened BrokerSafety
  import BrokerRuns
  import BrokerCauses

  // ---- Housekeeping ----

  /** The request is active and its lifetime is over. */
  predicate IsOverdueIn(q: QueueModel, id: nat, now: nat) {
    IsActiveIn(q, id) && q.requests[id].created + q.limits.ttl < now
  }

  /** The request has ended, perhaps just now, and twice its lifetime is over too. */
  predicate IsForgotten(q: QueueModel, id: nat, now: nat)
    requires id in q.requests
  {
    && (!IsActiveIn(q, id) || IsOverdueIn(q, id, now))
    && !(q.requests[id].created <= now < q.requests[id].created + 2 * q.limits.ttl)
  }

  ghost function Tidied(q: QueueModel, now: nat): QueueModel { Prune(SweepTimeouts(q, now), now) }

  lemma TidiedRequest(q: QueueModel, now: nat, id: nat)
    requires QueueInv(q)
    ensures id in Tidied(q, now).requests <==> id in q.requests && !IsForgotten(q, id, now)
    ensures id in Tidied(q, now).requests ==>
              Tidied(q, now).requests[id] == if IsOverdueIn(q, id, now)
                                             then q.requests[id].(state := TimedOut,
                                                                  generation := q.requests[id].generation + 1)
                                             else q.requests[id]
  {
    var swept := Apply(q, DoSweep(now));
    ApplyKeepsInv(q, DoSweep(now));
    if id in q.requests {
      RequestAfter(q, DoSweep(now), id);
      RequestAfter(swept, DoPrune(now), id);
    }
  }

  lemma TidiedFlight(q: QueueModel, now: nat)
    requires QueueInv(q) && q.inflight.None?
    ensures Tidied(q, now).inflight.None? && Tidied(q, now).limits == q.limits && QueueInv(Tidied(q, now))
    ensures Tidied(q, now).lastFinished == if exists id :: IsOverdueIn(q, id, now) then Some(now) else q.lastFinished
  {
    FlightAfter(q, DoSweep(now));
    ApplyKeepsInv(q, DoSweep(now));
    ApplyKeepsInv(SweepTimeouts(q, now), DoPrune(now));
    forall id
      ensures EndsFlight(q, DoSweep(now), id) <==> IsOverdueIn(q, id, now)
    {
    }
  }

  lemma IdleMeansNoFlight(s: State)
    requires WorkInv(s.queue, s.worker, s.history.decrypts, s.lockEpoch) && s.worker.Idle?
    ensures s.queue.inflight.None?
  {
  }

  // ---- Which request a pick starts ----

  /** The queue and the worker after a pick, by the request that is ready once the queue is tidied. */
  ghost predicate PickedTo(s: State, now: nat, after: State) {
    var kept := Tidied(s.queue, now);
    match NextReady(kept, now)
    case None => after.worker.Idle? && after.queue == kept
    case Some(id) =>
      && id in kept.requests && after.queue == MarkDecrypting(kept, id, now).0
      && after.worker == Running(Job(id, kept.requests[id].scope, kept.requests[id].key, kept.generation + 1,
                                     s.lockEpoch, kept.requests[id].requestedTtl), now)
  }

  lemma PickedWorker(s: State, now: nat, present: set<string>)
    requires QueueInv(s.queue) && s.queue.inflight.None? && s.worker.Idle?
    ensures PickedTo(s, now, OnPick(s, now, present))
  {
    TidiedFlight(s.queue, now);
    var kept := Tidied(s.queue, now);
    if NextReady(kept, now).Some? { ReadyIsMarked(kept, NextReady(kept, now).value, now); }
  }

  lemma MarkedRest(q: QueueModel, id: nat, now: nat, other: nat)
    requires QueueInv(q) && NextReady(q, now) == Some(id)
    ensures var q' := MarkDecrypting(q, id, now).0;
            && (IsPendingIn(q', other) <==> IsPendingIn(q, other) && other != id)
            && q'.lastFinished == q.lastFinished && q'.limits == q.limits
            && id in q'.requests && q'.requests[id].state.Decrypting?
  {
    NextReadyIff(q, now, id);
    FlightAfter(q, DoMark(id, now));
    if other in q.requests { RequestAfter(q, DoMark(id, now), other); }
    RequestAfter(q, DoMark(id, now), id);
  }

  /** The worker has just started this request: its scope, its key and its wishes, in this epoch, at this time. */
  predicate IsJobFor(s: State, after: State, id: nat, now: nat) {
    && id in s.queue.requests && after.worker.Running? && after.worker.started == now
    && var r, job := s.queue.requests[id], after.worker.job;
    && job.id == id && job.scope == r.scope && job.key == r.key && job.requestedTtl == r.requestedTtl
    && job.lockEpoch == s.lockEpoch
  }

  lemma PickOutcome(s: State, now: nat, after: State, other: nat)
    requires QueueInv(s.queue) && s.queue.inflight.None? && s.worker.Idle? && PickedTo(s, now, after)
    ensures var q, q' := s.queue, after.queue;
            && (IsPendingIn(q', other) <==>
                && IsPendingIn(q, other) && !IsOverdueIn(q, other, now)
                && !(after.worker.Running? && after.worker.job.id == other))
            && q'.lastFinished == (if exists id :: IsOverdueIn(q, id, now) then Some(now) else q.lastFinished)
            && (after.worker.Running? ==>
                  var id := after.worker.job.id;
                  && IsJobFor(s, after, id, now) && Cooled(q', now)
                  && IsPendingIn(q, id) && !IsOverdueIn(q, id, now) && (IsPendingIn(q', other) ==> id < other))
            && (!after.worker.Running? ==> after.worker.Idle? && (Cooled(q', now) ==> !IsPendingIn(q', other)))
  {
    var kept := Tidied(s.queue, now);
    TidiedFlight(s.queue, now);
    TidiedRequest(s.queue, now, other);
    if NextReady(kept, now).Some? {
      var id := NextReady(kept, now).value;
      NextReadyIff(kept, now, id);
      MarkedRest(kept, id, now, other);
      TidiedRequest(s.queue, now, id);
    } else {
      NextReadyIff(kept, now, 0);
    }
  }

  /**
   A pick starts the oldest pending request that is not overdue, for its own scope and key in
   the epoch in force, exactly when the cooldown since the last end, a timeout just now
   included, is over; it leaves every other pending request pending.
   */
  lemma PickStartsTheOldest(run: Run<State, Step>, k: nat, other: nat)
    requires Broker.IsRun(run) && k < |run.steps| && run.steps[k].Pick?
    ensures var s, after, now := run.states[k], run.states[k + 1], run.steps[k].now;
            var q, q' := s.queue, after.queue;
            && (IsPendingIn(q', other) <==>
                && IsPendingIn(q, other) && !IsOverdueIn(q, other, now)
                && !(after.worker.Running? && after.worker.job.id == other))
            && q'.lastFinished == (if exists id :: IsOverdueIn(q, id, now) then Some(now) else q.lastFinished)
            && (after.worker.Running? ==>
                  var id := after.worker.job.id;
                  && IsJobFor(s, after, id, now) && Cooled(q', now)
                  && IsPendingIn(q, id) && !IsOverdueIn(q, id, now) && (IsPendingIn(q', other) ==> id < other))
            && (!after.worker.Running? ==> after.worker.Idle? && (Cooled(q', now) ==> !IsPendingIn(q', other)))
  {
    assert StepAt(run, Broker.Next, k);
    BrokerCauses.RunGrantsFit(run, k);
    IdleMeansNoFlight(run.states[k]);
    PickedWorker(run.states[k], run.steps[k].now, run.steps[k].presentTtys);
    PickOutcome(run.states[k], run.steps[k].now, run.states[k + 1], other);
  }

  // ---- What moves a request ----

  /** Its time is over, by the worker's sweep or by the client that waits for it. */
  predicate RunsOut(s: State, step: Step, id: nat) {
    && IsActiveIn(s.queue, id)
    && ((step.Pick? && IsOverdueIn(s.queue, id, step.now))
        || (step.Poll? && step.client in s.clients && s.clients[step.client].phase.Waiting?
            && s.clients[step.client].phase.id == id && s.clients[step.client].phase.deadline < step.now))
  }

  /** A returned value has no one to go to: a lock came, or its terminal, its process or its session is gone. */
  predicate IsOrphaned(s: State, step: Step) {
    && step.Finish? && s.worker.Returned? && s.worker.outcome.Some?
    && (s.lockEpoch != s.worker.job.lockEpoch || !step.alive
        || (s.worker.job.scope.Session? && s.worker.job.scope.token !in s.registry.sessions))
  }

  /** It is denied: by a human, by a lock over its running decrypt, or because its value has no one to go to. */
  predicate IsDenied(s: State, step: Step, id: nat) {
    && IsActiveIn(s.queue, id)
    && ((step.Deny? && step.id == id) || (step.Lock? && s.active == Some(id))
        || (IsOrphaned(s, step) && s.worker.job.id == id))
  }

  predicate IsGranted(s: State, step: Step, id: nat) { BrokerCauses.Installs(s, step) && s.worker.job.id == id }

  predicate IsFailed(s: State, step: Step, id: nat) {
    step.Finish? && s.worker.Returned? && s.worker.outcome.None? && s.worker.job.id == id
  }

  predicate IsStarted(s: State, step: Step, after: State, id: nat) {
    step.Pick? && s.worker.Idle? && after.worker.Running? && after.worker.job.id == id
  }

  /** The state a step leaves a request in. */
  function StateAfter(s: State, step: Step, after: State, id: nat): RequestState
    requires id in s.queue.requests
  {
    if RunsOut(s, step, id) then TimedOut
    else if IsDenied(s, step, id) then RequestState.Denied
    else if IsGranted(s, step, id) then Granted
    else if IsFailed(s, step, id) then Failed
    else if IsStarted(s, step, after, id) then Decrypting
    else s.queue.requests[id].state
  }

  ghost predicate MovesTo(q: QueueModel, id: nat, state: RequestState) {
    id in q.requests && q.requests[id].state == state
  }

  lemma MarkMoves(q: QueueModel, next: nat, now: nat, id: nat)
    requires QueueInv(q) && NextReady(q, now) == Some(next) && id in q.requests
    ensures MovesTo(MarkDecrypting(q, next, now).0, id, if id == next then Decrypting else q.requests[id].state)
  {
    NextReadyIff(q, now, next);
    RequestAfter(q, DoMark(next, now), id);
  }

  /** A request through housekeeping and the start that may follow it. */
  lemma TidiedMoves(q: QueueModel, now: nat, id: nat)
    requires QueueInv(q) && q.inflight.None? && id in q.requests
    ensures var kept := Tidied(q, now);
            var next := NextReady(kept, now);
            var q' := if next.Some? then MarkDecrypting(kept, next.value, now).0 else kept;
            if IsForgotten(q, id, now) then id !in q'.requests && next != Some(id)
            else MovesTo(q', id, if IsOverdueIn(q, id, now) then TimedOut
                                 else if next == Some(id) then Decrypting else q.requests[id].state)
  {
    var kept := Tidied(q, now);
    TidiedFlight(q, now);
    TidiedRequest(q, now, id);
    NextReadyIff(kept, now, id);
    if NextReady(kept, now).Some? {
      var next := NextReady(kept, now).value;
      if id in kept.requests { MarkMoves(kept, next, now, id); }
    }
  }

  lemma PickMoves(s: State, now: nat, present: set<string>, id: nat)
    requires QueueInv(s.queue) && s.queue.inflight.None? && s.worker.Idle? && id in s.queue.requests
    ensures var step, after := Pick(now, present), OnPick(s, now, present);
            if IsForgotten(s.queue, id, now) then id !in after.queue.requests
            else MovesTo(after.queue, id, StateAfter(s, step, after, id))
  {
    PickedWorker(s, now, present);
    PickedMoves(s, now, present, OnPick(s, now, present), id);
  }

  lemma PickedMoves(s: State, now: nat, present: set<string>, after: State, id: nat)
    requires QueueInv(s.queue) && s.queue.inflight.None? && s.worker.Idle? && id in s.queue.requests
    requires PickedTo(s, now, after)
    ensures if IsForgotten(s.queue, id, now) then id !in after.queue.requests
            else MovesTo(after.queue, id, StateAfter(s, Pick(now, present), after, id))
  {
    TidiedMoves(s.queue, now, id);
    StateAfterPick(s, now, present, after, id, NextReady(Tidied(s.queue, now), now));
  }

  lemma StateAfterPick(s: State, now: nat, present: set<string>, after: State, id: nat, next: Option<nat>)
    requires id in s.queue.requests && s.worker.Idle?
    requires if next.Some? then after.worker.Running? && after.worker.job.id == next.value else after.worker.Idle?
    ensures StateAfter(s, Pick(now, present), after, id) ==
            if IsOverdueIn(s.queue, id, now) then TimedOut
            else if next == Some(id) then Decrypting else s.queue.requests[id].state
  {
  }

  lemma EndMoves(q: QueueModel, ended: nat, ending: RequestState, now: nat, id: nat)
    requires WellKeyed(q) && id in q.requests
    ensures MovesTo(End(q, ended, ending, now).0, id,
                    if ended == id && IsActiveIn(q, id) then ending else q.requests[id].state)
  {
  }

  lemma DenyKeepsInv(q: QueueModel, denied: nat, now: nat)
    requires QueueInv(q)
    ensures QueueInv(End(q, denied, RequestState.Denied, now).0)
  {
    ApplyKeepsInv(q, DoDeny(denied, now));
  }

  lemma CompleteMoves(q: QueueModel, done: nat, generation: nat, now: nat, id: nat)
    requires QueueInv(q) && id in q.requests
    ensures MovesTo(Complete(q, done, generation, now).0, id,
                    if done == id && Flies(q, id, generation) then Granted else q.requests[id].state)
  {
    RequestAfter(q, DoComplete(done, generation, now), id);
  }

  lemma ReturnedMoves(s: State, denyAt: nat, completeAt: nat, alive: bool, id: nat)
    requires QueueInv(s.queue) && s.worker.Returned? && id in s.queue.requests
    ensures var job := s.worker.job;
            var orphan := || s.lockEpoch != job.lockEpoch || !alive
                          || (job.scope.Session? && job.scope.token !in s.registry.sessions);
            MovesTo(Completed(s, denyAt, completeAt, alive).0, id,
                    if job.id != id then s.queue.requests[id].state
                    else if orphan then (if IsActiveIn(s.queue, id) then RequestState.Denied
                                         else s.queue.requests[id].state)
                    else if Flies(s.queue, id, job.generation) then Granted else s.queue.requests[id].state)
  {
    var job := s.worker.job;
    EndMoves(s.queue, job.id, RequestState.Denied, denyAt, id);
    DenyKeepsInv(s.queue, job.id, denyAt);
    var ended := End(s.queue, job.id, RequestState.Denied, denyAt).0;
    CompleteMoves(s.queue, job.id, job.generation, completeAt, id);
    CompleteMoves(ended, job.id, job.generation, completeAt, id);
  }

  lemma FinishMoves(s: State, denyAt: nat, completeAt: nat, insertAt: nat, alive: bool, id: nat)
    requires WorkInv(s.queue, s.worker, s.history.decrypts, s.lockEpoch) && s.worker.Returned? && id in s.queue.requests
    ensures var step, after := Finish(denyAt, completeAt, insertAt, alive),
                               OnFinish(s, denyAt, completeAt, insertAt, alive);
            MovesTo(after.queue, id, StateAfter(s, step, after, id))
  {
    if s.worker.outcome.Some? {
      ReturnedMoves(s, denyAt, completeAt, alive, id);
    } else {
      RequestAfter(s.queue, DoFail(s.worker.job.id, completeAt), id);
    }
  }

  lemma EnterMoves(s: State, c: nat, lookupAt: nat, now: nat, sameFile: bool, located: bool, id: nat)
    requires QueueInv(s.queue) && c in s.clients && s.clients[c].phase.Scoped? && id in s.queue.requests
    ensures MovesTo(OnEnter(s, c, lookupAt, now, sameFile, located).queue, id, s.queue.requests[id].state)
  {
    EnqueueAnswers(s.queue, s.clients[c].phase.scope, s.clients[c].key, now, s.clients[c].ttl);
  }

  lemma PollMoves(s: State, c: nat, now: nat, id: nat)
    requires QueueInv(s.queue) && Enabled(s, Poll(c, now)) && id in s.queue.requests
    ensures MovesTo(OnPoll(s, c, now).queue, id, StateAfter(s, Poll(c, now), OnPoll(s, c, now), id))
  {
    EndMoves(s.queue, s.clients[c].phase.id, TimedOut, now, id);
  }

  lemma LockMoves(s: State, now: nat, id: nat)
    requires QueueInv(s.queue) && id in s.queue.requests
    ensures MovesTo(OnLock(s, now).queue, id, StateAfter(s, Lock(now), OnLock(s, now), id))
  {
    if s.active.Some? { EndMoves(s.queue, s.active.value, RequestState.Denied, now, id); }
  }

  lemma WorkerMoves(s: State, step: Step, id: nat)
    requires WorkInv(s.queue, s.worker, s.history.decrypts, s.lockEpoch) && Enabled(s, step) && id in s.queue.requests
    requires step.Pick? || step.Finish?
    ensures if step.Pick? && IsForgotten(s.queue, id, step.now) then id !in Effect(s, step).queue.requests
            else MovesTo(Effect(s, step).queue, id, StateAfter(s, step, Effect(s, step), id))
  {
    if step.Pick? {
      IdleMeansNoFlight(s);
      PickMoves(s, step.now, step.presentTtys, id);
    } else {
      FinishMoves(s, step.denyAt, step.completeAt, step.insertAt, step.alive, id);
    }
  }

  lemma OthersMove(s: State, step: Step, id: nat)
    requires QueueInv(s.queue) && Enabled(s, step) && id in s.queue.requests
    requires step.Enter? || step.Poll? || step.Deny? || step.Lock?
    ensures MovesTo(Effect(s, step).queue, id, StateAfter(s, step, Effect(s, step), id))
  {
    match step
    case Enter(c, lookupAt, now, sameFile, located) => EnterMoves(s, c, lookupAt, now, sameFile, located, id);
    case Poll(c, now) => PollMoves(s, c, now, id);
    case Deny(denied, now) => EndMoves(s.queue, denied, RequestState.Denied, now, id);
    case Lock(now) => LockMoves(s, now, id);
  }

  lemma StepMoves(s: State, step: Step, id: nat)
    requires WorkInv(s.queue, s.worker, s.history.decrypts, s.lockEpoch) && Enabled(s, step) && id in s.queue.requests
    ensures if step.Pick? && IsForgotten(s.queue, id, step.now) then id !in Effect(s, step).queue.requests
            else MovesTo(Effect(s, step).queue, id, StateAfter(s, step, Effect(s, step), id))
  {
    if !BrokerRuns.TouchesQueue(step) {
      BrokerRuns.QueueUntouched(s, step);
    } else if step.Pick? || step.Finish? {
      WorkerMoves(s, step, id);
    } else {
      OthersMove(s, step, id);
    }
  }

  /**
   A request moves exactly as it should: it times out, is denied, is granted, fails or is started by
   exactly the steps named, and is forgotten exactly by a pick long enough after it ended.
   */
  lemma RequestMovesIff(run: Run<State, Step>, k: nat, id: nat)
    requires Broker.IsRun(run) && k < |run.steps| && id in run.states[k].queue.requests
    ensures var s, step, after := run.states[k], run.steps[k], run.states[k + 1];
            if step.Pick? && IsForgotten(s.queue, id, step.now) then id !in after.queue.requests
            else MovesTo(after.queue, id, StateAfter(s, step, after, id))
  {
    assert StepAt(run, Broker.Next, k);
    BrokerCauses.RunGrantsFit(run, k);
    StepMoves(run.states[k], run.steps[k], id);
  }

  /** A decrypt whose terminal, process or session is gone at its finish stores nothing and grants no request. */
  lemma OrphanGetsNothing(run: Run<State, Step>, k: nat, id: nat)
    requires Broker.IsRun(run) && k < |run.steps| && run.steps[k].Finish? && run.states[k].worker.Returned?
    requires !run.steps[k].alive
             || (run.states[k].worker.job.scope.Session?
                 && run.states[k].worker.job.scope.token !in run.states[k].registry.sessions)
    ensures run.states[k + 1].grants == run.states[k].grants
    ensures id in run.states[k].queue.requests ==> id in run.states[k + 1].queue.requests
    ensures id in run.states[k].queue.requests && run.states[k + 1].queue.requests[id].state.Granted? ==>
              run.states[k].queue.requests[id].state.Granted?
  {
    assert StepAt(run, Broker.Next, k);
    BrokerCauses.RunGrantsFit(run, k);
    var s, step := run.states[k], run.steps[k];
    BrokerCauses.FinishGrants(s, step.denyAt, step.completeAt, step.insertAt, step.alive);
    if id in s.queue.requests { RequestMovesIff(run, k, id); }
  }

  // ---- What a client is told ----

  /** The client waits for this request, until its own deadline. */
  predicate WaitsFor(s: State, c: nat, id: nat, deadline: nat) {
    && c in s.clients && s.clients[c].phase.Waiting?
    && s.clients[c].phase.id == id && s.clients[c].phase.deadline == deadline
  }

  /** What an entry that is not served leads to. */
  lemma EntryQueues(s: State, c: nat, lookupAt: nat, now: nat, sameFile: bool, located: bool)
    requires QueueInv(s.queue) && BrokerCauses.GrantsArePast(s)
    requires Enabled(s, Enter(c, lookupAt, now, sameFile, located))
    requires !BrokerCauses.IsServed(s, Enter(c, lookupAt, now, sameFile, located), c)
    ensures var after := OnEnter(s, c, lookupAt, now, sameFile, located);
            var (scope, key, until) := (s.clients[c].phase.scope, s.clients[c].key, now + s.config.requestTtl);
            var limit := if NamesCapability(key) then 1 else s.queue.limits.maxPendingPerScope;
            if !located then c !in after.clients && after.queue == s.queue
            else if !NamesCapability(key) && exists id :: AskedAlready(s.queue, id, scope, key) then
              && after.queue == s.queue
              && exists id :: AskedAlready(s.queue, id, scope, key) && WaitsFor(after, c, id, until)
            else if |Rivals(s.queue, scope, key)| >= limit then c !in after.clients && after.queue == s.queue
            else
              && WaitsFor(after, c, s.queue.nextId, until)
              && after.queue == s.queue.(nextId := s.queue.nextId + 1,
                                         requests := s.queue.requests[s.queue.nextId :=
                                           Request(s.queue.nextId, scope, key, Pending, 0, now, s.clients[c].ttl)])
  {
    var client := s.clients[c];
    BrokerCauses.LookupIs(s, client.phase.scope, client.key, lookupAt);
    EnqueueAnswers(s.queue, client.phase.scope, client.key, now, client.ttl);
    var answer := Enqueue(s.queue, client.phase.scope, client.key, now, client.ttl).1;
    var after := OnEnter(s, c, lookupAt, now, sameFile, located);
    if located && answer.Ok? {
      assert WaitsFor(after, c, answer.value, now + s.config.requestTtl);
    }
  }

  /**
   An entry that is not served leaves the client waiting, until its deadline, for the active request
   that asks the same or for a new one, or refuses it at its scope's limit or for want of a file.
   */
  lemma EntryQueuesIff(run: Run<State, Step>, k: nat)
    requires Broker.IsRun(run) && k < |run.steps| && run.steps[k].Enter? && run.steps[k].client in run.states[k].clients
    requires !BrokerCauses.IsServed(run.states[k], run.steps[k], run.steps[k].client)
    ensures run.states[k].clients[run.steps[k].client].phase.Scoped?
    ensures var s, step, after := run.states[k], run.steps[k], run.states[k + 1];
            var c := step.client;
            var (scope, key, until) := (s.clients[c].phase.scope, s.clients[c].key, step.now + s.config.requestTtl);
            var limit := if NamesCapability(key) then 1 else s.queue.limits.maxPendingPerScope;
            var joins := !NamesCapability(key) && exists id :: AskedAlready(s.queue, id, scope, key);
            if !step.located || (!joins && |Rivals(s.queue, scope, key)| >= limit) then
              c !in after.clients && after.queue == s.queue
            else if joins then
              && after.queue == s.queue
              && exists id :: AskedAlready(s.queue, id, scope, key) && WaitsFor(after, c, id, until)
            else
              && WaitsFor(after, c, s.queue.nextId, until) && s.queue.nextId in after.queue.requests
              && after.queue.requests[s.queue.nextId]
                 == Request(s.queue.nextId, scope, key, Pending, 0, step.now, s.clients[c].ttl)
  {
    assert StepAt(run, Broker.Next, k);
    BrokerCauses.RunGrantsFit(run, k);
    var step := run.steps[k];
    EntryQueues(run.states[k], step.client, step.lookupAt, step.now, step.sameFile, step.located);
  }

  /** A waiting client is sent away exactly when its request is gone, ended ungranted, or still open at its deadline. */
  lemma PollSendsAwayIff(run: Run<State, Step>, k: nat)
    requires Broker.IsRun(run) && k < |run.steps| && run.steps[k].Poll?
    ensures var s, step := run.states[k], run.steps[k];
            && step.client in s.clients && s.clients[step.client].phase.Waiting?
            && var (id, deadline) := (s.clients[step.client].phase.id, s.clients[step.client].phase.deadline);
            step.client !in run.states[k + 1].clients <==>
            || id !in s.queue.requests
            || (!IsActiveIn(s.queue, id) && !s.queue.requests[id].state.Granted?)
            || (IsActiveIn(s.queue, id) && deadline < step.now)
  {
    assert StepAt(run, Broker.Next, k);
  }

  // ---- The decrypt a lock or a denial can stop ----

  /** The process spawned is recorded: its request is still decrypting. */
  predicate RecordsProcess(s: State, step: Step, id: nat) {
    && step.Spawned? && s.worker.Running? && s.worker.job.id == id
    && id in s.queue.requests && s.queue.requests[id].state.Decrypting?
  }

  /** The decrypt process recorded for this request is stopped, over, or replaced. */
  predicate StopsProcess(s: State, step: Step, id: nat) {
    || step.Lock? || (step.Pick? && IsOverdueIn(s.queue, id, step.now))
    || (step.Finish? && s.worker.Returned? && s.worker.job.id == id)
    || (step.Poll? && RunsOut(s, step, id)) || (step.Deny? && IsDenied(s, step, id))
    || (s.worker.Running? && s.worker.job.id != id && RecordsProcess(s, step, s.worker.job.id))
  }

  lemma ProcessOfWorker(s: State, step: Step, id: nat)
    requires Enabled(s, step) && BrokerRuns.IsWorkers(step)
    ensures Effect(s, step).active == Some(id) <==>
            RecordsProcess(s, step, id) || (s.active == Some(id) && !StopsProcess(s, step, id))
  {
    if step.Pick? { assert id in OverdueIds(s.queue, step.now) <==> IsOverdueIn(s.queue, id, step.now); }
  }

  lemma ProcessOfClients(s: State, step: Step, id: nat)
    requires Enabled(s, step) && BrokerRuns.IsClients(step)
    ensures Effect(s, step).active == Some(id) <==> s.active == Some(id) && !StopsProcess(s, step, id)
  {
  }

  lemma ProcessOfOthers(s: State, step: Step, id: nat)
    requires Enabled(s, step) && !BrokerRuns.IsWorkers(step)
    ensures Effect(s, step).active == Some(id) <==> s.active == Some(id) && !StopsProcess(s, step, id)
  {
    if BrokerRuns.IsClients(step) { ProcessOfClients(s, step, id); }
  }

  /** A process is on record exactly from its spawn, if not already overtaken, until something stops or ends it. */
  lemma ProcessOnRecordIff(run: Run<State, Step>, k: nat, id: nat)
    requires Broker.IsRun(run) && k < |run.steps|
    ensures run.states[k + 1].active == Some(id) <==>
            || RecordsProcess(run.states[k], run.steps[k], id)
            || (run.states[k].active == Some(id) && !StopsProcess(run.states[k], run.steps[k], id))
  {
    assert StepAt(run, Broker.Next, k);
    if BrokerRuns.IsWorkers(run.steps[k]) {
      ProcessOfWorker(run.states[k], run.steps[k], id);
    } else {
      ProcessOfOthers(run.states[k], run.steps[k], id);
    }
  }
}
