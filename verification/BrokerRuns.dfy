/** The broker's guarantees, stated over whole runs. */
module BrokerRuns {
  import opened Base
  import opened Runs
  import opened Scopes
  import opened Requests
  import opened Broker
  import opened BrokerSafety

  /** A critical section of the worker. */
  predicate IsWorkers(step: Step) { step.Pick? || step.Spawned? || step.DecryptReturns? || step.Finish? }

  /** A critical section of a connected client. */
  predicate IsClients(step: Step) {
    step.Start? || step.Resolve? || step.Enter? || step.Poll? || step.Collect? || step.Mint?
  }

  lemma WorkerStepInv(s: State, step: Step)
    requires Inv(s) && Enabled(s, step) && IsWorkers(step)
    ensures Inv(Effect(s, step))
  {
    match step
    case Pick(now, present) => PickInv(s, now, present);
    case Spawned => SpawnedInv(s);
    case DecryptReturns(now, outcome) => ReturnInv(s, now, outcome);
    case Finish(denyAt, completeAt, insertAt, alive) => FinishInv(s, denyAt, completeAt, insertAt, alive);
  }

  lemma ClientStepInv(s: State, step: Step)
    requires Inv(s) && Enabled(s, step) && IsClients(step)
    ensures Inv(Effect(s, step))
  {
    match step
    case Start(c, kind, key, ttl) => SetClientInv(s, c, Client(kind, key, ttl, s.lockEpoch, Starting));
    case Resolve(c, token, tty, within) => ResolveInv(s, c, token, tty, within);
    case Enter(c, lookupAt, now, sameFile, located) => EnterInv(s, c, lookupAt, now, sameFile, located);
    case Poll(c, now) => PollInv(s, c, now);
    case Collect(c, now) => CollectInv(s, c, now);
    case Mint(c, now, draws) => MintInv(s, c, now, draws);
  }

  lemma ControlStepInv(s: State, step: Step)
    requires Inv(s) && Enabled(s, step) && !IsWorkers(step) && !IsClients(step)
    ensures Inv(Effect(s, step))
  {
    match step
    case Deny(id, now) => DenyInv(s, id, now);
    case Lock(now) => LockInv(s, now);
    case Register(r) => RegisterInv(s, r);
    case Unregister(session) => UnregisterInv(s, session);
    case Redeem(presented, cap, now) => RedeemInv(s, presented, cap, now);
  }

  lemma StepKeepsInv(s: State, step: Step)
    requires Inv(s) && Enabled(s, step)
    ensures Inv(Effect(s, step))
  {
    if IsWorkers(step) {
      WorkerStepInv(s, step);
    } else if IsClients(step) {
      ClientStepInv(s, step);
    } else {
      ControlStepInv(s, step);
    }
  }

  lemma SpawnedInv(s: State)
    requires Inv(s) && s.worker.Running?
    ensures Inv(OnSpawned(s))
  {
  }

  /** Every state of every run satisfies the whole invariant. */
  lemma RunKeepsInv(run: Run<State, Step>, k: nat)
    requires IsRun(run) && k <= |run.steps|
    ensures Inv(run.states[k])
  {
    forall s | Initial(s)
      ensures Inv(s)
    {
      InitialInv(s);
    }
    forall s, step, s' | Inv(s) && Next(s, step, s')
      ensures Inv(s')
    {
      StepKeepsInv(s, step);
    }
    Throughout(run, Initial, Next, Inv, k);
  }

  /**
   Provenance of a release. In every run, every value any GET ever returned was
   produced by a completed decrypt that was started for exactly that scope and
   key, in the lock epoch in force at the release, by a grant younger than its
   effective lifetime, which never exceeds the larger configured ceiling. No
   capability key is ever released.
   */
  lemma EveryReleaseHasProvenance(run: Run<State, Step>, k: nat, j: nat)
    requires IsRun(run) && k <= |run.steps| && j < |run.states[k].history.releases|
    ensures var s := run.states[k];
            var r := s.history.releases[j];
            && HasSource(r, s.history.decrypts, s.config)
            && !IsCapability(r.key)
            && r.at - r.created < Max(s.config.maxGrant, s.config.maxRequestedGrant)
  {
    RunKeepsInv(run, k);
    var s := run.states[k];
    var r := s.history.releases[j];
    assert HasSource(r, s.history.decrypts, s.config);
    var i :| 0 <= i < |s.history.decrypts| && ReleasedFrom(r, s.history.decrypts[i], s.config);
  }

  lemma OnlyCollectReleases(s: State, step: Step)
    requires Enabled(s, step) && Effect(s, step).history.releases != s.history.releases
    ensures step.Collect? && s.clients[step.client].kind.Get?
    ensures var client := s.clients[step.client];
            && |Effect(s, step).history.releases| == |s.history.releases| + 1
            && var r := Effect(s, step).history.releases[|s.history.releases|];
            r.scope == client.phase.scope && r.key == client.key && r.epoch == s.lockEpoch && r.at == step.now
  {
    ReleasesUntouched(s, step);
  }

  lemma ReleasesUntouched(s: State, step: Step)
    requires Enabled(s, step)
    ensures !step.Collect? ==> Effect(s, step).history.releases == s.history.releases
  {
  }

  /**
   What a GET releases at the moment it releases it: the key its client asked
   for under the client's own scope, from a decrypt of the lock epoch then in
   force.
   */
  lemma ReleaseIsCurrent(run: Run<State, Step>, k: nat)
    requires IsRun(run) && k < |run.steps|
    requires run.states[k + 1].history.releases != run.states[k].history.releases
    ensures run.steps[k].Collect? && run.steps[k].client in run.states[k].clients
    ensures run.states[k].clients[run.steps[k].client].phase.Approved?
    ensures |run.states[k + 1].history.releases| == |run.states[k].history.releases| + 1
    ensures var s := run.states[k]; var client := s.clients[run.steps[k].client];
            exists i :: 0 <= i < |s.history.decrypts| && s.history.decrypts[i].job.lockEpoch == s.lockEpoch
                        && s.history.decrypts[i].job.scope == client.phase.scope
                        && s.history.decrypts[i].job.key == client.key
                        && s.history.decrypts[i].outcome.Some?
                        && s.history.decrypts[i].outcome.value.value
                           == run.states[k + 1].history.releases[|s.history.releases|].value
  {
    assert StepAt(run, Next, k);
    OnlyCollectReleases(run.states[k], run.steps[k]);
    EveryReleaseHasProvenance(run, k + 1, |run.states[k].history.releases|);
    SameDecrypts(run.states[k], run.steps[k]);
  }

  lemma SameDecrypts(s: State, step: Step)
    requires Enabled(s, step) && step.Collect?
    ensures Effect(s, step).history.decrypts == s.history.decrypts
  {
  }

  /**
   One touch, one decrypt. At every state of every run at most one request is
   decrypting, it is the one in flight and the one the worker holds; and every
   decrypt, the one under way included, started at least a cooldown after each
   earlier one really ended, which under the cached touch policy is more than
   fifteen seconds.
   */
  lemma OneTouchOneDecrypt(run: Run<State, Step>, k: nat)
    requires IsRun(run) && k <= |run.steps|
    ensures var s := run.states[k];
            && (forall id :: id in s.queue.requests && s.queue.requests[id].state.Decrypting? ==>
                               s.queue.inflight == Some(id) && !s.worker.Idle? && s.worker.job.id == id)
            && (forall i, j :: 0 <= i < j < |s.history.decrypts| ==>
                                 && s.history.decrypts[i].job.id != s.history.decrypts[j].job.id
                                 && s.history.decrypts[i].ended + s.config.cooldown <= s.history.decrypts[j].started)
            && (s.worker.Running? ==>
                  forall i :: 0 <= i < |s.history.decrypts| ==>
                                && s.history.decrypts[i].job.id != s.worker.job.id
                                && s.history.decrypts[i].ended + s.config.cooldown <= s.worker.started)
            && (s.config.touchPolicy.Cached? ==> s.config.cooldown > 15 * SECOND)
  {
    RunKeepsInv(run, k);
    ConfigFixed(run, k);
  }

  lemma StepKeepsConfig(s: State, step: Step)
    requires Enabled(s, step)
    ensures Effect(s, step).config == s.config
  {
  }

  lemma {:induction false} ConfigFixed(run: Run<State, Step>, k: nat)
    requires IsRun(run) && k <= |run.steps|
    ensures run.states[k].config == run.states[0].config
  {
    if k > 0 {
      ConfigFixed(run, k - 1);
      assert StepAt(run, Next, k - 1);
      StepKeepsConfig(run.states[k - 1], run.steps[k - 1]);
    }
  }

  // ---- Stale decrypts install nothing ----

  /** What the top of the worker's loop does to the queue. */
  lemma TidyEvolves(q: QueueModel, now: nat)
    requires WellKeyed(q)
    ensures var kept := Prune(SweepTimeouts(q, now), now);
            WellKeyed(kept) && kept.requests.Keys <= q.requests.Keys && Evolves(q, kept)
  {
    SweepWinds(q, now);
    PruneWinds(SweepTimeouts(q, now), now);
    EvolvesTransitive(q, SweepTimeouts(q, now), Prune(SweepTimeouts(q, now), now));
  }

  lemma MarkEvolves(q: QueueModel, now: nat)
    requires WellKeyed(q) && NextReady(q, now).Some?
    ensures var marked := MarkDecrypting(q, NextReady(q, now).value, now).0; WellKeyed(marked) && Evolves(q, marked)
  {
    MarkWinds(q, NextReady(q, now).value, now);
  }

  /** What a pick makes of the queue. */
  ghost function PickedQueue(q: QueueModel, now: nat): QueueModel {
    var kept := Prune(SweepTimeouts(q, now), now);
    match NextReady(kept, now)
    case None => kept
    case Some(id) =>
      var (queue, generation) := MarkDecrypting(kept, id, now);
      if generation.None? || id !in queue.requests then kept else queue
  }

  lemma PickedQueueEvolves(q: QueueModel, now: nat)
    requires WellKeyed(q)
    ensures Evolves(q, PickedQueue(q, now))
  {
    var kept := Prune(SweepTimeouts(q, now), now);
    TidyEvolves(q, now);
    if NextReady(kept, now).Some? {
      MarkEvolves(kept, now);
      EvolvesTransitive(q, kept, MarkDecrypting(kept, NextReady(kept, now).value, now).0);
    }
  }

  lemma PickEvolves(s: State, now: nat, present: set<string>)
    requires WellKeyed(s.queue)
    ensures Evolves(s.queue, OnPick(s, now, present).queue)
  {
    PickedQueueEvolves(s.queue, now);
    assert OnPick(s, now, present).queue == PickedQueue(s.queue, now);
  }

  lemma FinishEvolves(s: State, denyAt: nat, completeAt: nat, insertAt: nat, alive: bool)
    requires Inv(s) && s.worker.Returned?
    ensures Evolves(s.queue, OnFinish(s, denyAt, completeAt, insertAt, alive).queue)
  {
    if s.worker.outcome.Some? {
      CompletedWork(s, denyAt, completeAt, alive);
    } else {
      FailWinds(s.queue, s.worker.job.id, completeAt);
    }
  }

  lemma EnterEvolves(s: State, c: nat, lookupAt: nat, now: nat, sameFile: bool, located: bool)
    requires QueueInv(s.queue) && c in s.clients && s.clients[c].phase.Scoped?
    ensures Evolves(s.queue, OnEnter(s, c, lookupAt, now, sameFile, located).queue)
  {
    EnqueueKeepsInv(s.queue, s.clients[c].phase.scope, s.clients[c].key, now, s.clients[c].ttl);
  }

  lemma PollEvolves(s: State, c: nat, now: nat)
    requires WellKeyed(s.queue) && c in s.clients && s.clients[c].phase.Waiting?
    ensures Evolves(s.queue, OnPoll(s, c, now).queue)
  {
    EndWinds(s.queue, s.clients[c].phase.id, TimedOut, now);
  }

  lemma LockEvolves(s: State, now: nat)
    requires WellKeyed(s.queue)
    ensures Evolves(s.queue, OnLock(s, now).queue)
  {
    if s.active.Some? {
      EndWinds(s.queue, s.active.value, RequestState.Denied, now);
    }
  }

  predicate TouchesQueue(step: Step) {
    step.Pick? || step.Finish? || step.Enter? || step.Poll? || step.Deny? || step.Lock?
  }

  lemma QueueUntouched(s: State, step: Step)
    requires Enabled(s, step) && !TouchesQueue(step)
    ensures Effect(s, step).queue == s.queue && Effect(s, step).lockEpoch == s.lockEpoch
  {
  }

  lemma EpochNeverFalls(s: State, step: Step)
    requires Enabled(s, step)
    ensures s.lockEpoch <= Effect(s, step).lockEpoch
  {
  }

  lemma TouchEvolves(s: State, step: Step)
    requires Inv(s) && Enabled(s, step) && TouchesQueue(step)
    ensures Evolves(s.queue, Effect(s, step).queue)
  {
    match step
    case Pick(now, present) => PickEvolves(s, now, present);
    case Finish(denyAt, completeAt, insertAt, alive) => FinishEvolves(s, denyAt, completeAt, insertAt, alive);
    case Enter(c, lookupAt, now, sameFile, located) => EnterEvolves(s, c, lookupAt, now, sameFile, located);
    case Poll(c, now) => PollEvolves(s, c, now);
    case Deny(id, now) => EndWinds(s.queue, id, RequestState.Denied, now);
    case Lock(now) => LockEvolves(s, now);
  }

  /** One step: the queue only winds forward. */
  lemma StepEvolves(s: State, step: Step)
    requires Inv(s) && Enabled(s, step)
    ensures Evolves(s.queue, Effect(s, step).queue)
  {
    if TouchesQueue(step) {
      TouchEvolves(s, step);
    } else {
      QueueUntouched(s, step);
    }
  }

  lemma NextEvolves(run: Run<State, Step>, k: nat)
    requires IsRun(run) && k < |run.steps|
    ensures Evolves(run.states[k].queue, run.states[k + 1].queue)
    ensures run.states[k].lockEpoch <= run.states[k + 1].lockEpoch
  {
    assert StepAt(run, Next, k);
    RunKeepsInv(run, k);
    StepEvolves(run.states[k], run.steps[k]);
    EpochNeverFalls(run.states[k], run.steps[k]);
  }

  lemma {:induction false} RunEvolves(run: Run<State, Step>, i: nat, j: nat)
    requires IsRun(run) && i <= j <= |run.steps|
    ensures WellKeyed(run.states[i].queue) && WellKeyed(run.states[j].queue)
    ensures Evolves(run.states[i].queue, run.states[j].queue)
    ensures run.states[i].lockEpoch <= run.states[j].lockEpoch
    decreases j
  {
    RunIsKeyed(run, j);
    if i < j {
      RunEvolves(run, i, j - 1);
      NextEvolves(run, j - 1);
      EvolvesTransitive(run.states[i].queue, run.states[j - 1].queue, run.states[j].queue);
    }
  }

  lemma RunIsKeyed(run: Run<State, Step>, k: nat)
    requires IsRun(run) && k <= |run.steps|
    ensures WellKeyed(run.states[k].queue)
  {
    RunKeepsInv(run, k);
  }

  /** The worker's request is no longer waiting on it, or a lock has intervened. */
  ghost predicate Overtaken(s: State, job: Job) {
    || job.id !in s.queue.requests
    || !Active(s.queue.requests[job.id].state)
    || s.lockEpoch != job.lockEpoch
  }

  /**
   A decrypt that was overtaken at any moment while it ran (denied, timed out
   by its waiter, swept, or locked over) installs nothing when it finishes: the
   table after its finish is the table before it. `BrokerSessions` treats the
   decrypt whose session went.
   */
  lemma StaleDecryptInstallsNothing(run: Run<State, Step>, i: nat, j: nat)
    requires IsRun(run) && i <= j < |run.steps| && run.steps[j].Finish?
    requires run.states[j].worker.Returned?
    requires !run.states[i].worker.Idle? && run.states[i].worker.job == run.states[j].worker.job
    requires Overtaken(run.states[i], run.states[i].worker.job)
    ensures run.states[j + 1].grants == run.states[j].grants
  {
    var early, late := run.states[i], run.states[j];
    RunKeepsInv(run, i);
    RunKeepsInv(run, j);
    RunEvolves(run, i, j);
    assert StepAt(run, Next, j);
    var id := late.worker.job.id;
    if id in late.queue.requests {
      assert id in early.queue.requests ==> RequestEvolves(early.queue.requests[id], late.queue.requests[id]);
    }
    if late.worker.outcome.Some? {
      InstallsIff(late, run.steps[j].denyAt, run.steps[j].completeAt, run.steps[j].alive);
    }
  }

  /**
   A request that has stopped being active is, at every later state of the run,
   still not active, and it is Granted only if it already was.
   */
  lemma EndedRequestStaysEnded(run: Run<State, Step>, i: nat, j: nat, id: nat)
    requires IsRun(run) && i <= j <= |run.steps|
    requires id in run.states[i].queue.requests && !Active(run.states[i].queue.requests[id].state)
    ensures id in run.states[j].queue.requests ==>
              && !Active(run.states[j].queue.requests[id].state)
              && (run.states[j].queue.requests[id].state.Granted? ==> run.states[i].queue.requests[id].state.Granted?)
  {
    RunEvolves(run, i, j);
    if id in run.states[j].queue.requests {
      assert RequestEvolves(run.states[i].queue.requests[id], run.states[j].queue.requests[id]);
    }
  }

  // ---- Receipts and sessions ----

  /**
   Each receipt ever minted was paid for by a successful touch of its own: its
   authorization's request, its capability's key, the epoch it was minted in,
   and no two receipts share one. Each redemption names a receipt minted for
   that capability in the very epoch of the redemption, less than a minute
   before. No receipt of an id, capability and epoch is redeemed or outstanding
   more often than it was minted, so each redemption has a mint of its own.
   */
  lemma EveryReceiptWasPaidFor(run: Run<State, Step>, k: nat)
    requires IsRun(run) && k <= |run.steps|
    ensures var s := run.states[k]; var h := s.history;
            && (forall j :: 0 <= j < |h.mints| ==> HasTouch(h.mints[j], h.decrypts))
            && (forall i, j :: 0 <= i < j < |h.mints| ==> h.mints[i].requestId != h.mints[j].requestId)
            && (forall j :: 0 <= j < |h.redeems| ==> RedeemBacked(h.redeems[j], h.mints))
            && (forall id, cap, epoch :: Balanced(s.receipts, h.mints, h.redeems, s.lockEpoch, id, cap, epoch))
  {
    RunKeepsInv(run, k);
  }

  /** No grant outlives its session's registration, nor a lock. */
  lemma GrantsAreCurrent(run: Run<State, Step>, k: nat, scope: Scope, key: string)
    requires IsRun(run) && k <= |run.steps| && (scope, key) in run.states[k].grants
    ensures var s := run.states[k];
            && (scope.Session? ==> scope.token in s.registry.sessions)
            && Backed(s.grants[(scope, key)], s.history.decrypts, s.lockEpoch, s.config)
  {
    RunKeepsInv(run, k);
  }
}
