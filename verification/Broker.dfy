/**
 The broker's approval core as a transition system. Each step is one critical
 section of the daemon's state mutex: the worker's pick and finish, the
 client's entry, polls and collection, and the control verbs between them.
 Everything outside the mutex (the decrypt itself, file identity, process and
 terminal liveness, the clock) is a step parameter.

 `History` records what happened, for stating properties; no step reads it.
 */
module Broker {
  import opened Base
  import opened Keyed
  import opened Runs
  import opened Scopes
  import opened Requests
  import Secrets = SecretGrants
  import Sessions = SessionRegistry
  import Receipts

  datatype TouchPolicy = Cached | Always

  datatype Config = Config(
    maxGrant: nat,
    maxRequestedGrant: nat,
    requestTtl: nat,
    cooldown: nat,
    maxPendingPerScope: nat,
    touchPolicy: TouchPolicy)

  /** Start-up refuses a cooldown that one cached touch could span. */
  predicate Validated(c: Config) { c.touchPolicy.Cached? ==> c.cooldown > 15 * SECOND }

  /** The lifetime a fresh grant receives, from the seconds its caller asked for. */
  function EffectiveTtl(requested: Option<nat>, c: Config): (ttl: nat)
    ensures ttl <= Max(c.maxGrant, c.maxRequestedGrant)
  {
    match requested
    case None => c.maxGrant
    case Some(secs) => Min(secs * SECOND, c.maxRequestedGrant)
  }

  function Upper(s: string): string {
    if s == "" then "" else [if 'a' <= s[0] <= 'z' then (s[0] as int - 32) as char else s[0]] + Upper(s[1..])
  }

  /** The store key backing a capability. */
  function CapKey(cap: string): string { CAPABILITY_KEY_PREFIX + Upper(cap) }

  datatype Plain = Plain(value: seq<nat>, origin: Secrets.Origin)

  datatype Job = Job(id: nat, scope: Scope, key: string, generation: nat, lockEpoch: nat, requestedTtl: Option<nat>)

  datatype Worker =
    | Idle
    | Running(job: Job, started: nat)
    | Returned(job: Job, outcome: Option<Plain>)

  datatype Kind = Get | RequestGrant | Authorize(cap: string)

  datatype Phase =
    | Starting
    | Scoped(scope: Scope)
    | Waiting(scope: Scope, id: nat, deadline: nat)
    | Approved(scope: Scope, requestId: Option<nat>)

  datatype Client = Client(kind: Kind, key: string, ttl: Option<nat>, epochBefore: nat, phase: Phase)

  datatype Decrypt = Decrypt(job: Job, started: nat, ended: nat, outcome: Option<Plain>)
  datatype Release = Release(scope: Scope, key: string, value: seq<nat>, created: nat, at: nat, epoch: nat)
  datatype MintRecord = MintRecord(id: Receipts.Id, cap: string, requestId: nat, epoch: nat, at: nat)
  datatype RedeemRecord = RedeemRecord(id: Receipts.Id, cap: string, epoch: nat, at: nat)

  datatype History = History(
    decrypts: seq<Decrypt>,
    releases: seq<Release>,
    mints: seq<MintRecord>,
    redeems: seq<RedeemRecord>)

  datatype State = State(
    config: Config,
    clock: nat,
    lockEpoch: nat,
    queue: QueueModel,
    grants: Secrets.Table,
    registry: Sessions.RegistryState,
    receipts: Receipts.Outstanding,
    capabilityGrants: seq<nat>,
    active: Option<nat>,
    worker: Worker,
    clients: map<nat, Client>,
    history: History)

  predicate Initial(s: State) {
    && Validated(s.config)
    && s.lockEpoch == 0
    && s.queue == Empty(QueueLimits(s.config.cooldown, s.config.requestTtl, s.config.maxPendingPerScope))
    && s.grants == map[] && s.registry.sessions == map[] && s.registry.agentTtys == {}
    && s.receipts == map[] && s.capabilityGrants == []
    && s.active == None && s.worker == Idle && s.clients == map[]
    && s.history == History([], [], [], [])
  }

  datatype Step =
    | Pick(now: nat, presentTtys: set<string>)
    | Spawned
    | DecryptReturns(now: nat, outcome: Option<Plain>)
    | Finish(denyAt: nat, completeAt: nat, insertAt: nat, alive: bool)
    | Start(client: nat, kind: Kind, key: string, ttl: Option<nat>)
    | Resolve(client: nat, token: Option<nat>, tty: Option<string>, within: set<nat>)
    | Enter(client: nat, lookupAt: nat, now: nat, sameFile: bool, located: bool)
    | Poll(client: nat, now: nat)
    | Collect(client: nat, now: nat)
    | Mint(client: nat, now: nat, draws: seq<Receipts.Id>)
    | Deny(id: nat, now: nat)
    | Lock(now: nat)
    | Register(registration: Sessions.Registration)
    | Unregister(session: string)
    | Redeem(presented: Option<Receipts.Id>, cap: string, now: nat)

  predicate KeyFits(kind: Kind, key: string) {
    if kind.Authorize? then key == CapKey(kind.cap) else !IsCapability(key)
  }

  /** When each critical section can run. Clock readings never go backwards. */
  predicate Enabled(s: State, step: Step) {
    match step
    case Pick(now, _) => s.worker.Idle? && s.clock <= now
    case Spawned => s.worker.Running?
    case DecryptReturns(now, _) => s.worker.Running? && s.clock <= now
    case Finish(denyAt, completeAt, insertAt, _) =>
      s.worker.Returned? && s.clock <= denyAt <= completeAt <= insertAt
    case Start(c, kind, key, ttl) =>
      c !in s.clients && KeyFits(kind, key) && (kind.Authorize? ==> ttl == None)
    case Resolve(c, _, _, _) => c in s.clients && s.clients[c].phase.Starting?
    case Enter(c, lookupAt, now, _, _) => c in s.clients && s.clients[c].phase.Scoped? && s.clock <= lookupAt <= now
    case Poll(c, now) => c in s.clients && s.clients[c].phase.Waiting? && s.clock <= now
    case Collect(c, now) =>
      c in s.clients && s.clients[c].phase.Approved? && !s.clients[c].kind.Authorize? && s.clock <= now
    case Mint(c, now, _) =>
      c in s.clients && s.clients[c].phase.Approved? && s.clients[c].kind.Authorize? && s.clock <= now
    case Deny(_, now) => s.clock <= now
    case Lock(now) => s.clock <= now
    case Register(_) => true
    case Unregister(_) => true
    case Redeem(_, _, now) => s.clock <= now
  }

  function KillActive(active: Option<nat>, id: nat): Option<nat> {
    if active == Some(id) then None else active
  }

  /** Housekeeping at the top of the worker's loop. */
  ghost function Housekeep(s: State, now: nat, presentTtys: set<string>): State {
    s.(clock := now,
    queue := Prune(SweepTimeouts(s.queue, now), now),
    grants := Restrict(Restrict(s.grants, Secrets.LiveAt(now)), Secrets.OnPresentTty(presentTtys)),
    receipts := Receipts.Sweep(s.receipts, now),
    capabilityGrants := Filter(s.capabilityGrants, (deadline: nat) => deadline > now),
    active := if s.active.Some? && s.active.value in OverdueIds(s.queue, now) then None else s.active)
  }

  ghost function OnPick(s: State, now: nat, presentTtys: set<string>): State {
    var kept := Housekeep(s, now, presentTtys);
    match NextReady(kept.queue, now)
    case None => kept
    case Some(id) =>
      var (queue, generation) := MarkDecrypting(kept.queue, id, now);
      if generation.None? || id !in queue.requests then kept
      else
        var r := queue.requests[id];
        kept.(queue := queue,
        worker := Running(Job(id, r.scope, r.key, generation.value, s.lockEpoch, r.requestedTtl), now))
  }

  function OnSpawned(s: State): State
    requires s.worker.Running?
  {
    var id := s.worker.job.id;
    if id in s.queue.requests && s.queue.requests[id].state.Decrypting? then s.(active := Some(id)) else s
  }

  function OnReturn(s: State, now: nat, outcome: Option<Plain>): State
    requires s.worker.Running?
  {
    var d := Decrypt(s.worker.job, s.worker.started, now, outcome);
    s.(clock := now,
    worker := Returned(s.worker.job, outcome),
    history := s.history.(decrypts := s.history.decrypts + [d]))
  }

  /** Whether the scope a job was started for can still receive its value. */
  predicate ScopeLives(s: State, scope: Scope, alive: bool) {
    match scope
    case Session(token) => token in s.registry.sessions && alive
    case Tty(_, _) => alive
  }

  /** The queue as the worker leaves it, and whether it may install. */
  function Completed(s: State, denyAt: nat, completeAt: nat, alive: bool): (QueueModel, bool)
    requires s.worker.Returned?
  {
    var job := s.worker.job;
    var queue :=
      if s.lockEpoch != job.lockEpoch || !ScopeLives(s, job.scope, alive)
      then End(s.queue, job.id, RequestState.Denied, denyAt).0
      else s.queue;
    Complete(queue, job.id, job.generation, completeAt)
  }

  function OnFinish(s: State, denyAt: nat, completeAt: nat, insertAt: nat, alive: bool): State
    requires s.worker.Returned?
  {
    var job := s.worker.job;
    var ended := s.(clock := insertAt, worker := Idle, active := KillActive(s.active, job.id));
    match s.worker.outcome
    case Some(plain) =>
      var (queue, install) := Completed(s, denyAt, completeAt, alive);
      var g := Secrets.Grant(job.scope, job.key, plain.value, plain.origin, insertAt,
                             EffectiveTtl(job.requestedTtl, s.config));
      ended.(queue := queue, grants := if install then s.grants[(job.scope, job.key) := g] else s.grants)
    case None =>
      ended.(queue := Fail(s.queue, job.id, completeAt))
  }

  ghost function OnResolve(s: State, c: nat, token: Option<nat>, tty: Option<string>, within: set<nat>): State
    requires c in s.clients
  {
    var registry := Sessions.Apply(s.registry, Sessions.DoResolve(token, tty, within));
    match Sessions.ScopeFor(s.registry, token, tty, within)
    case Ok(scope) => s.(registry := registry, clients := s.clients[c := s.clients[c].(phase := Scoped(scope))])
    case Err(_) => s.(registry := registry, clients := s.clients - {c})
  }

  /** First section of an access: serve a live grant, or revoke it and queue for a touch. */
  ghost function OnEnter(s: State, c: nat, lookupAt: nat, now: nat, sameFile: bool, located: bool): State
    requires c in s.clients && s.clients[c].phase.Scoped?
  {
    var client := s.clients[c];
    var scope := client.phase.scope;
    var found := Secrets.Lookup(s.grants, scope, client.key, lookupAt);
    if found.Some? && sameFile && !client.kind.Authorize? then
      s.(clock := now, clients := s.clients[c := client.(phase := Approved(scope, None))])
    else
      var grants := if found.Some? then s.grants - {(scope, client.key)} else s.grants;
      var revoked := s.(clock := now, grants := grants);
      if located then JoinQueue(revoked, c, now) else revoked.(clients := s.clients - {c})
  }

  /** Coalesce, join, or be refused. */
  ghost function JoinQueue(s: State, c: nat, now: nat): State
    requires c in s.clients && s.clients[c].phase.Scoped?
  {
    var client := s.clients[c];
    var scope := client.phase.scope;
    var joined := Enqueue(s.queue, scope, client.key, now, client.ttl);
    if joined.1.Ok? then
      s.(queue := joined.0,
      clients := s.clients[c := client.(phase := Waiting(scope, joined.1.value, now + s.config.requestTtl))])
    else s.(clients := s.clients - {c})
  }

  function OnPoll(s: State, c: nat, now: nat): State
    requires c in s.clients && s.clients[c].phase.Waiting?
  {
    var client := s.clients[c];
    var id := client.phase.id;
    if id !in s.queue.requests then s.(clock := now, clients := s.clients - {c})
    else
      var state := s.queue.requests[id].state;
      if state.Granted? then
        s.(clock := now, clients := s.clients[c := client.(phase := Approved(client.phase.scope, Some(id)))])
      else if !Active(state) then s.(clock := now, clients := s.clients - {c})
      else if client.phase.deadline < now then
        s.(clock := now, queue := End(s.queue, id, TimedOut, now).0, active := KillActive(s.active, id),
        clients := s.clients - {c})
      else s.(clock := now)
  }

  /** Last section of a GET: whatever the table holds now is what the caller gets. */
  ghost function OnCollect(s: State, c: nat, now: nat): State
    requires c in s.clients && s.clients[c].phase.Approved?
  {
    var client := s.clients[c];
    var scope := client.phase.scope;
    var done := s.(clock := now, clients := s.clients - {c});
    match Secrets.Lookup(s.grants, scope, client.key, now)
    case Some(g) =>
      if client.kind.Get? then
        done.(history := s.history.(releases :=
          s.history.releases + [Release(scope, client.key, g.value, g.created, now, s.lockEpoch)]))
      else done
    case None => done
  }

  ghost function OnMint(s: State, c: nat, now: nat, draws: seq<Receipts.Id>): State
    requires c in s.clients && s.clients[c].phase.Approved? && s.clients[c].kind.Authorize?
  {
    var client := s.clients[c];
    var done := s.(clock := now, clients := s.clients - {c});
    if client.phase.requestId.None? || s.lockEpoch != client.epochBefore then done
    else
      var minted := Receipts.Mint(s.receipts, client.kind.cap, now, draws);
      if minted.1.Minted? then
        var m := MintRecord(minted.1.id, client.kind.cap, client.phase.requestId.value, s.lockEpoch, now);
        done.(receipts := minted.0, history := s.history.(mints := s.history.mints + [m]))
      else done.(receipts := minted.0)
  }

  function OnDeny(s: State, id: nat, now: nat): State {
    var (queue, ended) := End(s.queue, id, RequestState.Denied, now);
    s.(clock := now, queue := queue, active := if ended then KillActive(s.active, id) else s.active)
  }

  /** LOCK: wipe every standing authority, advance the epoch, and deny the running decrypt. */
  function OnLock(s: State, now: nat): State {
    var locked := s.(clock := now, grants := map[], receipts := map[], capabilityGrants := [],
    lockEpoch := s.lockEpoch + 1, active := None);
    match s.active
    case Some(id) => locked.(queue := End(s.queue, id, RequestState.Denied, now).0)
    case None => locked
  }

  ghost function OnRegister(s: State, r: Sessions.Registration): State {
    var registry := Sessions.Apply(s.registry, Sessions.DoRegister(r));
    match Sessions.Register(s.registry.sessions, r).1
    case Ok(displaced) => s.(registry := registry, grants := Restrict(s.grants, Secrets.NotHeldBy(displaced)))
    case Err(_) => s.(registry := registry)
  }

  ghost function OnUnregister(s: State, session: string): State {
    s.(registry := Sessions.Apply(s.registry, Sessions.DoUnregister(session)),
    grants := Restrict(s.grants, Secrets.NotHeldBy(Sessions.Unregister(s.registry.sessions, session).1)))
  }

  ghost function OnRedeem(s: State, presented: Option<Receipts.Id>, cap: string, now: nat): State {
    var redeemed := Receipts.Redeem(s.receipts, presented, cap, now);
    if redeemed.1.Some? then
      s.(clock := now, receipts := redeemed.0, capabilityGrants := s.capabilityGrants + [now + s.config.maxGrant],
      history := s.history.(redeems := s.history.redeems + [RedeemRecord(redeemed.1.value, cap, s.lockEpoch, now)]))
    else s.(clock := now, receipts := redeemed.0)
  }

  ghost function Effect(s: State, step: Step): State
    requires Enabled(s, step)
  {
    match step
    case Pick(now, present) => OnPick(s, now, present)
    case Spawned => OnSpawned(s)
    case DecryptReturns(now, outcome) => OnReturn(s, now, outcome)
    case Finish(denyAt, completeAt, insertAt, alive) => OnFinish(s, denyAt, completeAt, insertAt, alive)
    case Start(c, kind, key, ttl) =>
      s.(clients := s.clients[c := Client(kind, key, ttl, s.lockEpoch, Starting)])
    case Resolve(c, token, tty, within) => OnResolve(s, c, token, tty, within)
    case Enter(c, lookupAt, now, sameFile, located) => OnEnter(s, c, lookupAt, now, sameFile, located)
    case Poll(c, now) => OnPoll(s, c, now)
    case Collect(c, now) => OnCollect(s, c, now)
    case Mint(c, now, draws) => OnMint(s, c, now, draws)
    case Deny(id, now) => OnDeny(s, id, now)
    case Lock(now) => OnLock(s, now)
    case Register(r) => OnRegister(s, r)
    case Unregister(session) => OnUnregister(s, session)
    case Redeem(presented, cap, now) => OnRedeem(s, presented, cap, now)
  }

  // ---- Runs ----

  ghost predicate Next(s: State, step: Step, s': State) { Enabled(s, step) && s' == Effect(s, step) }

  ghost predicate IsRun(run: Run<State, Step>) { IsRunOf(run, Initial, Next) }
}
