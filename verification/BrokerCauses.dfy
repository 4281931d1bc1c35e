/**
 What makes each of the broker's tables change, and nothing else does: which callers are
 approved and how, which grants are stored, and which values and receipts go out. Each
 cause is stated by what is stored and what the step brings, as times and identities.
 */
module BrokerCauses {
  import opened Base
  import opened Runs
  import opened Scopes
  import opened Broker
  import opened BrokerQueue
  import opened BrokerSafety
  import opened BrokerRuns
  import opened BrokerSessions
  import Secrets = SecretGrants
  import Sessions = SessionRegistry
  import Receipts

  /** A grant of this scope and key is stored and its lifetime is not over. */
  predicate HasLive(s: State, scope: Scope, key: string, now: nat) {
    (scope, key) in s.grants && now < s.grants[(scope, key)].created + s.grants[(scope, key)].ttl
  }

  /** No grant was created in the future. */
  ghost predicate GrantsArePast(s: State) { forall k :: k in s.grants ==> s.grants[k].created <= s.clock }

  lemma RunGrantsArePast(run: Run<State, Step>, k: nat)
    requires IsRun(run) && k <= |run.steps|
    ensures GrantsArePast(run.states[k])
  {
    RunKeepsInv(run, k);
  }

  lemma LookupIs(s: State, scope: Scope, key: string, now: nat)
    requires GrantsArePast(s) && s.clock <= now
    ensures Secrets.Lookup(s.grants, scope, key, now) ==
            if HasLive(s, scope, key, now) then Some(s.grants[(scope, key)]) else None
  {
  }

  // ---- Approval ----

  /** The client is approved on the strength of a stored grant alone. */
  predicate ApprovedAsIs(s: State, c: nat) {
    c in s.clients && s.clients[c].phase.Approved? && s.clients[c].phase.requestId.None?
  }

  /** The client is approved by the touch this request waited for. */
  predicate ApprovedBy(s: State, c: nat, id: nat) {
    c in s.clients && s.clients[c].phase.Approved? && s.clients[c].phase.requestId == Some(id)
  }

  /** The client's entry finds a live grant of its own, decrypted from the file that is still there, and may use it. */
  predicate IsServed(s: State, step: Step, c: nat) {
    && step.Enter? && step.client == c && c in s.clients && s.clients[c].phase.Scoped?
    && HasLive(s, s.clients[c].phase.scope, s.clients[c].key, step.lookupAt)
    && step.sameFile && !s.clients[c].kind.Authorize?
  }

  /** The client's poll finds its request granted. */
  predicate IsTouched(s: State, step: Step, c: nat, id: nat) {
    && step.Poll? && step.client == c && c in s.clients && s.clients[c].phase.Waiting? && s.clients[c].phase.id == id
    && id in s.queue.requests && s.queue.requests[id].state.Granted?
  }

  lemma EnterApproves(s: State, e: nat, lookupAt: nat, now: nat, sameFile: bool, located: bool, c: nat, id: nat)
    requires GrantsArePast(s) && Enabled(s, Enter(e, lookupAt, now, sameFile, located))
    ensures var step := Enter(e, lookupAt, now, sameFile, located);
            && (ApprovedAsIs(OnEnter(s, e, lookupAt, now, sameFile, located), c) <==>
                ApprovedAsIs(s, c) || IsServed(s, step, c))
            && (ApprovedBy(OnEnter(s, e, lookupAt, now, sameFile, located), c, id) <==> ApprovedBy(s, c, id))
  {
    LookupIs(s, s.clients[e].phase.scope, s.clients[e].key, lookupAt);
  }

  /** The client's connection ends with this step. */
  predicate Leaves(step: Step, c: nat) { (step.Collect? || step.Mint?) && step.client == c }

  lemma OthersApprove(s: State, step: Step, c: nat, id: nat)
    requires Enabled(s, step) && IsClients(step) && !step.Enter?
    ensures ApprovedAsIs(Effect(s, step), c) <==> ApprovedAsIs(s, c) && !Leaves(step, c)
    ensures ApprovedBy(Effect(s, step), c, id) <==>
            (ApprovedBy(s, c, id) && !Leaves(step, c)) || IsTouched(s, step, c, id)
  {
  }

  lemma ApprovedAfter(s: State, step: Step, c: nat, id: nat)
    requires GrantsArePast(s) && Enabled(s, step)
    ensures ApprovedAsIs(Effect(s, step), c) <==> (ApprovedAsIs(s, c) && !Leaves(step, c)) || IsServed(s, step, c)
    ensures ApprovedBy(Effect(s, step), c, id) <==>
            (ApprovedBy(s, c, id) && !Leaves(step, c)) || IsTouched(s, step, c, id)
  {
    if step.Enter? {
      EnterApproves(s, step.client, step.lookupAt, step.now, step.sameFile, step.located, c, id);
    } else if IsClients(step) {
      OthersApprove(s, step, c, id);
    } else {
      ClientsUntouched(s, step);
    }
  }

  /**
   A client becomes approved exactly in two ways: its entry finds a live grant of its own
   scope and key, decrypted from the file still there, and it asks for no authorization; or
   its poll finds the request it waits for granted. It stays approved until it is answered.
   */
  lemma ApprovedIff(run: Run<State, Step>, k: nat, c: nat, id: nat)
    requires IsRun(run) && k < |run.steps|
    ensures ApprovedAsIs(run.states[k + 1], c) <==>
            || (ApprovedAsIs(run.states[k], c) && !Leaves(run.steps[k], c))
            || IsServed(run.states[k], run.steps[k], c)
    ensures ApprovedBy(run.states[k + 1], c, id) <==>
            || (ApprovedBy(run.states[k], c, id) && !Leaves(run.steps[k], c))
            || IsTouched(run.states[k], run.steps[k], c, id)
  {
    assert StepAt(run, Next, k);
    RunGrantsArePast(run, k);
    ApprovedAfter(run.states[k], run.steps[k], c, id);
  }

  lemma StaleEntry(s: State, c: nat, lookupAt: nat, now: nat, sameFile: bool, located: bool)
    requires GrantsArePast(s) && Enabled(s, Enter(c, lookupAt, now, sameFile, located))
    requires !sameFile || s.clients[c].kind.Authorize?
    ensures var after := OnEnter(s, c, lookupAt, now, sameFile, located);
            && !HasLive(after, s.clients[c].phase.scope, s.clients[c].key, lookupAt)
            && (c in after.clients ==> after.clients[c].phase.Waiting?)
  {
    LookupIs(s, s.clients[c].phase.scope, s.clients[c].key, lookupAt);
  }

  /**
   An entry that finds the backing file changed, or that asks for an authorization, is not
   served: afterwards no live grant of its scope and key is stored, and the client waits for
   a touch or has been refused.
   */
  lemma ChangedFileIsNotServed(run: Run<State, Step>, k: nat)
    requires IsRun(run) && k < |run.steps| && run.steps[k].Enter? && run.steps[k].client in run.states[k].clients
    requires !run.steps[k].sameFile || run.states[k].clients[run.steps[k].client].kind.Authorize?
    ensures run.states[k].clients[run.steps[k].client].phase.Scoped?
    ensures var c, s := run.steps[k].client, run.states[k];
            && !HasLive(run.states[k + 1], s.clients[c].phase.scope, s.clients[c].key, run.steps[k].lookupAt)
            && (c in run.states[k + 1].clients ==> run.states[k + 1].clients[c].phase.Waiting?)
  {
    assert StepAt(run, Next, k);
    RunGrantsArePast(run, k);
    var step := run.steps[k];
    StaleEntry(run.states[k], step.client, step.lookupAt, step.now, step.sameFile, step.located);
  }

  /** The client was served from the table at step `e`, and has waited to collect ever since. */
  ghost predicate ServedAt(run: Run<State, Step>, e: nat, k: nat, c: nat)
    requires k < |run.states| == |run.steps| + 1
  {
    && e < k && IsServed(run.states[e], run.steps[e], c)
    && forall n :: e < n <= k ==> ApprovedAsIs(run.states[n], c)
  }

  ghost predicate TouchedAt(run: Run<State, Step>, e: nat, k: nat, c: nat, id: nat)
    requires k < |run.states| == |run.steps| + 1
  {
    && e < k && IsTouched(run.states[e], run.steps[e], c, id)
    && forall n :: e < n <= k ==> ApprovedBy(run.states[n], c, id)
  }

  lemma {:induction false} AsIsWasServed(run: Run<State, Step>, k: nat, c: nat) returns (e: nat)
    requires IsRun(run) && k < |run.states| && ApprovedAsIs(run.states[k], c)
    ensures ServedAt(run, e, k, c)
    decreases k
  {
    assert k > 0;
    ApprovedIff(run, k - 1, c, 0);
    if IsServed(run.states[k - 1], run.steps[k - 1], c) {
      e := k - 1;
    } else {
      e := AsIsWasServed(run, k - 1, c);
    }
  }

  lemma {:induction false} ApprovedWasTouched(run: Run<State, Step>, k: nat, c: nat, id: nat) returns (e: nat)
    requires IsRun(run) && k < |run.states| && ApprovedBy(run.states[k], c, id)
    ensures TouchedAt(run, e, k, c, id)
    decreases k
  {
    assert k > 0;
    ApprovedIff(run, k - 1, c, id);
    if IsTouched(run.states[k - 1], run.steps[k - 1], c, id) {
      e := k - 1;
    } else {
      e := ApprovedWasTouched(run, k - 1, c, id);
    }
  }

  /**
   Every answered client was approved: one that waited for no request entered on a live grant
   of its own with the file unchanged, and any other polled its own request after it was granted.
   */
  lemma AnsweredWasApproved(run: Run<State, Step>, k: nat) returns (e: nat)
    requires IsRun(run) && k < |run.steps| && (run.steps[k].Collect? || run.steps[k].Mint?)
    ensures var c := run.steps[k].client;
            && c in run.states[k].clients && run.states[k].clients[c].phase.Approved?
            && (match run.states[k].clients[c].phase.requestId
                case None => ServedAt(run, e, k, c)
                case Some(id) => TouchedAt(run, e, k, c, id))
  {
    assert StepAt(run, Next, k);
    var c := run.steps[k].client;
    match run.states[k].clients[c].phase.requestId
    case None => e := AsIsWasServed(run, k, c);
    case Some(id) => e := ApprovedWasTouched(run, k, c, id);
  }

  // ---- Stored grants ----

  /** The finish may install: its request is still decrypting, no lock came, and its scope is still there. */
  predicate Installs(s: State, step: Step) {
    && step.Finish? && s.worker.Returned? && s.worker.outcome.Some?
    && s.worker.job.id in s.queue.requests && s.queue.requests[s.worker.job.id].state.Decrypting?
    && s.lockEpoch == s.worker.job.lockEpoch
    && step.alive && (s.worker.job.scope.Session? ==> s.worker.job.scope.token in s.registry.sessions)
  }

  /** What it installs: the value, from the time of insertion, for as long as was asked within the ceiling. */
  function Installed(s: State, step: Step): Secrets.Grant
    requires Installs(s, step)
  {
    var job, plain := s.worker.job, s.worker.outcome.value;
    var ttl := match job.requestedTtl
               case None => s.config.maxGrant
               case Some(secs) => if secs * SECOND < s.config.maxRequestedGrant then secs * SECOND
                                  else s.config.maxRequestedGrant;
    Secrets.Grant(job.scope, job.key, plain.value, plain.origin, step.insertAt, ttl)
  }

  /** The step takes the session of this token off the registry. */
  predicate EndsSession(s: State, step: Step, scope: Scope) { scope.Session? && Ends(s, step, scope.token) }

  /** The step revokes this grant. */
  predicate Revokes(s: State, step: Step, scope: Scope, key: string)
    requires (scope, key) in s.grants
  {
    match step
    case Lock(_) => true
    case Pick(now, present) => !HasLive(s, scope, key, now) || (scope.Tty? && scope.tty !in present)
    case Enter(c, lookupAt, _, sameFile, _) =>
      && c in s.clients && s.clients[c].phase == Scoped(scope) && s.clients[c].key == key
      && HasLive(s, scope, key, lookupAt) && (!sameFile || s.clients[c].kind.Authorize?)
    case Register(_) => EndsSession(s, step, scope)
    case Unregister(_) => EndsSession(s, step, scope)
    case _ => false
  }

  lemma FinishGrants(s: State, denyAt: nat, completeAt: nat, insertAt: nat, alive: bool)
    requires WorkInv(s.queue, s.worker, s.history.decrypts, s.lockEpoch) && s.worker.Returned?
    ensures var step := Finish(denyAt, completeAt, insertAt, alive);
            OnFinish(s, denyAt, completeAt, insertAt, alive).grants ==
            if Installs(s, step) then s.grants[(s.worker.job.scope, s.worker.job.key) := Installed(s, step)]
            else s.grants
  {
    InstallsIff(s, denyAt, completeAt, alive);
  }

  lemma PickGrants(s: State, now: nat, present: set<string>, scope: Scope, key: string)
    requires GrantsArePast(s) && s.clock <= now && GrantsAreKeyed(s)
    ensures var after := OnPick(s, now, present).grants;
            && ((scope, key) in after <==> (scope, key) in s.grants && !Revokes(s, Pick(now, present), scope, key))
            && ((scope, key) in after ==> after[(scope, key)] == s.grants[(scope, key)])
  {
  }

  /** Grants are stored under their own scope and key. */
  ghost predicate GrantsAreKeyed(s: State) {
    forall k :: k in s.grants ==> (s.grants[k].scope, s.grants[k].key) == k
  }

  lemma EnterGrants(s: State, c: nat, lookupAt: nat, now: nat, sameFile: bool, located: bool, scope: Scope, key: string)
    requires GrantsArePast(s) && Enabled(s, Enter(c, lookupAt, now, sameFile, located))
    ensures var after := OnEnter(s, c, lookupAt, now, sameFile, located).grants;
            && ((scope, key) in after <==>
                && (scope, key) in s.grants
                && !Revokes(s, Enter(c, lookupAt, now, sameFile, located), scope, key))
            && ((scope, key) in after ==> after[(scope, key)] == s.grants[(scope, key)])
  {
    LookupIs(s, s.clients[c].phase.scope, s.clients[c].key, lookupAt);
  }

  lemma RegistryGrants(s: State, step: Step, scope: Scope, key: string)
    requires Enabled(s, step) && (step.Register? || step.Unregister?) && GrantsAreKeyed(s)
    requires forall k :: k in s.grants && k.0.Session? ==> k.0.token in s.registry.sessions
    ensures var after := Effect(s, step).grants;
            && ((scope, key) in after <==> (scope, key) in s.grants && !Revokes(s, step, scope, key))
            && ((scope, key) in after ==> after[(scope, key)] == s.grants[(scope, key)])
  {
  }

  lemma GrantsUntouchedByClients(s: State, step: Step)
    requires Enabled(s, step) && IsClients(step) && !step.Enter?
    ensures Effect(s, step).grants == s.grants
  {
  }

  lemma GrantsUntouched(s: State, step: Step)
    requires Enabled(s, step) && !step.Finish? && !step.Pick? && !step.Enter? && !step.Register? && !step.Unregister?
    ensures Effect(s, step).grants == if step.Lock? then map[] else s.grants
  {
    if IsClients(step) { GrantsUntouchedByClients(s, step); }
  }

  /** The part of the invariant that grants need. */
  ghost predicate GrantsFit(s: State) {
    && GrantsArePast(s) && GrantsAreKeyed(s) && WorkInv(s.queue, s.worker, s.history.decrypts, s.lockEpoch)
    && forall k :: k in s.grants && k.0.Session? ==> k.0.token in s.registry.sessions
  }

  lemma RunGrantsFit(run: Run<State, Step>, k: nat)
    requires IsRun(run) && k <= |run.steps|
    ensures GrantsFit(run.states[k])
  {
    RunKeepsInv(run, k);
  }

  lemma GrantAfter(s: State, step: Step, scope: Scope, key: string)
    requires GrantsFit(s) && Enabled(s, step)
    ensures var after := Effect(s, step).grants;
            var anew := Installs(s, step) && (s.worker.job.scope, s.worker.job.key) == (scope, key);
            && ((scope, key) in after <==> anew || ((scope, key) in s.grants && !Revokes(s, step, scope, key)))
            && ((scope, key) in after ==>
                  after[(scope, key)] == if anew then Installed(s, step) else s.grants[(scope, key)])
  {
    match step
    case Finish(denyAt, completeAt, insertAt, alive) => FinishGrants(s, denyAt, completeAt, insertAt, alive);
    case Pick(now, present) => PickGrants(s, now, present, scope, key);
    case Enter(c, lookupAt, now, sameFile, located) =>
      EnterGrants(s, c, lookupAt, now, sameFile, located, scope, key);
    case Register(_) => RegistryGrants(s, step, scope, key);
    case Unregister(_) => RegistryGrants(s, step, scope, key);
    case _ => GrantsUntouched(s, step);
  }

  /**
   A grant is stored exactly by the finish of a decrypt whose request is still decrypting in the
   epoch it started in, for a scope still there, with the value decrypted and the lifetime asked
   within the ceiling; it goes exactly by LOCK, its expiry, its terminal's or session's end, or an
   entry that finds its file changed or asks for an authorization.
   */
  lemma GrantStoredIff(run: Run<State, Step>, k: nat, scope: Scope, key: string)
    requires IsRun(run) && k < |run.steps|
    ensures var s, step, after := run.states[k], run.steps[k], run.states[k + 1].grants;
            var anew := Installs(s, step) && (s.worker.job.scope, s.worker.job.key) == (scope, key);
            && ((scope, key) in after <==> anew || ((scope, key) in s.grants && !Revokes(s, step, scope, key)))
            && ((scope, key) in after ==>
                  after[(scope, key)] == if anew then Installed(s, step) else s.grants[(scope, key)])
  {
    assert StepAt(run, Next, k);
    RunGrantsFit(run, k);
    GrantAfter(run.states[k], run.steps[k], scope, key);
  }

  // ---- What goes out ----

  /** The client collects a value: it asked for one, and a live grant of its scope and key is stored. */
  predicate HandsOut(s: State, step: Step) {
    && step.Collect? && step.client in s.clients
    && var client := s.clients[step.client];
    && client.phase.Approved? && client.kind.Get? && HasLive(s, client.phase.scope, client.key, step.now)
  }

  lemma CollectHandsOut(s: State, c: nat, now: nat)
    requires GrantsArePast(s) && Enabled(s, Collect(c, now))
    ensures var k := (s.clients[c].phase.scope, s.clients[c].key);
            OnCollect(s, c, now).history.releases ==
            s.history.releases + if HandsOut(s, Collect(c, now))
                                 then [Release(k.0, k.1, s.grants[k].value, s.grants[k].created, now, s.lockEpoch)]
                                 else []
  {
    LookupIs(s, s.clients[c].phase.scope, s.clients[c].key, now);
  }

  /** A value goes out exactly when an approved GET collects while its grant is live, and it is that grant's. */
  lemma ReleasedIff(run: Run<State, Step>, k: nat)
    requires IsRun(run) && k < |run.steps|
    ensures var s, step := run.states[k], run.steps[k];
            run.states[k + 1].history.releases ==
            s.history.releases + if HandsOut(s, step)
                                 then (var client := s.clients[step.client];
                                       var g := s.grants[(client.phase.scope, client.key)];
                                       [Release(client.phase.scope, client.key, g.value, g.created, step.now,
                                                s.lockEpoch)])
                                 else []
  {
    assert StepAt(run, Next, k);
    RunGrantsArePast(run, k);
    if run.steps[k].Collect? {
      CollectHandsOut(run.states[k], run.steps[k].client, run.steps[k].now);
    } else {
      ReleasesUntouched(run.states[k], run.steps[k]);
    }
  }

  /** The authorization may mint: a touch approved it, and no lock came since it connected. */
  predicate MayMint(s: State, step: Step) {
    && step.Mint? && step.client in s.clients
    && var client := s.clients[step.client];
    && client.phase.Approved? && client.phase.requestId.Some? && client.kind.Authorize?
    && client.epochBefore == s.lockEpoch
  }

  /** Fewer than thirty-two receipts are live, and this draw is the first that names none of them. */
  ghost predicate Draws(s: State, step: Step, k: nat) {
    && step.Mint? && |set id | id in s.receipts && Receipts.IsLive(s.receipts, id, step.now)| < 32
    && Receipts.IsFirstUnused(s.receipts, step.draws, k, step.now)
  }

  lemma MintRecords(s: State, c: nat, now: nat, draws: seq<Receipts.Id>)
    requires Enabled(s, Mint(c, now, draws))
    ensures var step, mints, mints' := Mint(c, now, draws), s.history.mints, OnMint(s, c, now, draws).history.mints;
            && (mints' != mints <==> MayMint(s, step) && exists k: nat :: Draws(s, step, k))
            && (mints' != mints ==>
                  exists k: nat ::
                    && Draws(s, step, k)
                    && mints' == mints + [MintRecord(draws[k], s.clients[c].kind.cap,
                                                     s.clients[c].phase.requestId.value, s.lockEpoch, now)])
  {
    Receipts.MintAnswers(s.receipts, s.clients[c].kind.cap, now, draws);
    var answer := Receipts.Mint(s.receipts, s.clients[c].kind.cap, now, draws).1;
    if answer.Minted? {
      var k: nat :| Receipts.IsFirstUnused(s.receipts, draws, k, now) && draws[k] == answer.id;
      assert Draws(s, Mint(c, now, draws), k);
    }
  }

  lemma MintsUntouchedByClients(s: State, step: Step)
    requires Enabled(s, step) && IsClients(step) && !step.Mint?
    ensures Effect(s, step).history.mints == s.history.mints
  {
  }

  lemma MintsUntouched(s: State, step: Step)
    requires Enabled(s, step) && !step.Mint?
    ensures Effect(s, step).history.mints == s.history.mints
  {
    if IsClients(step) { MintsUntouchedByClients(s, step); }
  }

  /** A receipt is minted exactly when a touched authorization of this epoch finds room and an unused draw. */
  lemma MintedIff(run: Run<State, Step>, k: nat)
    requires IsRun(run) && k < |run.steps|
    ensures var s, step, mints := run.states[k], run.steps[k], run.states[k + 1].history.mints;
            && (mints != s.history.mints <==> MayMint(s, step) && exists d: nat :: Draws(s, step, d))
            && (mints != s.history.mints ==>
                  exists d: nat ::
                    && Draws(s, step, d)
                    && mints == s.history.mints
                       + [MintRecord(step.draws[d], s.clients[step.client].kind.cap,
                                     s.clients[step.client].phase.requestId.value, s.lockEpoch, step.now)])
  {
    assert StepAt(run, Next, k);
    if run.steps[k].Mint? {
      MintRecords(run.states[k], run.steps[k].client, run.steps[k].now, run.steps[k].draws);
    } else {
      MintsUntouched(run.states[k], run.steps[k]);
    }
  }

  /** The redeem names a live receipt of its own capability. */
  predicate Cashes(s: State, step: Step) {
    && step.Redeem? && step.presented.Some? && Receipts.IsLive(s.receipts, step.presented.value, step.now)
    && s.receipts[step.presented.value].cap == step.cap
  }

  lemma RedeemsUntouchedByClients(s: State, step: Step)
    requires Enabled(s, step) && IsClients(step)
    ensures Effect(s, step).history.redeems == s.history.redeems
  {
  }

  lemma RedeemsUntouched(s: State, step: Step)
    requires Enabled(s, step) && !step.Redeem?
    ensures Effect(s, step).history.redeems == s.history.redeems
  {
    if IsClients(step) { RedeemsUntouchedByClients(s, step); }
  }

  /** A receipt is redeemed exactly when it is presented, live, for its own capability, and then it is gone. */
  lemma RedeemedIff(run: Run<State, Step>, k: nat)
    requires IsRun(run) && k < |run.steps|
    ensures var s, step := run.states[k], run.steps[k];
            && run.states[k + 1].history.redeems ==
               s.history.redeems + (if Cashes(s, step)
                                    then [RedeemRecord(step.presented.value, step.cap, s.lockEpoch, step.now)] else [])
            && (Cashes(s, step) ==> step.presented.value !in run.states[k + 1].receipts)
  {
    assert StepAt(run, Next, k);
    var s, step := run.states[k], run.steps[k];
    if step.Redeem? {
      Receipts.RedeemTakesOnlyItsOwn(s.receipts, step.presented, step.cap, step.now);
    } else {
      RedeemsUntouched(s, step);
    }
  }

  lemma StandingByClients(s: State, step: Step)
    requires Enabled(s, step) && IsClients(step) && !step.Mint?
    ensures Effect(s, step).receipts == s.receipts && Effect(s, step).capabilityGrants == s.capabilityGrants
  {
  }

  lemma StandingAfter(s: State, step: Step)
    requires Enabled(s, step) && !step.Pick? && !step.Mint? && !step.Redeem?
    ensures Effect(s, step).receipts == (if step.Lock? then map[] else s.receipts)
    ensures Effect(s, step).capabilityGrants == (if step.Lock? then [] else s.capabilityGrants)
  {
    if IsClients(step) { StandingByClients(s, step); }
  }

  lemma PickStanding(s: State, now: nat, present: set<string>)
    ensures var after := OnPick(s, now, present);
            && (forall id :: id in after.receipts <==> Receipts.IsLive(s.receipts, id, now))
            && (forall id :: id in after.receipts ==> after.receipts[id] == s.receipts[id])
            && (forall deadline :: deadline in after.capabilityGrants <==>
                                     deadline in s.capabilityGrants && now < deadline)
  {
  }

  lemma RedeemStanding(s: State, presented: Option<Receipts.Id>, cap: string, now: nat)
    ensures var after, step := OnRedeem(s, presented, cap, now), Redeem(presented, cap, now);
            && (forall id :: id in after.receipts <==>
                               Receipts.IsLive(s.receipts, id, now) && !(Cashes(s, step) && presented == Some(id)))
            && after.capabilityGrants ==
               s.capabilityGrants + (if Cashes(s, step) then [now + s.config.maxGrant] else [])
  {
    Receipts.RedeemTakesOnlyItsOwn(s.receipts, presented, cap, now);
  }

  /**
   Standing authority other than grants: a capability grant comes exactly from a redeemed receipt and
   lasts the default lifetime from then; LOCK leaves none, and no receipt.
   */
  lemma StandingIff(run: Run<State, Step>, k: nat, deadline: nat)
    requires IsRun(run) && k < |run.steps|
    ensures var s, step, after := run.states[k], run.steps[k], run.states[k + 1];
            && (deadline in after.capabilityGrants <==>
                || (Cashes(s, step) && deadline == step.now + s.config.maxGrant)
                || (deadline in s.capabilityGrants && !step.Lock? && (step.Pick? ==> step.now < deadline)))
            && (step.Lock? ==> after.receipts == map[] && after.capabilityGrants == [] && after.grants == map[])
  {
    assert StepAt(run, Next, k);
    var s, step := run.states[k], run.steps[k];
    match step
    case Pick(now, present) => PickStanding(s, now, present);
    case Redeem(presented, cap, now) => RedeemStanding(s, presented, cap, now);
    case Mint(_, _, _) =>
    case _ => StandingAfter(s, step);
  }

  // ---- A client's own wishes, and the epoch it connected in ----

  /** The client is there, asking for what this request asked, connected in this epoch. */
  predicate Asks(s: State, c: nat, request: Step, epoch: nat)
    requires request.Start?
  {
    && c in s.clients && s.clients[c].kind == request.kind && s.clients[c].key == request.key
    && s.clients[c].ttl == request.ttl && s.clients[c].epochBefore == epoch
  }

  lemma EnterKeepsWishes(s: State, e: nat, lookupAt: nat, now: nat, sameFile: bool, located: bool, c: nat)
    requires e in s.clients && s.clients[e].phase.Scoped?
    requires c in OnEnter(s, e, lookupAt, now, sameFile, located).clients
    ensures c in s.clients
    ensures OnEnter(s, e, lookupAt, now, sameFile, located).clients[c].(phase := Starting) ==
            s.clients[c].(phase := Starting)
  {
  }

  lemma WishesBefore(s: State, step: Step, c: nat)
    requires Enabled(s, step) && IsClients(step) && !step.Enter? && c in Effect(s, step).clients
    ensures || (c in s.clients && Effect(s, step).clients[c].(phase := Starting) == s.clients[c].(phase := Starting))
            || (step.Start? && step.client == c && Asks(Effect(s, step), c, step, s.lockEpoch))
  {
    if Leaves(step, step.client) { LeavingDropsOne(s, step); }
  }

  lemma LeavingDropsOne(s: State, step: Step)
    requires Enabled(s, step) && (step.Collect? || step.Mint?)
    ensures Effect(s, step).clients == s.clients - {step.client}
  {
  }

  /** Step `i` connected the client, and it has asked for the same ever since. */
  ghost predicate StartedAt(run: Run<State, Step>, i: nat, k: nat, c: nat)
    requires k < |run.states| == |run.steps| + 1
  {
    && i < k && run.steps[i].Start? && run.steps[i].client == c
    && forall n :: i < n <= k ==> Asks(run.states[n], c, run.steps[i], run.states[i].lockEpoch)
  }

  /** Every client asks for what it connected with, and its epoch is the one it connected in. */
  lemma {:induction false} ClientWasStarted(run: Run<State, Step>, k: nat, c: nat) returns (i: nat)
    requires IsRun(run) && k < |run.states| && c in run.states[k].clients
    ensures StartedAt(run, i, k, c)
    decreases k
  {
    assert k > 0;
    assert StepAt(run, Next, k - 1);
    var s, step := run.states[k - 1], run.steps[k - 1];
    if step.Enter? {
      EnterKeepsWishes(s, step.client, step.lookupAt, step.now, step.sameFile, step.located, c);
    } else if IsClients(step) {
      WishesBefore(s, step, c);
    } else {
      ClientsUntouched(s, step);
    }
    if step.Start? && step.client == c {
      i := k - 1;
    } else {
      i := ClientWasStarted(run, k - 1, c);
      assert Asks(run.states[k - 1], c, run.steps[i], run.states[i].lockEpoch);
    }
  }

  lemma EpochAfter(s: State, step: Step)
    requires Enabled(s, step)
    ensures Effect(s, step).lockEpoch == s.lockEpoch + if step.Lock? then 1 else 0
  {
    if !TouchesQueue(step) { QueueUntouched(s, step); }
  }

  /** The epoch stands still exactly while nobody locks. */
  lemma {:induction false} EpochStandsIff(run: Run<State, Step>, i: nat, k: nat)
    requires IsRun(run) && i <= k < |run.states|
    ensures run.states[i].lockEpoch <= run.states[k].lockEpoch
    ensures run.states[i].lockEpoch == run.states[k].lockEpoch <==> forall n :: i <= n < k ==> !run.steps[n].Lock?
    decreases k
  {
    if i < k {
      EpochStandsIff(run, i, k - 1);
      assert StepAt(run, Next, k - 1);
      EpochAfter(run.states[k - 1], run.steps[k - 1]);
    }
  }

  /** A touched authorization may mint exactly when nobody has locked since it connected. */
  lemma MayMintIff(run: Run<State, Step>, k: nat) returns (i: nat)
    requires IsRun(run) && k < |run.steps| && run.steps[k].Mint?
    ensures run.steps[k].client in run.states[k].clients
    ensures run.states[k].clients[run.steps[k].client].phase.Approved?
    ensures StartedAt(run, i, k, run.steps[k].client)
    ensures MayMint(run.states[k], run.steps[k]) <==>
            && run.states[k].clients[run.steps[k].client].phase.requestId.Some?
            && forall n :: i <= n < k ==> !run.steps[n].Lock?
  {
    assert StepAt(run, Next, k);
    i := ClientWasStarted(run, k, run.steps[k].client);
    EpochStandsIff(run, i, k);
    assert Asks(run.states[k], run.steps[k].client, run.steps[i], run.states[i].lockEpoch);
  }

  // ---- Scopes ----

  /**
   A caller gets the scope of the session whose token it presents from inside that session's process tree, or
   without a token that of a terminal not known as an agent's; any other caller is sent away.
   */
  lemma ScopeGivenIff(run: Run<State, Step>, k: nat)
    requires IsRun(run) && k < |run.steps| && run.steps[k].Resolve?
    ensures var s, step, after := run.states[k], run.steps[k], run.states[k + 1].clients;
            var verified := Sessions.IsVerified(s.registry.sessions, step.token, step.within);
            var human := step.token.None? && step.tty.Some? && step.tty.value !in s.registry.agentTtys;
            && (step.client in after <==> verified || human)
            && (verified ==> after[step.client].phase == Scoped(Scope.Session(step.token.value)))
            && (human ==> after[step.client].phase == Scoped(Tty(step.tty.value, s.registry.bootId)))
  {
    assert StepAt(run, Next, k);
    Sessions.ResolveAnswers(run.states[k].registry, run.steps[k].token, run.steps[k].tty, run.steps[k].within);
  }

  lemma TerminalsUntouched(s: State, step: Step)
    requires Enabled(s, step) && !step.Resolve?
    ensures Effect(s, step).registry.agentTtys == s.registry.agentTtys
  {
    if IsClients(step) { TerminalsUntouchedByClients(s, step); }
  }

  lemma TerminalsUntouchedByClients(s: State, step: Step)
    requires Enabled(s, step) && IsClients(step) && !step.Resolve?
    ensures Effect(s, step).registry == s.registry
  {
  }

  /** A terminal becomes known as an agent's exactly when a verified session asks from it, and stays so. */
  lemma TerminalKnownIff(run: Run<State, Step>, k: nat, tty: string)
    requires IsRun(run) && k < |run.steps|
    ensures tty in run.states[k + 1].registry.agentTtys <==>
            || tty in run.states[k].registry.agentTtys
            || (run.steps[k].Resolve? && run.steps[k].tty == Some(tty)
                && Sessions.IsVerified(run.states[k].registry.sessions, run.steps[k].token, run.steps[k].within))
  {
    assert StepAt(run, Next, k);
    if !run.steps[k].Resolve? { TerminalsUntouched(run.states[k], run.steps[k]); }
  }

  // ---- No one is ever stuck ----

  /** The next section of a client, with any answers from outside. */
  function NextOf(client: Client, c: nat, now: nat, token: Option<nat>, tty: Option<string>, within: set<nat>,
                  yes: bool, draws: seq<Receipts.Id>): Step
  {
    match client.phase
    case Starting => Resolve(c, token, tty, within)
    case Scoped(_) => Enter(c, now, now, yes, yes)
    case Waiting(_, _, _) => Poll(c, now)
    case Approved(_, _) => if client.kind.Authorize? then Mint(c, now, draws) else Collect(c, now)
  }

  /** Whatever the state: a control verb is always served, the worker always goes on, and so does every client. */
  lemma NeverStuck(s: State, now: nat, step: Step, c: nat, outcome: Option<Plain>, yes: bool, present: set<string>,
                   token: Option<nat>, tty: Option<string>, within: set<nat>, draws: seq<Receipts.Id>)
    requires s.clock <= now
    ensures (step.Deny? || step.Lock? || step.Redeem?) && step.now == now ==> Enabled(s, step)
    ensures step.Register? || step.Unregister? ==> Enabled(s, step)
    ensures match s.worker
            case Idle => Enabled(s, Pick(now, present))
            case Running(_, _) => Enabled(s, Spawned) && Enabled(s, DecryptReturns(now, outcome))
            case Returned(_, _) => Enabled(s, Finish(now, now, now, yes))
    ensures c in s.clients ==> Enabled(s, NextOf(s.clients[c], c, now, token, tty, within, yes, draws))
    ensures c !in s.clients && step.Start? && step.client == c && (step.kind.Authorize? ==> step.ttl.None?) ==>
              (Enabled(s, step) <==>
               if step.kind.Authorize? then step.key == "CAP_" + Upper(step.kind.cap) else !("CAP_" <= step.key))
  {
  }
}
