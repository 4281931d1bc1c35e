/**
 What each queue operation answers, and exactly what makes a request change, in terms of
 stored states and times alone.
 */
module QueueAnswers {
  import opened Base
  import opened Runs
  import opened Scopes
  import opened Requests

  /** No decrypt ended within the cooldown before `now`. */
  predicate Cooled(q: QueueModel, now: nat) {
    q.lastFinished.None? || now < q.lastFinished.value || q.lastFinished.value + q.limits.cooldown <= now
  }

  ghost predicate IsPendingIn(q: QueueModel, id: nat) { id in q.requests && q.requests[id].state.Pending? }

  predicate IsActiveIn(q: QueueModel, id: nat) {
    id in q.requests && (q.requests[id].state.Pending? || q.requests[id].state.Decrypting?)
  }

  /** The next request to decrypt is the oldest pending one, once nothing is in flight and the cooldown is over. */
  lemma NextReadyIff(q: QueueModel, now: nat, id: nat)
    ensures NextReady(q, now) == Some(id) <==>
            && q.inflight.None? && Cooled(q, now)
            && IsPendingIn(q, id) && forall other :: IsPendingIn(q, other) ==> id <= other
    ensures NextReady(q, now).None? <==>
            q.inflight.Some? || !Cooled(q, now) || forall other :: !IsPendingIn(q, other)
  {
    assert forall other :: other in PendingIds(q) <==> IsPendingIn(q, other);
    if IsPendingIn(q, id) && forall other :: IsPendingIn(q, other) ==> id <= other {
      LeastIs(PendingIds(q), id);
    }
  }

  // ---- Asking ----

  predicate NamesCapability(key: string) {
    |key| >= 4 && key[0] == 'C' && key[1] == 'A' && key[2] == 'P' && key[3] == '_'
  }

  /** The active requests of a scope that the limit for this key counts: all of them, or its capabilities. */
  ghost function Rivals(q: QueueModel, scope: Scope, key: string): set<nat> {
    set id | id in q.requests && IsActiveIn(q, id) && q.requests[id].scope == scope
             && (NamesCapability(key) ==> NamesCapability(q.requests[id].key))
  }

  /** An active request asks for exactly this. */
  predicate AskedAlready(q: QueueModel, id: nat, scope: Scope, key: string) {
    IsActiveIn(q, id) && q.requests[id].scope == scope && q.requests[id].key == key
  }

  lemma RivalsCounted(q: QueueModel, scope: Scope, key: string)
    ensures CountedIds(q, scope, IsCapability(key)) == Rivals(q, scope, key)
    ensures forall id :: id in SameAskIds(q, scope, key) <==> AskedAlready(q, id, scope, key)
  {
    assert IsCapability(key) <==> NamesCapability(key);
    forall id | id in q.requests
      ensures IsCapability(q.requests[id].key) <==> NamesCapability(q.requests[id].key)
    {
    }
  }

  /**
   An ask joins the active request for the same secret, of which there is one; else it is
   refused at the scope's limit, which for capabilities is one; else it is added, pending.
   */
  lemma EnqueueAnswers(q: QueueModel, scope: Scope, key: string, now: nat, ttl: Option<nat>)
    requires QueueInv(q)
    ensures var (q', answer) := Enqueue(q, scope, key, now, ttl);
            var joins := !NamesCapability(key) && exists id :: AskedAlready(q, id, scope, key);
            var limit := if NamesCapability(key) then 1 else q.limits.maxPendingPerScope;
            if joins then q' == q && answer.Ok? && forall id :: AskedAlready(q, id, scope, key) <==> id == answer.value
            else if |Rivals(q, scope, key)| >= limit then q' == q && answer == Err(TooManyPending)
            else
              && answer == Ok(q.nextId)
              && q' == q.(nextId := q.nextId + 1,
                          requests := q.requests[q.nextId := Request(q.nextId, scope, key, Pending, 0, now, ttl)])
  {
    RivalsCounted(q, scope, key);
    assert IsCapability(key) <==> NamesCapability(key);
    var same := SameAskIds(q, scope, key);
    if same != {} && !IsCapability(key) {
      var a := Least(same).value;
      assert AskedAlready(q, a, scope, key);
      forall b | AskedAlready(q, b, scope, key)
        ensures b == a
      {
        assert SameAsk(q.requests[b], q.requests[a].scope, q.requests[a].key);
      }
    }
  }

  // ---- One request ----

  /** The operation starts this request's decrypt. */
  predicate Starts(q: QueueModel, op: QueueOp, id: nat)
    requires id in q.requests
  {
    op.DoMark? && op.id == id && q.requests[id].state.Pending? && q.inflight.None? && Cooled(q, op.at)
  }

  /** The operation ends this request because time ran out. */
  predicate TimesOut(q: QueueModel, op: QueueOp, id: nat)
    requires id in q.requests
  {
    && IsActiveIn(q, id)
    && ((op.DoTimeout? && op.id == id) || (op.DoSweep? && q.requests[id].created + q.limits.ttl < op.at))
  }

  predicate Grants(q: QueueModel, op: QueueOp, id: nat)
    requires id in q.requests
  {
    && op.DoComplete? && op.id == id && q.requests[id].state.Decrypting? && q.requests[id].generation == op.generation
  }

  predicate Denies(q: QueueModel, op: QueueOp, id: nat) { op.DoDeny? && op.id == id && IsActiveIn(q, id) }

  /** The operation forgets this request: it has ended, and twice the lifetime has passed since it was made. */
  predicate Forgets(q: QueueModel, op: QueueOp, id: nat)
    requires id in q.requests
  {
    && op.DoPrune? && !IsActiveIn(q, id)
    && !(q.requests[id].created <= op.at < q.requests[id].created + 2 * q.limits.ttl)
  }

  /** The state and generation of a request after an operation. */
  function Moved(q: QueueModel, op: QueueOp, id: nat): (RequestState, nat)
    requires id in q.requests
  {
    var r := q.requests[id];
    if Starts(q, op, id) then (Decrypting, q.generation + 1)
    else if Grants(q, op, id) then (Granted, r.generation)
    else if TimesOut(q, op, id) then (TimedOut, r.generation + 1)
    else if Denies(q, op, id) then (RequestState.Denied, r.generation + 1)
    else if op.DoFail? && op.id == id then (Failed, r.generation)
    else (r.state, r.generation)
  }

  /** A request as an operation leaves it. */
  function MovedRequest(q: QueueModel, op: QueueOp, id: nat): Request
    requires id in q.requests
  {
    q.requests[id].(state := Moved(q, op, id).0, generation := Moved(q, op, id).1)
  }

  lemma NamedAfter(q: QueueModel, op: QueueOp, id: nat)
    requires WellKeyed(q) && id in q.requests && !op.DoEnqueue? && !op.DoSweep? && !op.DoPrune?
    ensures id in Apply(q, op).requests && Apply(q, op).requests[id] == MovedRequest(q, op, id)
  {
  }

  lemma TidiedAfter(q: QueueModel, op: QueueOp, id: nat)
    requires WellKeyed(q) && id in q.requests && (op.DoSweep? || op.DoPrune?)
    ensures id in Apply(q, op).requests <==> !Forgets(q, op, id)
    ensures id in Apply(q, op).requests ==> Apply(q, op).requests[id] == MovedRequest(q, op, id)
  {
  }

  /** Each operation moves exactly the requests it should, and forgets exactly those it may. */
  lemma RequestAfter(q: QueueModel, op: QueueOp, id: nat)
    requires QueueInv(q) && id in q.requests
    ensures id in Apply(q, op).requests <==> !Forgets(q, op, id)
    ensures id in Apply(q, op).requests ==> Apply(q, op).requests[id] == MovedRequest(q, op, id)
  {
    if op.DoEnqueue? {
      EnqueueAnswers(q, op.scope, op.key, op.at, op.requestedTtl);
    } else if op.DoSweep? || op.DoPrune? {
      TidiedAfter(q, op, id);
    } else {
      NamedAfter(q, op, id);
    }
  }

  // ---- The flight ----

  /** The operation ends the decrypt in flight, or stands for its end. */
  ghost predicate EndsFlight(q: QueueModel, op: QueueOp, id: nat) {
    match op
    case DoComplete(done, _, _) => done == id
    case DoFinish(done, _) => done == id
    case DoFail(done, _) => done == id
    case DoTimeout(ended, _) => ended == id && IsActiveIn(q, id)
    case DoDeny(ended, _) => ended == id && IsActiveIn(q, id)
    case DoSweep(_) => id in q.requests && TimesOut(q, op, id)
    case _ => false
  }

  /** One decrypt is in flight from its start to its end, and every end starts the cooldown anew. */
  lemma FlightAfter(q: QueueModel, op: QueueOp)
    requires QueueInv(q)
    ensures Apply(q, op).inflight ==
            if op.DoMark? && op.id in q.requests && Starts(q, op, op.id) then Some(op.id)
            else if q.inflight.Some? && EndsFlight(q, op, q.inflight.value) then None
            else q.inflight
    ensures Apply(q, op).lastFinished ==
            if !op.DoEnqueue? && !op.DoMark? && !op.DoPrune? && exists id :: EndsFlight(q, op, id) then Some(op.at)
            else q.lastFinished
    ensures Apply(q, op).generation ==
            q.generation + if op.DoMark? && op.id in q.requests && Starts(q, op, op.id) then 1 else 0
  {
    match op
    case DoEnqueue(scope, key, now, ttl) => EnqueueAnswers(q, scope, key, now, ttl);
    case DoSweep(now) =>
      forall id
        ensures id in OverdueIds(q, now) <==> EndsFlight(q, op, id)
      {
      }
    case DoComplete(id, _, _) => assert EndsFlight(q, op, id);
    case DoFinish(id, _) => assert EndsFlight(q, op, id);
    case DoFail(id, _) => assert EndsFlight(q, op, id);
    case DoTimeout(id, _) => assert IsActiveIn(q, id) ==> EndsFlight(q, op, id);
    case DoDeny(id, _) => assert IsActiveIn(q, id) ==> EndsFlight(q, op, id);
    case DoMark(_, _) | DoPrune(_) =>
  }

  // ---- A completion grants exactly its own decrypt ----

  ghost predicate Initial(q: QueueModel) { q == Empty(q.limits) }

  ghost predicate Next(q: QueueModel, op: QueueOp, q': QueueModel) { q' == Apply(q, op) }

  ghost predicate IsRun(run: Run<QueueModel, QueueOp>) { IsRunOf(run, Initial, Next) }

  lemma RunKeepsInv(run: Run<QueueModel, QueueOp>, k: nat)
    requires IsRun(run) && k < |run.states|
    ensures QueueInv(run.states[k])
  {
    forall q | Initial(q)
      ensures QueueInv(q)
    {
      ReachableQueue(q.limits, []);
    }
    forall q, op, q' | QueueInv(q) && Next(q, op, q')
      ensures QueueInv(q')
    {
      ApplyKeepsInv(q, op);
    }
    Throughout(run, Initial, Next, QueueInv, k);
  }

  /** The request is being decrypted under this generation. */
  predicate Flies(q: QueueModel, id: nat, generation: nat) {
    id in q.requests && q.requests[id].state.Decrypting? && q.requests[id].generation == generation
  }

  /** The operation ends this request's decrypt: granted, failed, timed out or denied. */
  predicate Lands(q: QueueModel, op: QueueOp, id: nat) {
    id in q.requests && (Grants(q, op, id) || TimesOut(q, op, id) || Denies(q, op, id) || (op.DoFail? && op.id == id))
  }

  /** Operation `i` started the request's decrypt under this generation, and none since has ended it. */
  ghost predicate InFlightSince(run: Run<QueueModel, QueueOp>, i: nat, k: nat, id: nat, generation: nat)
    requires k < |run.states| == |run.steps| + 1
  {
    && i < k && run.steps[i].DoMark? && run.steps[i].id == id
    && id in run.states[i].requests && Starts(run.states[i], run.steps[i], id)
    && generation == run.states[i].generation + 1
    && forall n :: i < n < k ==> !Lands(run.states[n], run.steps[n], id)
  }

  lemma FliesAfter(q: QueueModel, op: QueueOp, id: nat, generation: nat)
    requires QueueInv(q)
    ensures Flies(Apply(q, op), id, generation) <==>
            || (Flies(q, id, generation) && !Lands(q, op, id))
            || (op.DoMark? && op.id == id && id in q.requests && Starts(q, op, id) && generation == q.generation + 1)
  {
    if id in q.requests {
      RequestAfter(q, op, id);
    } else if op.DoEnqueue? {
      EnqueueAnswers(q, op.scope, op.key, op.at, op.requestedTtl);
    }
  }

  lemma {:induction false} FliesSince(run: Run<QueueModel, QueueOp>, k: nat, id: nat, generation: nat) returns (i: nat)
    requires IsRun(run) && k < |run.states| && Flies(run.states[k], id, generation)
    ensures InFlightSince(run, i, k, id, generation)
    decreases k
  {
    assert k > 0;
    assert StepAt(run, Next, k - 1);
    RunKeepsInv(run, k - 1);
    FliesAfter(run.states[k - 1], run.steps[k - 1], id, generation);
    if Flies(run.states[k - 1], id, generation) && !Lands(run.states[k - 1], run.steps[k - 1], id) {
      i := FliesSince(run, k - 1, id, generation);
    } else {
      i := k - 1;
    }
  }

  lemma {:induction false} StillFlies(run: Run<QueueModel, QueueOp>, i: nat, k: nat, id: nat, generation: nat)
    requires IsRun(run) && k < |run.states| && InFlightSince(run, i, k, id, generation)
    ensures Flies(run.states[k], id, generation)
    decreases k
  {
    assert StepAt(run, Next, k - 1);
    RunKeepsInv(run, k - 1);
    if i < k - 1 { StillFlies(run, i, k - 1, id, generation); }
    FliesAfter(run.states[k - 1], run.steps[k - 1], id, generation);
  }

  /**
   Over every run, completing a request grants it exactly when the generation presented is the
   one its own decrypt started under and nothing has ended that decrypt since.
   */
  lemma CompleteGrantsIff(run: Run<QueueModel, QueueOp>, k: nat)
    requires IsRun(run) && k < |run.steps| && run.steps[k].DoComplete?
    ensures var op := run.steps[k];
            Complete(run.states[k], op.id, op.generation, op.at).1 <==>
            exists i: nat :: InFlightSince(run, i, k, op.id, op.generation)
  {
    var op := run.steps[k];
    if Flies(run.states[k], op.id, op.generation) {
      var i := FliesSince(run, k, op.id, op.generation);
    }
    if i: nat :| InFlightSince(run, i, k, op.id, op.generation) {
      StillFlies(run, i, k, op.id, op.generation);
    }
  }
}
