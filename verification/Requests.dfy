/**
 The approval queue as a mathematical object: requests keyed by id, at most one
 hardware operation in flight, and a cooldown after each one.

 `Queue` in RequestQueue.dfy is the list-backed object the daemon runs; it is
 proved to refine the functions here. Everything the broker relies on is proved
 about these functions.
 */
module Requests {
  import opened Base
  import opened Keyed
  import opened Scopes

  datatype RequestState = Pending | Decrypting | Granted | Denied | TimedOut | Failed

  predicate Active(state: RequestState) { state.Pending? || state.Decrypting? }

  datatype Request = Request(
    id: nat,
    scope: Scope,
    key: string,
    state: RequestState,
    generation: nat,
    created: nat,
    requestedTtl: Option<nat>)

  datatype QueueLimits = QueueLimits(cooldown: nat, ttl: nat, maxPendingPerScope: nat)

  datatype QueueModel = QueueModel(
    requests: map<nat, Request>,
    limits: QueueLimits,
    nextId: nat,
    generation: nat,
    inflight: Option<nat>,
    lastFinished: Option<nat>)

  function Empty(limits: QueueLimits): QueueModel {
    QueueModel(map[], limits, 1, 0, None, None)
  }

  // ---- Operations ----

  /** An active request for exactly this scope and key. */
  predicate SameAsk(r: Request, scope: Scope, key: string) {
    r.scope == scope && r.key == key && Active(r.state)
  }

  /** A request that counts against the limit a new request of this kind meets. */
  predicate CountsAgainst(r: Request, scope: Scope, capability: bool) {
    r.scope == scope && (capability ==> IsCapability(r.key)) && Active(r.state)
  }

  /** The ids whose requests pass a test. */
  ghost function IdsWhere(requests: map<nat, Request>, wanted: Request -> bool): set<nat> {
    set id | id in requests && wanted(requests[id])
  }

  function AsksSame(scope: Scope, key: string): Request -> bool { r => SameAsk(r, scope, key) }

  function Counted(scope: Scope, capability: bool): Request -> bool { r => CountsAgainst(r, scope, capability) }

  function IsPending(): Request -> bool { (r: Request) => r.state.Pending? }

  ghost function SameAskIds(q: QueueModel, scope: Scope, key: string): set<nat> {
    IdsWhere(q.requests, AsksSame(scope, key))
  }

  ghost function CountedIds(q: QueueModel, scope: Scope, capability: bool): set<nat> {
    IdsWhere(q.requests, Counted(scope, capability))
  }

  function PendingLimit(limits: QueueLimits, capability: bool): nat {
    if capability then 1 else limits.maxPendingPerScope
  }

  /** Coalesce onto an identical active request, refuse, or add a new one. */
  ghost function Enqueue(q: QueueModel, scope: Scope, key: string, now: nat, requestedTtl: Option<nat>)
    : (QueueModel, Result<nat, ErrCode>)
  {
    var same := Least(SameAskIds(q, scope, key));
    if !IsCapability(key) && same.Some? then
      (q, Ok(same.value))
    else if |CountedIds(q, scope, IsCapability(key))| >= PendingLimit(q.limits, IsCapability(key)) then
      (q, Err(TooManyPending))
    else
      var r := Request(q.nextId, scope, key, Pending, 0, now, requestedTtl);
      (Added(q, r), Ok(q.nextId))
  }

  /** The touch cache may still be warm. A clock reading before the last finish does not block. */
  predicate CoolingDown(lastFinished: Option<nat>, limits: QueueLimits, now: nat) {
    lastFinished.Some? && lastFinished.value <= now && now - lastFinished.value < limits.cooldown
  }

  ghost function PendingIds(q: QueueModel): set<nat> {
    IdsWhere(q.requests, IsPending())
  }

  ghost function NextReady(q: QueueModel, now: nat): Option<nat> {
    if q.inflight.Some? || CoolingDown(q.lastFinished, q.limits, now) then None
    else Least(PendingIds(q))
  }

  function MarkDecrypting(q: QueueModel, id: nat, now: nat): (QueueModel, Option<nat>) {
    if q.inflight.Some? || CoolingDown(q.lastFinished, q.limits, now) then (q, None)
    else if id !in q.requests || !q.requests[id].state.Pending? then (q, None)
    else
      var generation := q.generation + 1;
      var r := q.requests[id].(state := Decrypting, generation := generation);
      (q.(requests := q.requests[id := r], generation := generation, inflight := Some(id)), Some(generation))
  }

  function Finish(q: QueueModel, id: nat, now: nat): QueueModel {
    q.(inflight := if q.inflight == Some(id) then None else q.inflight, lastFinished := Some(now))
  }

  predicate StillCurrent(q: QueueModel, id: nat, generation: nat) {
    id in q.requests && q.requests[id].generation == generation && q.requests[id].state.Decrypting?
  }

  function Complete(q: QueueModel, id: nat, generation: nat, now: nat): (QueueModel, bool) {
    if StillCurrent(q, id, generation) then
      (Finish(q.(requests := q.requests[id := q.requests[id].(state := Granted)]), id, now), true)
    else
      (Finish(q, id, now), false)
  }

  function Fail(q: QueueModel, id: nat, now: nat): QueueModel {
    if id in q.requests then
      Finish(q.(requests := q.requests[id := q.requests[id].(state := Failed)]), id, now)
    else
      Finish(q, id, now)
  }

  /** End an active request as `ending`, invalidating any decrypt already started for it. */
  function End(q: QueueModel, id: nat, ending: RequestState, now: nat): (QueueModel, bool) {
    if id in q.requests && Active(q.requests[id].state) then
      var r := q.requests[id].(state := ending, generation := q.requests[id].generation + 1);
      (Finish(q.(requests := q.requests[id := r]), id, now), true)
    else
      (q, false)
  }

  predicate Overdue(r: Request, limits: QueueLimits, now: nat) {
    Active(r.state) && r.created <= now && now - r.created > limits.ttl
  }

  function IsOverdue(limits: QueueLimits, now: nat): Request -> bool { r => Overdue(r, limits, now) }

  ghost function OverdueIds(q: QueueModel, now: nat): set<nat> {
    IdsWhere(q.requests, IsOverdue(q.limits, now))
  }

  function Swept(r: Request, limits: QueueLimits, now: nat): Request {
    if Overdue(r, limits, now) then r.(state := TimedOut, generation := r.generation + 1) else r
  }

  ghost function SweepTimeouts(q: QueueModel, now: nat): QueueModel {
    var expired := OverdueIds(q, now);
    q.(requests := map id | id in q.requests :: Swept(q.requests[id], q.limits, now),
    inflight := if q.inflight.Some? && q.inflight.value in expired then None else q.inflight,
    lastFinished := if expired == {} then q.lastFinished else Some(now))
  }

  predicate Retained(r: Request, limits: QueueLimits, now: nat) {
    Active(r.state) || (r.created <= now && now - r.created < limits.ttl * 2)
  }

  function Retains(limits: QueueLimits, now: nat): Request -> bool { r => Retained(r, limits, now) }

  ghost function Prune(q: QueueModel, now: nat): QueueModel {
    q.(requests := Restrict(q.requests, Retains(q.limits, now)))
  }

  // ---- What every operation keeps ----

  /** Keys are the stored ids, and every id was issued. */
  ghost predicate WellKeyed(q: QueueModel) {
    forall id :: id in q.requests ==> q.requests[id].id == id && id < q.nextId
  }

  ghost predicate OneActivePerAsk(q: QueueModel) {
    forall a, b :: a in q.requests && b in q.requests
                   && SameAsk(q.requests[a], q.requests[b].scope, q.requests[b].key)
                   && Active(q.requests[b].state) && !IsCapability(q.requests[b].key)
                   ==> a == b
  }

  ghost predicate OneActiveCapability(q: QueueModel) {
    forall a, b :: a in q.requests && b in q.requests
                   && CountsAgainst(q.requests[a], q.requests[b].scope, true)
                   && Active(q.requests[b].state) && IsCapability(q.requests[b].key)
                   ==> a == b
  }

  ghost function ActiveIds(q: QueueModel, scope: Scope): set<nat> { CountedIds(q, scope, false) }

  function IsActiveSecret(scope: Scope): Request -> bool {
    r => CountsAgainst(r, scope, false) && !IsCapability(r.key)
  }

  ghost function ActiveSecretIds(q: QueueModel, scope: Scope): set<nat> {
    IdsWhere(q.requests, IsActiveSecret(scope))
  }

  ghost predicate SecretsBounded(q: QueueModel) {
    forall scope :: |ActiveSecretIds(q, scope)| <= q.limits.maxPendingPerScope
  }

  ghost predicate QueueInv(q: QueueModel) {
    && WellKeyed(q)
    && OneActivePerAsk(q)
    && OneActiveCapability(q)
    && SecretsBounded(q)
  }

  /**
   How a queue may change in one operation: ids are never reissued, a request
   keeps what it asked for, and once it stops being active it is never active
   again and never becomes Granted.
   */
  ghost predicate Evolves(q: QueueModel, q': QueueModel) {
    && q'.limits == q.limits
    && q.nextId <= q'.nextId
    && (forall id :: id in q'.requests && id !in q.requests ==> q.nextId <= id < q'.nextId)
    && (forall id :: id in q'.requests && id in q.requests ==> RequestEvolves(q.requests[id], q'.requests[id]))
  }

  ghost predicate RequestEvolves(r: Request, r': Request) {
    && r'.id == r.id && r'.scope == r.scope && r'.key == r.key
    && r'.created == r.created && r'.requestedTtl == r.requestedTtl
    && (Active(r'.state) ==> Active(r.state))
    && (r'.state.Granted? ==> Active(r.state) || r.state.Granted?)
  }

  lemma EvolvesTransitive(a: QueueModel, b: QueueModel, c: QueueModel)
    requires WellKeyed(a) && WellKeyed(b) && WellKeyed(c)
    requires Evolves(a, b) && Evolves(b, c)
    ensures Evolves(a, c)
  {
    forall id | id in c.requests && id !in a.requests
      ensures a.nextId <= id < c.nextId
    {
      assert id in b.requests || b.nextId <= id;
    }
    forall id | id in c.requests && id in a.requests
      ensures RequestEvolves(a.requests[id], c.requests[id])
    {
      // An id issued before `a` cannot be new in `c`, so `b` still held it.
      assert id < b.nextId;
      assert id in b.requests;
    }
  }

  /** Anything but an enqueue: no request appears and none becomes active. */
  ghost predicate OnlyWinds(q: QueueModel, q': QueueModel) {
    && Evolves(q, q')
    && q'.nextId == q.nextId
    && q'.requests.Keys <= q.requests.Keys
  }

  lemma WindingKeepsInv(q: QueueModel, q': QueueModel)
    requires QueueInv(q) && WellKeyed(q') && OnlyWinds(q, q')
    ensures QueueInv(q')
  {
    forall a, b | a in q'.requests && b in q'.requests
                  && SameAsk(q'.requests[a], q'.requests[b].scope, q'.requests[b].key)
                  && Active(q'.requests[b].state) && !IsCapability(q'.requests[b].key)
      ensures a == b
    {
      assert RequestEvolves(q.requests[a], q'.requests[a]) && RequestEvolves(q.requests[b], q'.requests[b]);
      assert SameAsk(q.requests[a], q.requests[b].scope, q.requests[b].key);
    }
    forall a, b | a in q'.requests && b in q'.requests
                  && CountsAgainst(q'.requests[a], q'.requests[b].scope, true)
                  && Active(q'.requests[b].state) && IsCapability(q'.requests[b].key)
      ensures a == b
    {
      assert RequestEvolves(q.requests[a], q'.requests[a]) && RequestEvolves(q.requests[b], q'.requests[b]);
      assert CountsAgainst(q.requests[a], q.requests[b].scope, true);
    }
    forall scope
      ensures |ActiveSecretIds(q', scope)| <= q'.limits.maxPendingPerScope
    {
      assert ActiveSecretIds(q', scope) <= ActiveSecretIds(q, scope);
      SubsetCardinality(ActiveSecretIds(q', scope), ActiveSecretIds(q, scope));
    }
  }

  function Added(q: QueueModel, r: Request): QueueModel {
    q.(requests := q.requests[r.id := r], nextId := q.nextId + 1)
  }

  /** A new request breaks no uniqueness, given that no active one clashes with it. */
  lemma AddedStaysUnique(q: QueueModel, r: Request)
    requires WellKeyed(q) && r.id == q.nextId && r.state.Pending?
    requires OneActivePerAsk(q) && OneActiveCapability(q)
    requires !IsCapability(r.key) ==> SameAskIds(q, r.scope, r.key) == {}
    requires IsCapability(r.key) ==> CountedIds(q, r.scope, true) == {}
    ensures OneActivePerAsk(Added(q, r))
    ensures OneActiveCapability(Added(q, r))
  {
    assert !IsCapability(r.key) ==> forall a :: a in q.requests ==> a !in SameAskIds(q, r.scope, r.key);
    assert IsCapability(r.key) ==> forall a :: a in q.requests ==> a !in CountedIds(q, r.scope, true);
  }

  /** A new request stays inside the per-scope bound it was checked against. */
  lemma AddedStaysBounded(q: QueueModel, r: Request)
    requires WellKeyed(q) && r.id == q.nextId && r.state.Pending? && SecretsBounded(q)
    requires !IsCapability(r.key) ==> |CountedIds(q, r.scope, false)| < q.limits.maxPendingPerScope
    ensures SecretsBounded(Added(q, r))
  {
    forall other
      ensures |ActiveSecretIds(Added(q, r), other)| <= q.limits.maxPendingPerScope
    {
      AddedSecretIds(q, r, other);
      SubsetCardinality(ActiveSecretIds(q, other), CountedIds(q, other, false));
    }
  }

  lemma CountAdded(m: map<nat, Request>, r: Request, wanted: Request -> bool)
    requires r.id !in m
    ensures |IdsWhere(m[r.id := r], wanted)| == |IdsWhere(m, wanted)| + if wanted(r) then 1 else 0
  {
    assert IdsWhere(m[r.id := r], wanted) == IdsWhere(m, wanted) + if wanted(r) then {r.id} else {};
  }

  lemma AddedSecretIds(q: QueueModel, r: Request, scope: Scope)
    requires WellKeyed(q) && r.id == q.nextId && r.state.Pending?
    ensures ActiveSecretIds(q, scope) <= CountedIds(q, scope, false)
    ensures |ActiveSecretIds(Added(q, r), scope)| ==
            |ActiveSecretIds(q, scope)| + if r.scope == scope && !IsCapability(r.key) then 1 else 0
  {
    CountAdded(q.requests, r, IsActiveSecret(scope));
  }

  lemma EnqueueKeepsInv(q: QueueModel, scope: Scope, key: string, now: nat, ttl: Option<nat>)
    requires QueueInv(q)
    ensures QueueInv(Enqueue(q, scope, key, now, ttl).0)
    ensures Evolves(q, Enqueue(q, scope, key, now, ttl).0)
  {
    var q' := Enqueue(q, scope, key, now, ttl).0;
    if q' != q {
      var r := Request(q.nextId, scope, key, Pending, 0, now, ttl);
      assert q' == Added(q, r);
      AddedStaysUnique(q, r);
      AddedStaysBounded(q, r);
    }
  }

  /** Active requests of one scope: the secrets it may have pending, and one capability. */
  lemma ActiveBound(q: QueueModel, scope: Scope)
    requires QueueInv(q)
    ensures |ActiveIds(q, scope)| <= q.limits.maxPendingPerScope + 1
  {
    var caps := ActiveIds(q, scope) - ActiveSecretIds(q, scope);
    assert ActiveIds(q, scope) == ActiveSecretIds(q, scope) + caps;
    assert |caps| <= 1 by {
      if caps != {} {
        var a :| a in caps;
        forall b | b in caps
          ensures b == a
        {
          assert CountsAgainst(q.requests[a], q.requests[b].scope, true);
        }
        assert caps == {a};
      }
    }
    assert |ActiveIds(q, scope)| == |ActiveSecretIds(q, scope)| + |caps|;
  }

  lemma MarkWinds(q: QueueModel, id: nat, now: nat)
    requires WellKeyed(q)
    ensures OnlyWinds(q, MarkDecrypting(q, id, now).0) && WellKeyed(MarkDecrypting(q, id, now).0)
  {
  }

  lemma CompleteWinds(q: QueueModel, id: nat, generation: nat, now: nat)
    requires WellKeyed(q)
    ensures OnlyWinds(q, Complete(q, id, generation, now).0) && WellKeyed(Complete(q, id, generation, now).0)
  {
  }

  lemma FailWinds(q: QueueModel, id: nat, now: nat)
    requires WellKeyed(q)
    ensures OnlyWinds(q, Fail(q, id, now)) && WellKeyed(Fail(q, id, now))
  {
  }

  lemma EndWinds(q: QueueModel, id: nat, ending: RequestState, now: nat)
    requires WellKeyed(q) && !Active(ending) && !ending.Granted?
    ensures OnlyWinds(q, End(q, id, ending, now).0) && WellKeyed(End(q, id, ending, now).0)
  {
  }

  lemma SweepWinds(q: QueueModel, now: nat)
    requires WellKeyed(q)
    ensures OnlyWinds(q, SweepTimeouts(q, now)) && WellKeyed(SweepTimeouts(q, now))
  {
  }

  lemma PruneWinds(q: QueueModel, now: nat)
    requires WellKeyed(q)
    ensures OnlyWinds(q, Prune(q, now)) && WellKeyed(Prune(q, now))
  {
  }

  // ---- Every reachable queue ----

  datatype QueueOp =
    | DoEnqueue(scope: Scope, key: string, at: nat, requestedTtl: Option<nat>)
    | DoMark(id: nat, at: nat)
    | DoComplete(id: nat, generation: nat, at: nat)
    | DoFinish(id: nat, at: nat)
    | DoFail(id: nat, at: nat)
    | DoTimeout(id: nat, at: nat)
    | DoDeny(id: nat, at: nat)
    | DoSweep(at: nat)
    | DoPrune(at: nat)

  ghost function Apply(q: QueueModel, op: QueueOp): QueueModel {
    match op
    case DoEnqueue(scope, key, now, ttl) => Enqueue(q, scope, key, now, ttl).0
    case DoMark(id, now) => MarkDecrypting(q, id, now).0
    case DoComplete(id, generation, now) => Complete(q, id, generation, now).0
    case DoFinish(id, now) => Finish(q, id, now)
    case DoFail(id, now) => Fail(q, id, now)
    case DoTimeout(id, now) => End(q, id, TimedOut, now).0
    case DoDeny(id, now) => End(q, id, RequestState.Denied, now).0
    case DoSweep(now) => SweepTimeouts(q, now)
    case DoPrune(now) => Prune(q, now)
  }

  ghost function Run(q: QueueModel, ops: seq<QueueOp>): QueueModel {
    if ops == [] then q else Apply(Run(q, ops[..|ops| - 1]), ops[|ops| - 1])
  }

  lemma ApplyKeepsInv(q: QueueModel, op: QueueOp)
    requires QueueInv(q)
    ensures QueueInv(Apply(q, op)) && Evolves(q, Apply(q, op))
  {
    match op
    case DoEnqueue(scope, key, now, ttl) => EnqueueKeepsInv(q, scope, key, now, ttl);
    case DoMark(id, now) => MarkWinds(q, id, now); WindingKeepsInv(q, Apply(q, op));
    case DoComplete(id, generation, now) => CompleteWinds(q, id, generation, now); WindingKeepsInv(q, Apply(q, op));
    case DoFinish(id, now) => WindingKeepsInv(q, Apply(q, op));
    case DoFail(id, now) => FailWinds(q, id, now); WindingKeepsInv(q, Apply(q, op));
    case DoTimeout(id, now) => EndWinds(q, id, TimedOut, now); WindingKeepsInv(q, Apply(q, op));
    case DoDeny(id, now) => EndWinds(q, id, RequestState.Denied, now); WindingKeepsInv(q, Apply(q, op));
    case DoSweep(now) => SweepWinds(q, now); WindingKeepsInv(q, Apply(q, op));
    case DoPrune(now) => PruneWinds(q, now); WindingKeepsInv(q, Apply(q, op));
  }

  /**
   Every queue reachable by any operations in any order, at any times and with
   any arguments, keeps one active request per ask, one active capability per
   scope, and at most `maxPendingPerScope + 1` active requests per scope.
   */
  lemma {:induction false} ReachableQueue(limits: QueueLimits, ops: seq<QueueOp>)
    ensures QueueInv(Run(Empty(limits), ops))
    ensures forall scope :: |ActiveIds(Run(Empty(limits), ops), scope)| <= limits.maxPendingPerScope + 1
  {
    var q := Run(Empty(limits), ops);
    if ops == [] {
      assert forall scope :: ActiveSecretIds(q, scope) == {};
    } else {
      var before := Run(Empty(limits), ops[..|ops| - 1]);
      ReachableQueue(limits, ops[..|ops| - 1]);
      ApplyKeepsInv(before, ops[|ops| - 1]);
      LimitsFixed(limits, ops);
    }
    LimitsFixed(limits, ops);
    forall scope ensures |ActiveIds(q, scope)| <= limits.maxPendingPerScope + 1 {
      ActiveBound(q, scope);
    }
  }

  lemma {:induction false} LimitsFixed(limits: QueueLimits, ops: seq<QueueOp>)
    ensures Run(Empty(limits), ops).limits == limits
  {
    if ops != [] {
      LimitsFixed(limits, ops[..|ops| - 1]);
    }
  }

  /**
   Over any operations, a request that has stopped being active is never active
   again and never becomes Granted, and an id that has left the queue never
   returns.
   */
  lemma {:induction false} EndedStaysEnded(q: QueueModel, ops: seq<QueueOp>, id: nat)
    requires QueueInv(q) && id < q.nextId
    ensures QueueInv(Run(q, ops)) && Evolves(q, Run(q, ops))
    ensures id !in q.requests ==> id !in Run(q, ops).requests
    ensures id in q.requests && id in Run(q, ops).requests && !Active(q.requests[id].state) ==>
              !Active(Run(q, ops).requests[id].state)
              && (Run(q, ops).requests[id].state.Granted? ==> q.requests[id].state.Granted?)
  {
    if ops != [] {
      EndedStaysEnded(q, ops[..|ops| - 1], id);
      ApplyKeepsInv(Run(q, ops[..|ops| - 1]), ops[|ops| - 1]);
      EvolvesTransitive(q, Run(q, ops[..|ops| - 1]), Run(q, ops));
    }
  }

  /** The bound is met: a scope at its secret limit can still add one capability. */
  lemma BoundIsTight()
    ensures exists ops :: |ActiveIds(Run(Empty(QueueLimits(0, 0, 1)), ops), Session(0))| == 2
  {
    var q0 := Empty(QueueLimits(0, 0, 1));
    var ops := [DoEnqueue(Session(0), "K", 0, None), DoEnqueue(Session(0), "CAP_B", 0, None)];
    assert ops[..1] == [ops[0]] && ops[..1][..0] == [];
    assert Run(q0, []) == q0;
    assert SameAskIds(q0, Session(0), "K") == {} && CountedIds(q0, Session(0), false) == {};
    var q1 := Run(q0, [ops[0]]);
    assert q1 == Enqueue(q0, Session(0), "K", 0, None).0;
    assert !IsCapability("K") && IsCapability("CAP_B");
    assert CountedIds(q1, Session(0), true) == {};
    var q2 := Run(q0, ops);
    assert q2 == Enqueue(q1, Session(0), "CAP_B", 0, None).0;
    assert ActiveIds(q2, Session(0)) == {1, 2};
  }
}
