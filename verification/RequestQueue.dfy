/**
 The queue object the broker runs: a list of requests scanned from the front.
 Each method is proved to refine the id-keyed operation of the same name in
 `Requests`, so "first in the list" is the oldest id, a coalesced request is the
 only one that could match, and the scan that counts a scope's active requests
 counts ids.
 */
module RequestQueue {
  import opened Base
  import opened Keyed
  import opened Requests
  import opened Scopes

  ghost predicate IdsIncrease(s: seq<Request>) {
    forall i, j :: 0 <= i < j < |s| ==> s[i].id < s[j].id
  }

  function IdOf(): Request -> nat { (r: Request) => r.id }

  ghost function ById(s: seq<Request>): map<nat, Request> { Index(s, IdOf()) }

  lemma {:induction false} FilterKeepsOrder(s: seq<Request>, keep: Request -> bool)
    requires IdsIncrease(s)
    ensures IdsIncrease(Filter(s, keep))
  {
    if s != [] {
      var rest, last := s[..|s| - 1], s[|s| - 1];
      FilterKeepsOrder(rest, keep);
      forall i | 0 <= i < |Filter(rest, keep)| ensures Filter(rest, keep)[i].id < last.id {
        assert Filter(rest, keep)[i] in rest;
      }
    }
  }

  /** The number of list entries passing a test is the number of ids passing it. */
  lemma {:induction false} CountById(s: seq<Request>, wanted: Request -> bool)
    requires IdsIncrease(s)
    ensures |Filter(s, wanted)| == |IdsWhere(ById(s), wanted)|
  {
    if s == [] {
      assert IdsWhere(ById(s), wanted) == {};
    } else {
      var rest, last := s[..|s| - 1], s[|s| - 1];
      CountById(rest, wanted);
      LastIsNew(s, IdOf());
      CountAdded(ById(rest), last, wanted);
    }
  }

  /** Of a scan over an id-ordered list, the first hit is the least id. */
  lemma FirstIsLeast(s: seq<Request>, wanted: Request -> bool)
    requires IdsIncrease(s)
    ensures var k := FindFirst(s, wanted);
            Least(IdsWhere(ById(s), wanted)) == if k.Some? then Some(s[k.value].id) else None
  {
    var ids := IdsWhere(ById(s), wanted);
    var k := FindFirst(s, wanted);
    if k.Some? {
      At(s, IdOf(), k.value);
      forall id | id in ids ensures s[k.value].id <= id {
        var i := Position(s, IdOf(), id);
      }
      LeastIs(ids, s[k.value].id);
    } else if ids != {} {
      var id :| id in ids;
      var i := Position(s, IdOf(), id);
      assert false;
    }
  }

  /** The approval queue. */
  class Queue {
    var requests: seq<Request>
    const limits: QueueLimits
    var nextId: nat
    var generation: nat
    var inflight: Option<nat>
    var lastFinished: Option<nat>

    /** Requests stand in the order their ids were issued. */
    ghost predicate Valid()
      reads this
    {
      IdsIncrease(requests) && forall i :: 0 <= i < |requests| ==> requests[i].id < nextId
    }

    ghost function View(): (q: QueueModel)
      requires Valid()
      reads this
      ensures WellKeyed(q)
    {
      IndexValues(requests, IdOf());
      QueueModel(ById(requests), limits, nextId, generation, inflight, lastFinished)
    }

    constructor (limits: QueueLimits)
      ensures Valid() && View() == Requests.Empty(limits)
    {
      requests, this.limits, nextId, generation, inflight, lastFinished := [], limits, 1, 0, None, None;
    }

    method Enqueue(scope: Scope, key: string, now: nat, requestedTtl: Option<nat>)
      returns (result: Result<nat, ErrCode>)
      requires Valid()
      modifies this
      ensures Valid()
      ensures (View(), result) == Requests.Enqueue(old(View()), scope, key, now, requestedTtl)
    {
      var capability := IsCapability(key);
      if !capability {
        var existing := FindSame(scope, key);
        if existing.Some? {
          return Ok(existing.value);
        }
      }
      var active := CountActive(scope, capability);
      if active >= PendingLimit(limits, capability) {
        return Err(TooManyPending);
      }
      var r := Request(nextId, scope, key, Pending, 0, now, requestedTtl);
      result := Ok(nextId);
      Add(r);
    }

    method Add(r: Request)
      requires Valid() && r.id == nextId
      modifies this
      ensures Valid()
      ensures View() == Added(old(View()), r)
    {
      nextId := nextId + 1;
      requests := requests + [r];
      assert requests[..|requests| - 1] == old(requests);
    }

    /** The id of the request an identical ask coalesces onto. */
    method FindSame(scope: Scope, key: string) returns (id: Option<nat>)
      requires Valid()
      ensures id == Least(SameAskIds(View(), scope, key))
    {
      FirstIsLeast(requests, AsksSame(scope, key));
      var k := FindFirst(requests, AsksSame(scope, key));
      id := if k.Some? then Some(requests[k.value].id) else None;
    }

    method CountActive(scope: Scope, capability: bool) returns (active: nat)
      requires Valid()
      ensures active == |CountedIds(View(), scope, capability)|
    {
      CountById(requests, Counted(scope, capability));
      active := |Filter(requests, Counted(scope, capability))|;
    }

    /** The position of a request, by id. */
    method Locate(id: nat) returns (k: Option<nat>)
      requires Valid()
      ensures k.Some? <==> id in View().requests
      ensures k.Some? ==> k.value < |requests| && requests[k.value] == View().requests[id] && requests[k.value].id == id
    {
      Found(requests, IdOf(), id);
      k := FindFirst(requests, HasKey(IdOf(), id));
    }

    /** Change one request where it stands. */
    method Replace(k: nat, r: Request)
      requires Valid() && k < |requests| && requests[k].id == r.id
      modifies this`requests
      ensures Valid()
      ensures View() == old(View()).(requests := old(View()).requests[r.id := r])
    {
      Updated(requests, IdOf(), k, r);
      requests := requests[k := r];
    }

    method NextReady(now: nat) returns (id: Option<nat>)
      requires Valid()
      ensures id == Requests.NextReady(View(), now)
    {
      if inflight.Some? || CoolingDown(lastFinished, limits, now) {
        return None;
      }
      FirstIsLeast(requests, IsPending());
      var first := FindFirst(requests, IsPending());
      id := if first.Some? then Some(requests[first.value].id) else None;
    }

    method MarkDecrypting(id: nat, now: nat) returns (started: Option<nat>)
      requires Valid()
      modifies this
      ensures Valid()
      ensures (View(), started) == Requests.MarkDecrypting(old(View()), id, now)
    {
      if inflight.Some? || CoolingDown(lastFinished, limits, now) {
        return None;
      }
      var k := Locate(id);
      if k.None? || !requests[k.value].state.Pending? {
        return None;
      }
      generation := generation + 1;
      var r := requests[k.value].(state := Decrypting, generation := generation);
      Replace(k.value, r);
      inflight := Some(id);
      started := Some(generation);
    }

    method Finish(id: nat, now: nat)
      requires Valid()
      modifies this`inflight, this`lastFinished
      ensures Valid()
      ensures View() == Requests.Finish(old(View()), id, now)
    {
      if inflight == Some(id) {
        inflight := None;
      }
      lastFinished := Some(now);
    }

    method Complete(id: nat, generation: nat, now: nat) returns (current: bool)
      requires Valid()
      modifies this
      ensures Valid()
      ensures (View(), current) == Requests.Complete(old(View()), id, generation, now)
    {
      var k := Locate(id);
      current := k.Some? && requests[k.value].generation == generation && requests[k.value].state.Decrypting?;
      if current {
        var r := requests[k.value].(state := Granted);
        Replace(k.value, r);
      }
      Finish(id, now);
    }

    method Fail(id: nat, now: nat)
      requires Valid()
      modifies this
      ensures Valid()
      ensures View() == Requests.Fail(old(View()), id, now)
    {
      var k := Locate(id);
      if k.Some? {
        var r := requests[k.value].(state := Failed);
        Replace(k.value, r);
      }
      Finish(id, now);
    }

    method Timeout(id: nat, now: nat) returns (ended: bool)
      requires Valid()
      modifies this
      ensures Valid()
      ensures (View(), ended) == Requests.End(old(View()), id, TimedOut, now)
    {
      var k := Locate(id);
      if k.None? || !Active(requests[k.value].state) {
        return false;
      }
      var r := requests[k.value].(state := TimedOut, generation := requests[k.value].generation + 1);
      Replace(k.value, r);
      Finish(id, now);
      ended := true;
    }

    method Deny(id: nat, now: nat) returns (ended: bool)
      requires Valid()
      modifies this
      ensures Valid()
      ensures (View(), ended) == Requests.End(old(View()), id, RequestState.Denied, now)
    {
      var k := Locate(id);
      if k.None? || !Active(requests[k.value].state) {
        return false;
      }
      var r := requests[k.value].(state := RequestState.Denied, generation := requests[k.value].generation + 1);
      Replace(k.value, r);
      Finish(id, now);
      ended := true;
    }

    /** First half of the sweep: end each overdue request where it stands. */
    method TimeOutOverdue(now: nat) returns (expired: seq<nat>)
      modifies this`requests
      ensures |requests| == |old(requests)|
      ensures forall j :: 0 <= j < |requests| ==> requests[j] == Swept(old(requests)[j], limits, now)
      ensures forall id :: id in expired <==>
                           exists j :: 0 <= j < |requests| && old(requests)[j].id == id
                                       && Overdue(old(requests)[j], limits, now)
    {
      expired := [];
      for i := 0 to |requests|
        invariant |requests| == |old(requests)|
        invariant forall j :: 0 <= j < i ==> requests[j] == Swept(old(requests)[j], limits, now)
        invariant forall j :: i <= j < |requests| ==> requests[j] == old(requests)[j]
        invariant forall id :: id in expired <==>
                               exists j :: 0 <= j < i && old(requests)[j].id == id
                                           && Overdue(old(requests)[j], limits, now)
      {
        var r := requests[i];
        if Overdue(r, limits, now) {
          requests := requests[i := r.(state := TimedOut, generation := r.generation + 1)];
          expired := expired + [r.id];
        }
      }
    }

    method SweepTimeouts(now: nat) returns (expired: seq<nat>)
      requires Valid()
      modifies this
      ensures Valid()
      ensures View() == Requests.SweepTimeouts(old(View()), now)
      ensures (set id | id in expired) == OverdueIds(old(View()), now)
    {
      ghost var q := View();
      expired := TimeOutOverdue(now);
      SweptView(q, old(requests), requests, expired, now);
      FinishAll(expired, now);
    }

    /** Second half of the sweep: release the hardware for each expired request. */
    method FinishAll(expired: seq<nat>, now: nat)
      modifies this`inflight, this`lastFinished
      ensures inflight == if old(inflight).Some? && old(inflight).value in expired then None else old(inflight)
      ensures lastFinished == if expired == [] then old(lastFinished) else Some(now)
    {
      for k := 0 to |expired|
        invariant inflight == if old(inflight).Some? && old(inflight).value in expired[..k] then None else old(inflight)
        invariant lastFinished == if k == 0 then old(lastFinished) else Some(now)
      {
        assert expired[..k + 1] == expired[..k] + [expired[k]];
        if inflight == Some(expired[k]) {
          inflight := None;
        }
        lastFinished := Some(now);
      }
      assert expired[..|expired|] == expired;
    }

    method Prune(now: nat)
      requires Valid()
      modifies this`requests
      ensures Valid()
      ensures View() == Requests.Prune(old(View()), now)
    {
      Filtered(requests, IdOf(), Retains(limits, now));
      FilterKeepsOrder(requests, Retains(limits, now));
      requests := Filter(requests, Retains(limits, now));
      forall i | 0 <= i < |requests| ensures requests[i].id < nextId {
        assert requests[i] in old(requests);
      }
    }

    method StateOf(id: nat) returns (state: Option<RequestState>)
      requires Valid()
      ensures state == if id in View().requests then Some(View().requests[id].state) else None
    {
      var k := Locate(id);
      state := if k.Some? then Some(requests[k.value].state) else None;
    }

    method Describe(id: nat) returns (ask: Option<(Scope, string, Option<nat>)>)
      requires Valid()
      ensures ask.Some? <==> id in View().requests
      ensures ask.Some? ==>
              ask.value == (View().requests[id].scope, View().requests[id].key, View().requests[id].requestedTtl)
    {
      var k := Locate(id);
      ask := if k.Some? then
        Some((requests[k.value].scope, requests[k.value].key, requests[k.value].requestedTtl))
      else None;
    }

    method IsIdle() returns (idle: bool)
      requires Valid()
      ensures idle <==> forall id :: id in View().requests ==> !Active(View().requests[id].state)
    {
      var active := FindFirst(requests, (r: Request) => Active(r.state));
      idle := active.None?;
      if active.Some? {
        At(requests, IdOf(), active.value);
        assert !idle && Active(View().requests[requests[active.value].id].state);
      } else {
        forall id | id in View().requests ensures !Active(View().requests[id].state) {
          var i := Position(requests, IdOf(), id);
        }
      }
    }
  }

  lemma {:induction false} SweptById(s: seq<Request>, t: seq<Request>, limits: QueueLimits, now: nat)
    requires IdsIncrease(s) && |t| == |s|
    requires forall j :: 0 <= j < |s| ==> t[j] == Swept(s[j], limits, now)
    ensures IdsIncrease(t)
    ensures ById(t) == map id | id in ById(s) :: Swept(ById(s)[id], limits, now)
  {
    assert forall j :: 0 <= j < |s| ==> t[j].id == s[j].id;
    if s != [] {
      SweptById(s[..|s| - 1], t[..|t| - 1], limits, now);
    }
  }

  /** The two passes over the list, seen through ids, are one sweep. */
  lemma SweptView(q: QueueModel, s: seq<Request>, t: seq<Request>, expired: seq<nat>, now: nat)
    requires IdsIncrease(s) && q.requests == ById(s) && |t| == |s|
    requires forall j :: 0 <= j < |s| ==> t[j] == Swept(s[j], q.limits, now)
    requires forall id :: id in expired <==> exists j :: 0 <= j < |s| && s[j].id == id && Overdue(s[j], q.limits, now)
    ensures IdsIncrease(t)
    ensures (set id | id in expired) == OverdueIds(q, now)
    ensures Requests.SweepTimeouts(q, now) ==
            QueueModel(ById(t), q.limits, q.nextId, q.generation,
                       if q.inflight.Some? && q.inflight.value in expired then None else q.inflight,
                       if expired == [] then q.lastFinished else Some(now))
  {
    SweptById(s, t, q.limits, now);
    ExpiredAreOverdue(s, expired, q.limits, now);
    assert expired != [] ==> expired[0] in OverdueIds(q, now);
  }

  lemma ExpiredAreOverdue(s: seq<Request>, expired: seq<nat>, limits: QueueLimits, now: nat)
    requires IdsIncrease(s)
    requires forall id :: id in expired <==> exists j :: 0 <= j < |s| && s[j].id == id && Overdue(s[j], limits, now)
    ensures (set id | id in expired) == IdsWhere(ById(s), IsOverdue(limits, now))
  {
    forall id | id in expired ensures id in ById(s) && Overdue(ById(s)[id], limits, now) {
      var j :| 0 <= j < |s| && s[j].id == id && Overdue(s[j], limits, now);
      At(s, IdOf(), j);
    }
    forall id | id in ById(s) && Overdue(ById(s)[id], limits, now) ensures id in expired {
      var j := Position(s, IdOf(), id);
    }
  }
}
