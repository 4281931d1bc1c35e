/**
 What the approval core keeps about its queue, its worker and the decrypts it
 has run, whoever acts between the worker's two critical sections.
 */
module BrokerQueue {
  import opened Base
  import opened Scopes
  import opened Requests
  import opened Broker

  // ---- Changes anyone but the worker makes ----

  /** In flight means decrypting, and decrypting means in flight. */
  ghost predicate OneInFlight(q: QueueModel) {
    && (forall id :: id in q.requests && q.requests[id].state.Decrypting? ==> q.inflight == Some(id))
    && (q.inflight.Some? ==> q.inflight.value in q.requests && q.requests[q.inflight.value].state.Decrypting?)
  }

  /** No decrypt starts or completes: requests are only added as Pending, ended, or dropped. */
  ghost predicate Quiet(q: QueueModel, q': QueueModel, now: nat) {
    && Evolves(q, q')
    && (forall id :: id in q'.requests && !q'.requests[id].state.Pending? && Active(q'.requests[id].state) ==>
                       id in q.requests && q.requests[id] == q'.requests[id])
    && (forall id :: id in q'.requests && q'.requests[id].state.Granted? ==>
                       id in q.requests && q.requests[id].state.Granted?)
    && (forall id :: id in q'.requests && q'.requests[id].state.Pending? && id in q.requests ==>
                       q.requests[id].state.Pending?)
    && (q'.lastFinished == q.lastFinished || q'.lastFinished == Some(now))
  }

  lemma EnqueueOnlyAdds(q: QueueModel, scope: Scope, key: string, now: nat, ttl: Option<nat>)
    requires WellKeyed(q) && OneInFlight(q)
    ensures var q' := Enqueue(q, scope, key, now, ttl).0;
            Quiet(q, q', now) && OneInFlight(q') && q'.lastFinished == q.lastFinished
  {
    var q' := Enqueue(q, scope, key, now, ttl).0;
    if q' != q {
      var r := Request(q.nextId, scope, key, Pending, 0, now, ttl);
      AddIsQuiet(q, r, now);
      assert q' == Added(q, r);
    }
  }

  lemma AddIsQuiet(q: QueueModel, r: Request, now: nat)
    requires WellKeyed(q) && OneInFlight(q) && r.id == q.nextId && r.state.Pending?
    ensures Quiet(q, Added(q, r), now) && OneInFlight(Added(q, r))
  {
  }

  lemma EnqueueIsQuiet(q: QueueModel, scope: Scope, key: string, now: nat, ttl: Option<nat>)
    requires QueueInv(q) && OneInFlight(q)
    ensures var q' := Enqueue(q, scope, key, now, ttl).0;
            Quiet(q, q', now) && QueueInv(q') && OneInFlight(q') && q'.lastFinished == q.lastFinished
  {
    EnqueueKeepsInv(q, scope, key, now, ttl);
    EnqueueOnlyAdds(q, scope, key, now, ttl);
  }

  lemma EndOnlyEnds(q: QueueModel, id: nat, ending: RequestState, now: nat)
    requires WellKeyed(q) && OneInFlight(q) && !Active(ending) && !ending.Granted?
    ensures var q' := End(q, id, ending, now).0;
            Quiet(q, q', now) && OneInFlight(q') && OnlyWinds(q, q') && WellKeyed(q')
  {
    EndWinds(q, id, ending, now);
  }

  lemma EndIsQuiet(q: QueueModel, id: nat, ending: RequestState, now: nat)
    requires QueueInv(q) && OneInFlight(q) && !Active(ending) && !ending.Granted?
    ensures var q' := End(q, id, ending, now).0;
            Quiet(q, q', now) && QueueInv(q') && OneInFlight(q')
  {
    EndOnlyEnds(q, id, ending, now);
    WindingKeepsInv(q, End(q, id, ending, now).0);
  }

  lemma SweepOnlyEnds(q: QueueModel, now: nat)
    requires WellKeyed(q) && OneInFlight(q)
    ensures var q' := SweepTimeouts(q, now);
            Quiet(q, q', now) && OneInFlight(q') && OnlyWinds(q, q') && WellKeyed(q')
  {
    SweepWinds(q, now);
  }

  lemma SweepIsQuiet(q: QueueModel, now: nat)
    requires QueueInv(q) && OneInFlight(q)
    ensures var q' := SweepTimeouts(q, now);
            Quiet(q, q', now) && QueueInv(q') && OneInFlight(q')
  {
    SweepOnlyEnds(q, now);
    WindingKeepsInv(q, SweepTimeouts(q, now));
  }

  lemma PruneIsQuiet(q: QueueModel, now: nat)
    requires QueueInv(q) && OneInFlight(q)
    ensures var q' := Prune(q, now);
            Quiet(q, q', now) && QueueInv(q') && OneInFlight(q') && q'.lastFinished == q.lastFinished
  {
    PruneWinds(q, now);
    WindingKeepsInv(q, Prune(q, now));
  }

  lemma QuietTransitive(a: QueueModel, b: QueueModel, c: QueueModel, now: nat)
    requires WellKeyed(a) && WellKeyed(b) && WellKeyed(c)
    requires Quiet(a, b, now) && Quiet(b, c, now)
    ensures Quiet(a, c, now)
  {
    EvolvesTransitive(a, b, c);
    forall id | id in c.requests && c.requests[id].state.Pending? && id in a.requests
      ensures a.requests[id].state.Pending?
    {
      assert id in b.requests;
    }
  }

  // ---- The invariant over queue, worker and decrypts ----

  /** Only the worker's own request can be decrypting, under the generation it was started with. */
  ghost predicate WorkerOwnsFlight(q: QueueModel, w: Worker) {
    forall id :: id in q.requests && q.requests[id].state.Decrypting? ==>
                   !w.Idle? && w.job.id == id && w.job.generation == q.requests[id].generation
  }

  ghost predicate JobMatches(q: QueueModel, w: Worker, lockEpoch: nat) {
    !w.Idle? ==>
      && w.job.id < q.nextId
      && w.job.lockEpoch <= lockEpoch
      && (w.job.id in q.requests ==>
            var r := q.requests[w.job.id];
            r.scope == w.job.scope && r.key == w.job.key && r.requestedTtl == w.job.requestedTtl && !r.state.Pending?)
  }

  ghost predicate LastReturned(w: Worker, decrypts: seq<Decrypt>) {
    w.Returned? ==> decrypts != []
                    && decrypts[|decrypts| - 1].job == w.job && decrypts[|decrypts| - 1].outcome == w.outcome
  }

  /** No request is decrypted twice. */
  ghost predicate Once(q: QueueModel, w: Worker, decrypts: seq<Decrypt>) {
    && (forall i, j :: 0 <= i < j < |decrypts| ==> decrypts[i].job.id != decrypts[j].job.id)
    && (forall i :: 0 <= i < |decrypts| ==>
                      decrypts[i].job.id < q.nextId
                      && (decrypts[i].job.id in q.requests ==> !q.requests[decrypts[i].job.id].state.Pending?))
    && (w.Running? ==> forall i :: 0 <= i < |decrypts| ==> decrypts[i].job.id != w.job.id)
  }

  ghost predicate EpochsPast(decrypts: seq<Decrypt>, lockEpoch: nat) {
    forall i :: 0 <= i < |decrypts| ==> decrypts[i].job.lockEpoch <= lockEpoch
  }

  /** A successful decrypt of this request, for this scope and key. */
  ghost predicate Proven(decrypts: seq<Decrypt>, id: nat, scope: Scope, key: string) {
    exists i :: 0 <= i < |decrypts| && decrypts[i].job.id == id && decrypts[i].job.scope == scope
                && decrypts[i].job.key == key && decrypts[i].outcome.Some?
  }

  ghost predicate GrantedWereProven(q: QueueModel, decrypts: seq<Decrypt>) {
    forall id :: id in q.requests && q.requests[id].state.Granted? ==>
                   Proven(decrypts, id, q.requests[id].scope, q.requests[id].key)
  }

  ghost predicate WorkInv(q: QueueModel, w: Worker, decrypts: seq<Decrypt>, lockEpoch: nat) {
    && QueueInv(q)
    && OneInFlight(q)
    && WorkerOwnsFlight(q, w)
    && JobMatches(q, w, lockEpoch)
    && LastReturned(w, decrypts)
    && Once(q, w, decrypts)
    && EpochsPast(decrypts, lockEpoch)
    && GrantedWereProven(q, decrypts)
  }

  lemma QuietKeepsWork(q: QueueModel, q': QueueModel, w: Worker, decrypts: seq<Decrypt>, lockEpoch: nat, now: nat)
    requires WorkInv(q, w, decrypts, lockEpoch)
    requires Quiet(q, q', now) && QueueInv(q') && OneInFlight(q')
    ensures WorkInv(q', w, decrypts, lockEpoch)
  {
    forall id | id in q'.requests && q'.requests[id].state.Granted?
      ensures Proven(decrypts, id, q'.requests[id].scope, q'.requests[id].key)
    {
      assert RequestEvolves(q.requests[id], q'.requests[id]);
    }
    if !w.Idle? && w.job.id in q'.requests {
      // An id below `nextId` that is still here was here before.
      assert w.job.id in q.requests;
    }
  }

  /** Starting the oldest pending request. */
  lemma MarkKeepsWork(q: QueueModel, decrypts: seq<Decrypt>, lockEpoch: nat, id: nat, now: nat)
    requires WorkInv(q, Idle, decrypts, lockEpoch)
    requires MarkDecrypting(q, id, now).1.Some?
    ensures id in q.requests
    ensures var (q', generation) := MarkDecrypting(q, id, now);
            var r := q.requests[id];
            var job := Job(id, r.scope, r.key, generation.value, lockEpoch, r.requestedTtl);
            WorkInv(q', Running(job, now), decrypts, lockEpoch) && q'.lastFinished == q.lastFinished
  {
    var q' := MarkDecrypting(q, id, now).0;
    MarkWinds(q, id, now);
    WindingKeepsInv(q, q');
  }

  lemma ProvenGrows(decrypts: seq<Decrypt>, more: seq<Decrypt>, id: nat, scope: Scope, key: string)
    requires Proven(decrypts, id, scope, key)
    ensures Proven(decrypts + more, id, scope, key)
  {
    var i :| 0 <= i < |decrypts| && decrypts[i].job.id == id && decrypts[i].job.scope == scope
             && decrypts[i].job.key == key && decrypts[i].outcome.Some?;
    assert (decrypts + more)[i] == decrypts[i];
  }

  lemma ReturnKeepsWork(q: QueueModel, w: Worker, decrypts: seq<Decrypt>, lockEpoch: nat, d: Decrypt)
    requires WorkInv(q, w, decrypts, lockEpoch) && w.Running? && d.job == w.job
    ensures WorkInv(q, Returned(w.job, d.outcome), decrypts + [d], lockEpoch)
  {
    forall id | id in q.requests && q.requests[id].state.Granted?
      ensures Proven(decrypts + [d], id, q.requests[id].scope, q.requests[id].key)
    {
      ProvenGrows(decrypts, [d], id, q.requests[id].scope, q.requests[id].key);
    }
  }

  /** Completing releases the hardware and, for a current job, grants exactly that job's request. */
  lemma CompleteKeepsWork(q: QueueModel, w: Worker, decrypts: seq<Decrypt>, lockEpoch: nat, now: nat)
    requires WorkInv(q, w, decrypts, lockEpoch) && w.Returned? && w.outcome.Some?
    ensures WorkInv(Complete(q, w.job.id, w.job.generation, now).0, Idle, decrypts, lockEpoch)
  {
    var id := w.job.id;
    var q' := Complete(q, id, w.job.generation, now).0;
    CompleteWinds(q, id, w.job.generation, now);
    WindingKeepsInv(q, q');
    forall k | k in q'.requests && q'.requests[k].state.Granted?
      ensures Proven(decrypts, k, q'.requests[k].scope, q'.requests[k].key)
    {
      if k == id && !q.requests[k].state.Granted? {
        assert decrypts[|decrypts| - 1].job == w.job;
      }
    }
  }

  lemma FailKeepsWork(q: QueueModel, w: Worker, decrypts: seq<Decrypt>, lockEpoch: nat, now: nat)
    requires WorkInv(q, w, decrypts, lockEpoch) && w.Returned?
    ensures WorkInv(Fail(q, w.job.id, now), Idle, decrypts, lockEpoch)
  {
    FailWinds(q, w.job.id, now);
    WindingKeepsInv(q, Fail(q, w.job.id, now));
  }

  // ---- One touch, one decrypt ----

  /**
   Every decrypt began at least a cooldown after each earlier one really ended.
   While the worker is idle the queue remembers a finish no earlier than that.
   */
  ghost predicate Spaced(lastFinished: Option<nat>, w: Worker, decrypts: seq<Decrypt>, clock: nat, cooldown: nat) {
    && (lastFinished.Some? ==> lastFinished.value <= clock)
    && (forall i :: 0 <= i < |decrypts| ==> decrypts[i].started <= decrypts[i].ended <= clock)
    && (forall i, j :: 0 <= i < j < |decrypts| ==> decrypts[i].ended + cooldown <= decrypts[j].started)
    && (w.Running? ==> w.started <= clock)
    && (w.Running? ==> forall i :: 0 <= i < |decrypts| ==> decrypts[i].ended + cooldown <= w.started)
    && (w.Idle? ==> forall i :: 0 <= i < |decrypts| ==> lastFinished.Some? && decrypts[i].ended <= lastFinished.value)
  }

  lemma FinishedLaterKeepsSpacing(lastFinished: Option<nat>, later: Option<nat>, w: Worker, decrypts: seq<Decrypt>,
                                  clock: nat, now: nat, cooldown: nat)
    requires Spaced(lastFinished, w, decrypts, clock, cooldown) && clock <= now
    requires later == lastFinished || later == Some(now)
    ensures Spaced(later, w, decrypts, now, cooldown)
  {
  }

  lemma StartKeepsSpacing(lastFinished: Option<nat>, job: Job, decrypts: seq<Decrypt>, limits: QueueLimits, now: nat)
    requires Spaced(lastFinished, Idle, decrypts, now, limits.cooldown)
    requires !CoolingDown(lastFinished, limits, now)
    ensures Spaced(lastFinished, Running(job, now), decrypts, now, limits.cooldown)
  {
  }
}
