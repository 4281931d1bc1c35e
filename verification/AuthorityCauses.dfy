/**
 What makes each piece of authority propagation change, and nothing else does: a
 forward's grants and the authority it observes, the lines a stream is sent, its
 closing, and the hub's table.
 */
module AuthorityCauses {
  import opened Base
  import opened Runs
  import opened Authority
  import opened AuthorityRuns

  // ---- A forward's grants ----

  /** The authority a step has this forward observe: the answer of its HELLO, or the next line of its stream. */
  function Observes(s: State, step: Step, pid: nat): Option<Pair>
    requires Enabled(s, step)
  {
    match step
    case ObserveHello(p) => if p == pid then Some(s.forwards[p].phase.identity) else None
    case ReadEvent(p) =>
      if p == pid then Some(s.streams[s.forwards[p].phase.stream].sent[s.forwards[p].phase.read]) else None
    case _ => None
  }

  /** The forward handles a lost or refused subscription, or a failure thirty seconds or more into an outage. */
  predicate GivesUp(s: State, step: Step, pid: nat)
    requires Enabled(s, step)
  {
    && step.HandleFailure? && step.pid == pid
    && var f := s.forwards[pid];
    || f.phase.failure.LostAfterAttach? || f.phase.failure.RefusedAtFirst?
    || (f.unhealthySince.Some? && f.unhealthySince.value + 30 * SECOND <= step.now)
  }

  lemma OthersUntouched(s: State, step: Step, pid: nat)
    requires Enabled(s, step) && pid in s.forwards
    requires (IsForwards(step) || step.Subscribe?) ==> step.pid != pid
    ensures pid in Effect(s, step).forwards && Effect(s, step).forwards[pid] == s.forwards[pid]
  {
  }

  lemma FailureAnswered(f: Forward, failure: Failure, now: nat)
    ensures var lapses := || failure.LostAfterAttach? || failure.RefusedAtFirst?
                          || (f.unhealthySince.Some? && f.unhealthySince.value + 30 * SECOND <= now);
            var after := Handle(f, failure, now);
            && after.observed == (if lapses then None else f.observed)
            && after.live == (if lapses then map[] else f.live)
            && after.unhealthySince == (if !failure.Unreachable? then None
                                        else if f.unhealthySince.Some? then f.unhealthySince else Some(now))
            && (after.inOutage <==> failure.Unreachable? && lapses)
  {
  }

  /** What a forward observes and holds after a step. */
  lemma ForwardAfter(s: State, step: Step, pid: nat, id: nat)
    requires Enabled(s, step) && pid in s.forwards
    ensures pid in Effect(s, step).forwards
    ensures var f, g := s.forwards[pid], Effect(s, step).forwards[pid];
            && (Observes(s, step, pid).Some? ==>
                  && g.observed == Observes(s, step, pid)
                  && g.live == (if f.observed.Some? && f.observed != g.observed then map[] else f.live))
            && (GivesUp(s, step, pid) ==> g.observed.None? && g.live == map[])
            && (Observes(s, step, pid).None? && !GivesUp(s, step, pid) ==>
                  && g.observed == f.observed
                  && (id in f.live && step != EndGrant(pid, id) ==> id in g.live && g.live[id] == f.live[id]))
            && (step == EndGrant(pid, id) ==> id !in g.live)
  {
    if (IsForwards(step) || step.Subscribe?) && step.pid == pid {
      if step.HandleFailure? { FailureAnswered(s.forwards[pid], s.forwards[pid].phase.failure, step.now); }
    } else {
      OthersUntouched(s, step, pid);
    }
  }

  /**
   A grant leaves a forward exactly when it is ended, when the forward gives up its
   authority, or when it observes an authority other than the one it observed before.
   */
  lemma GrantLeavesIff(run: Run<State, Step>, k: nat, pid: nat, id: nat)
    requires IsRun(run) && k < |run.steps| && pid in run.states[k].forwards
    requires id in run.states[k].forwards[pid].live
    ensures Enabled(run.states[k], run.steps[k]) && pid in run.states[k + 1].forwards
    ensures id !in run.states[k + 1].forwards[pid].live <==>
            || run.steps[k] == EndGrant(pid, id)
            || GivesUp(run.states[k], run.steps[k], pid)
            || (Observes(run.states[k], run.steps[k], pid).Some?
                && Observes(run.states[k], run.steps[k], pid) != run.states[k].forwards[pid].observed)
    ensures id in run.states[k + 1].forwards[pid].live ==>
              run.states[k + 1].forwards[pid].live[id] == run.states[k].forwards[pid].live[id]
  {
    assert StepAt(run, Next, k);
    RunKeepsInv(run, k);
    assert ForwardInv(pid, run.states[k].forwards[pid], run.states[k].streams);
    ForwardAfter(run.states[k], run.steps[k], pid, id);
  }

  /** Observing the same authority again, on a reconnect or an attach line, changes no grant. */
  lemma ReobservingKeepsGrants(run: Run<State, Step>, k: nat, pid: nat)
    requires IsRun(run) && k < |run.steps| && pid in run.states[k].forwards && Enabled(run.states[k], run.steps[k])
    requires run.states[k].forwards[pid].observed.Some?
    requires Observes(run.states[k], run.steps[k], pid) == run.states[k].forwards[pid].observed
    ensures pid in run.states[k + 1].forwards
    ensures run.states[k + 1].forwards[pid].live == run.states[k].forwards[pid].live
  {
    assert StepAt(run, Next, k);
    ForwardAfter(run.states[k], run.steps[k], pid, 0);
  }

  lemma InsertedAfter(s: State, step: Step, pid: nat, id: nat)
    requires Enabled(s, step) && pid in s.forwards && id !in s.forwards[pid].live
    ensures pid in Effect(s, step).forwards
    ensures id in Effect(s, step).forwards[pid].live <==>
            step.InsertGrant? && step.pid == pid && step.id == id && s.forwards[pid].observed == Some(step.authority)
    ensures id in Effect(s, step).forwards[pid].live ==>
              s.forwards[pid].observed == Some(Effect(s, step).forwards[pid].live[id])
  {
    if !((IsForwards(step) || step.Subscribe?) && step.pid == pid) { OthersUntouched(s, step, pid); }
  }

  /** A grant enters exactly when it is inserted under the authority then observed. */
  lemma GrantEntersIff(run: Run<State, Step>, k: nat, pid: nat, id: nat)
    requires IsRun(run) && k < |run.steps| && pid in run.states[k].forwards
    requires id !in run.states[k].forwards[pid].live
    ensures pid in run.states[k + 1].forwards
    ensures id in run.states[k + 1].forwards[pid].live <==>
            && run.steps[k].InsertGrant? && run.steps[k].pid == pid && run.steps[k].id == id
            && run.states[k].forwards[pid].observed == Some(run.steps[k].authority)
    ensures id in run.states[k + 1].forwards[pid].live ==>
              run.states[k].forwards[pid].observed == Some(run.states[k + 1].forwards[pid].live[id])
  {
    assert StepAt(run, Next, k);
    InsertedAfter(run.states[k], run.steps[k], pid, id);
  }

  lemma OutageAfter(s: State, step: Step, pid: nat)
    requires Enabled(s, step) && pid in s.forwards
    ensures pid in Effect(s, step).forwards
    ensures var f, g := s.forwards[pid], Effect(s, step).forwards[pid];
            g.unhealthySince ==
            if !(step.HandleFailure? && step.pid == pid) then f.unhealthySince
            else if !f.phase.failure.Unreachable? then None
            else if f.unhealthySince.Some? then f.unhealthySince else Some(step.now)
  {
    if (IsForwards(step) || step.Subscribe?) && step.pid == pid {
      if step.HandleFailure? { FailureAnswered(s.forwards[pid], s.forwards[pid].phase.failure, step.now); }
    } else {
      OthersUntouched(s, step, pid);
    }
  }

  /**
   What a forward observes, and since when it has been cut off: HELLO's answer and the
   stream's lines are observed as they are, giving up forgets, and the outage runs from
   its first failure to connect.
   */
  lemma ObservedAfter(run: Run<State, Step>, k: nat, pid: nat)
    requires IsRun(run) && k < |run.steps| && pid in run.states[k].forwards
    ensures Enabled(run.states[k], run.steps[k]) && pid in run.states[k + 1].forwards
    ensures var s, step, g := run.states[k], run.steps[k], run.states[k + 1].forwards[pid];
            && g.observed == (if Observes(s, step, pid).Some? then Observes(s, step, pid)
                              else if GivesUp(s, step, pid) then None else s.forwards[pid].observed)
            && g.unhealthySince == (if !(step.HandleFailure? && step.pid == pid) then s.forwards[pid].unhealthySince
                                    else if !s.forwards[pid].phase.failure.Unreachable? then None
                                    else if s.forwards[pid].unhealthySince.Some? then s.forwards[pid].unhealthySince
                                    else Some(step.now))
  {
    assert StepAt(run, Next, k);
    ForwardAfter(run.states[k], run.steps[k], pid, 0);
    OutageAfter(run.states[k], run.steps[k], pid);
  }

  // ---- The hub's table and its streams ----

  /** The step puts a line on this stream. */
  predicate WritesTo(s: State, step: Step, id: nat)
    requires Enabled(s, step)
  {
    match step
    case WriteNext(delivered) => delivered && s.subscribers[s.hub.done].stream == id
    case WriteAttach(delivered) => delivered && s.hub.newcomer.stream == id
    case _ => false
  }

  /** Entries that attaching this peer leaves: of other peers, and those still there. */
  ghost function Staying(s: State, newcomer: Subscriber, dead: set<nat>): set<Subscriber> {
    set sub | sub in s.subscribers && sub.pid !in dead && sub.pid != newcomer.pid
  }

  /** The step shuts this stream. */
  ghost predicate Shuts(s: State, step: Step, id: nat)
    requires Enabled(s, step)
  {
    match step
    case WriteNext(delivered) => !delivered && s.subscribers[s.hub.done].stream == id
    case WriteAttach(delivered) => !delivered && s.hub.newcomer.stream == id
    case BeginAttach(newcomer, dead) =>
      || (exists sub :: sub in s.subscribers && sub.stream == id && sub !in Staying(s, newcomer, dead))
      || (id == newcomer.stream && |Staying(s, newcomer, dead)| >= 8)
    case Restart => true
    case _ => false
  }

  lemma {:induction false} DistinctSize(subscribers: seq<Subscriber>)
    requires DistinctEntries(subscribers)
    ensures |set sub | sub in subscribers| == |subscribers|
  {
    if subscribers != [] {
      var rest, last := subscribers[..|subscribers| - 1], subscribers[|subscribers| - 1];
      assert subscribers == rest + [last];
      DistinctSize(rest);
      assert last !in rest;
      assert (set sub | sub in subscribers) == (set sub | sub in rest) + {last};
    } else {
      assert (set sub | sub in subscribers) == {};
    }
  }

  lemma StayingSize(s: State, newcomer: Subscriber, dead: set<nat>)
    requires DistinctEntries(s.subscribers)
    ensures |Staying(s, newcomer, dead)| == |Filter(s.subscribers, StaysAttached(newcomer.pid, dead))|
  {
    var kept := Filter(s.subscribers, StaysAttached(newcomer.pid, dead));
    FilterKeepsDistinct(s.subscribers, StaysAttached(newcomer.pid, dead));
    DistinctSize(kept);
    assert Staying(s, newcomer, dead) == (set sub | sub in kept);
  }

  lemma AttachShuts(s: State, newcomer: Subscriber, dead: set<nat>, id: nat)
    requires DistinctEntries(s.subscribers) && Enabled(s, BeginAttach(newcomer, dead)) && id in s.streams
    ensures var after := OnBeginAttach(s, newcomer, dead).streams;
            && id in after && after[id].owner == s.streams[id].owner && after[id].sent == s.streams[id].sent
            && (after[id].closed <==> s.streams[id].closed || Shuts(s, BeginAttach(newcomer, dead), id))
  {
    StayingSize(s, newcomer, dead);
  }

  lemma StreamAfter(s: State, step: Step, id: nat)
    requires Enabled(s, step) && DistinctEntries(s.subscribers) && id in s.streams
    ensures id in Effect(s, step).streams
    ensures var a, b := s.streams[id], Effect(s, step).streams[id];
            && b.owner == a.owner
            && b.sent == a.sent + (if WritesTo(s, step, id) then [s.hub.line.value] else [])
            && (b.closed <==> a.closed || Shuts(s, step, id))
  {
    if step.BeginAttach? { AttachShuts(s, step.newcomer, step.dead, id); }
  }

  /**
   A stream is sent a line exactly when it is the next entry of a publication or the peer
   being attached, and the write succeeds; it is shut exactly when that write fails, when
   its entry is dropped for a dead or reconnecting peer, when eight others leave no room
   for it, or when the broker goes.
   */
  lemma StreamChangesIff(run: Run<State, Step>, k: nat, id: nat)
    requires IsRun(run) && k < |run.steps| && id in run.states[k].streams
    ensures Enabled(run.states[k], run.steps[k]) && id in run.states[k + 1].streams
    ensures var a, b := run.states[k].streams[id], run.states[k + 1].streams[id];
            && b.owner == a.owner
            && (b.sent != a.sent <==> WritesTo(run.states[k], run.steps[k], id))
            && (WritesTo(run.states[k], run.steps[k], id) ==> b.sent == a.sent + [run.states[k].hub.line.value])
            && (!a.closed ==> (b.closed <==> Shuts(run.states[k], run.steps[k], id)))
            && (a.closed ==> b.closed)
  {
    assert StepAt(run, Next, k);
    RunKeepsInv(run, k);
    StreamAfter(run.states[k], run.steps[k], id);
    var a := run.states[k].streams[id].sent;
    assert WritesTo(run.states[k], run.steps[k], id) ==> |a + [run.states[k].hub.line.value]| == |a| + 1;
  }

  /** The hub holds its mutex, with this line in hand. */
  predicate Carries(s: State, line: Pair) { !s.hub.Free? && s.hub.line == Some(line) }

  lemma LineBefore(s: State, step: Step, line: Pair)
    requires Enabled(s, step) && Carries(Effect(s, step), line)
    ensures Carries(s, line) || ((step.ReadForPublish? || step.ReadForAttach?) && s.authority == line)
  {
  }

  /** A line that is written was the broker's authority when it was read, under the mutex held ever since. */
  lemma {:induction false} LineWasRead(run: Run<State, Step>, k: nat, line: Pair) returns (i: nat)
    requires IsRun(run) && k < |run.states| && Carries(run.states[k], line)
    ensures i < k && (run.steps[i].ReadForPublish? || run.steps[i].ReadForAttach?)
    ensures run.states[i].authority == line && forall n :: i < n <= k ==> Carries(run.states[n], line)
    decreases k
  {
    assert k > 0;
    assert StepAt(run, Next, k - 1);
    LineBefore(run.states[k - 1], run.steps[k - 1], line);
    if Carries(run.states[k - 1], line) {
      i := LineWasRead(run, k - 1, line);
    } else {
      i := k - 1;
    }
  }

  /** The step takes this entry out of the table. */
  ghost predicate Removes(s: State, step: Step, sub: Subscriber)
    requires Enabled(s, step)
  {
    match step
    case WriteNext(delivered) => !delivered && s.subscribers[s.hub.done] == sub
    case BeginAttach(newcomer, dead) => sub.pid in dead || sub.pid == newcomer.pid
    case Restart => true
    case _ => false
  }

  lemma TableAfter(s: State, step: Step, sub: Subscriber)
    requires Enabled(s, step) && DistinctEntries(s.subscribers)
    ensures sub in Effect(s, step).subscribers <==>
            || (sub in s.subscribers && !Removes(s, step, sub))
            || (step == WriteAttach(true) && sub == s.hub.newcomer)
  {
    if step == WriteNext(false) {
      WithoutAt(s.subscribers, s.hub.done);
      WithoutDrops(s.subscribers, s.hub.done);
      assert Effect(s, step).subscribers == Without(s.subscribers, s.hub.done);
    }
  }

  /** An entry is in the table exactly from its delivered attachment until its line fails, its peer dies or returns. */
  lemma TableChangesIff(run: Run<State, Step>, k: nat, sub: Subscriber)
    requires IsRun(run) && k < |run.steps|
    ensures Enabled(run.states[k], run.steps[k])
    ensures sub in run.states[k + 1].subscribers <==>
            || (sub in run.states[k].subscribers && !Removes(run.states[k], run.steps[k], sub))
            || (run.steps[k] == WriteAttach(true) && sub == run.states[k].hub.newcomer)
  {
    assert StepAt(run, Next, k);
    RunKeepsInv(run, k);
    TableAfter(run.states[k], run.steps[k], sub);
  }

  /** A lock is owed a publication exactly from the bump of the epoch until one made for it reads the authority. */
  lemma OwedAfter(run: Run<State, Step>, k: nat)
    requires IsRun(run) && k < |run.steps|
    ensures var s, step := run.states[k], run.steps[k];
            run.states[k + 1].pending ==
            if step.LockBump? then s.pending + 1
            else if step.Restart? then 0
            else if step.ReadForPublish? && s.hub.Publishing? && s.hub.forLock then s.pending - 1
            else s.pending
  {
    assert StepAt(run, Next, k);
  }

  /** An outage is noted exactly while a forward that cannot connect has given its authority up for it. */
  lemma OutageNotedIff(run: Run<State, Step>, k: nat, pid: nat)
    requires IsRun(run) && k < |run.steps| && pid in run.states[k].forwards
    ensures Enabled(run.states[k], run.steps[k]) && pid in run.states[k + 1].forwards
    ensures var s, step := run.states[k], run.steps[k];
            run.states[k + 1].forwards[pid].inOutage <==>
            if step.HandleFailure? && step.pid == pid
            then GivesUp(s, step, pid) && s.forwards[pid].phase.failure.Unreachable?
            else s.forwards[pid].inOutage
  {
    assert StepAt(run, Next, k);
    OutageFlagAfter(run.states[k], run.steps[k], pid);
  }

  lemma OutageFlagAfter(s: State, step: Step, pid: nat)
    requires Enabled(s, step) && pid in s.forwards
    ensures pid in Effect(s, step).forwards
    ensures Effect(s, step).forwards[pid].inOutage <==>
            if step.HandleFailure? && step.pid == pid
            then GivesUp(s, step, pid) && s.forwards[pid].phase.failure.Unreachable?
            else s.forwards[pid].inOutage
  {
    if (IsForwards(step) || step.Subscribe?) && step.pid == pid {
      if step.HandleFailure? { FailureAnswered(s.forwards[pid], s.forwards[pid].phase.failure, step.now); }
    } else {
      OthersUntouched(s, step, pid);
    }
  }

  // ---- No one is ever stuck ----

  /** The next action of whoever holds the hub's mutex. */
  function NextOfHub(s: State, delivered: bool): Step {
    match s.hub
    case Free => LockBump
    case Attaching(_, line) => if line.None? then ReadForAttach else WriteAttach(delivered)
    case Publishing(_, line, done) =>
      if line.None? then ReadForPublish else if done < |s.subscribers| then WriteNext(delivered) else EndPublish
  }

  /**
   The hub always finishes what it holds its mutex for, a lock that is owed a publication gets one as soon as
   the mutex is free, and a forward always goes on, by reading what it was sent or by failing.
   */
  lemma NeverStuck(run: Run<State, Step>, k: nat, pid: nat, stream: nat, now: nat, delivered: bool)
    requires IsRun(run) && k < |run.states|
    ensures var s := run.states[k];
            && Enabled(s, LockBump) && Enabled(s, NextOfHub(s, delivered))
            && (s.hub.Free? && s.pending > 0 ==> Enabled(s, BeginPublish(true)))
            && (pid in s.forwards ==>
                  match s.forwards[pid].phase
                  case Top => Enabled(s, Hello(pid)) && Enabled(s, Fails(pid, Unreachable))
                  case Greeted(_) => Enabled(s, ObserveHello(pid))
                  case Observed =>
                    && Enabled(s, Fails(pid, RefusedAtFirst))
                    && (stream !in s.streams ==> Enabled(s, Subscribe(pid, stream)))
                  case Reading(id, read) =>
                    && id in s.streams && Enabled(s, Fails(pid, LostAfterAttach))
                    && (Enabled(s, ReadEvent(pid)) <==> read < |s.streams[id].sent|)
                  case Failed(_) => Enabled(s, HandleFailure(pid, now)))
  {
    RunKeepsInv(run, k);
    var s := run.states[k];
    HubGoesOn(s, delivered);
    if pid in s.forwards { assert ForwardInv(pid, s.forwards[pid], s.streams); }
  }

  lemma HubGoesOn(s: State, delivered: bool)
    requires HubInv(s) && TableInv(s.subscribers, s.streams, s.authority)
    ensures Enabled(s, NextOfHub(s, delivered))
  {
    if s.hub.Publishing? && s.hub.done < |s.subscribers| {
      assert s.subscribers[s.hub.done] in s.subscribers;
      assert Attached(s.subscribers[s.hub.done], s.streams, s.authority);
    }
  }
}
