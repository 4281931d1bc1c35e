/** Every step of authority propagation keeps its invariant, and what that means over whole runs. */
module AuthorityRuns {
  import opened Base
  import opened Runs
  import opened Authority

  // ---- Frames ----

  /** Streams are only ever appended to, closed or opened. */
  ghost predicate Extends(before: map<nat, Stream>, after: map<nat, Stream>) {
    forall id :: id in before ==>
                   id in after && after[id].owner == before[id].owner && before[id].sent <= after[id].sent
  }

  lemma ForwardsFrame(forwards: map<nat, Forward>, before: map<nat, Stream>, after: map<nat, Stream>)
    requires ForwardsInv(forwards, before) && Extends(before, after)
    ensures ForwardsInv(forwards, after)
  {
    forall pid | pid in forwards
      ensures ForwardInv(pid, forwards[pid], after)
    {
      assert ForwardInv(pid, forwards[pid], before);
    }
  }

  /** Only the stream written to changes, and it still rises when the line is no earlier than its last. */
  lemma SentRises(streams: map<nat, Stream>, id: nat, line: Pair)
    requires StreamsRise(streams) && id in streams
    requires streams[id].sent != [] ==> NotBefore(line, Last(streams, id))
    ensures StreamsRise(Sent(streams, id, line)) && Extends(streams, Sent(streams, id, line))
    ensures Last(Sent(streams, id, line), id) == line
  {
    var after := Sent(streams, id, line);
    var sent := after[id].sent;
    assert Rising(streams[id].sent);
    forall i, j | 0 <= i < j < |sent|
      ensures NotBefore(sent[j], sent[i])
    {
      if j == |sent| - 1 && i < j - 1 {
        assert NotBefore(sent[j - 1], sent[i]);
      }
    }
    forall other | other in after
      ensures Rising(after[other].sent)
    {
      assert other in streams && Rising(streams[other].sent);
    }
  }

  lemma CloseRises(streams: map<nat, Stream>, which: set<nat>)
    requires StreamsRise(streams)
    ensures StreamsRise(Close(streams, which)) && Extends(streams, Close(streams, which))
  {
    forall id | id in Close(streams, which)
      ensures Rising(Close(streams, which)[id].sent)
    {
      assert Rising(streams[id].sent);
    }
  }

  // ---- The hub's steps ----

  lemma BumpKeeps(s: State)
    requires Inv(s)
    ensures Inv(Effect(s, LockBump))
  {
  }

  lemma BeginPublishKeeps(s: State, forLock: bool)
    requires Inv(s) && Enabled(s, BeginPublish(forLock))
    ensures Inv(Effect(s, BeginPublish(forLock)))
  {
  }

  lemma ReadForPublishKeeps(s: State)
    requires Inv(s) && Enabled(s, ReadForPublish)
    ensures Inv(Effect(s, ReadForPublish))
  {
  }

  lemma EndPublishKeeps(s: State)
    requires Inv(s) && Enabled(s, EndPublish)
    ensures Inv(Effect(s, EndPublish))
  {
  }

  /** The dropped entries are exactly those whose streams are closed. */
  ghost predicate Drops(subscribers: seq<Subscriber>, kept: seq<Subscriber>, which: set<nat>) {
    && |kept| <= |subscribers| && DistinctEntries(kept)
    && (forall sub :: sub in kept ==> sub in subscribers && sub.stream !in which)
    && (forall sub :: sub in subscribers && sub !in kept ==> sub.stream in which)
  }

  /** Dropping entries and closing their streams disturbs no entry that stays. */
  lemma CloseFrame(subscribers: seq<Subscriber>, kept: seq<Subscriber>, streams: map<nat, Stream>, which: set<nat>,
                   authority: Pair)
    requires TableInv(subscribers, streams, authority) && Drops(subscribers, kept, which)
    ensures TableInv(kept, Close(streams, which), authority)
    ensures AllSent(subscribers, streams, authority) ==> AllSent(kept, Close(streams, which), authority)
  {
    forall sub | sub in kept
      ensures Attached(sub, Close(streams, which), authority)
      ensures SentLast(sub, streams, authority) ==> SentLast(sub, Close(streams, which), authority)
    {
      assert Attached(sub, streams, authority);
    }
  }

  lemma DropsAreClosed(subscribers: seq<Subscriber>, kept: seq<Subscriber>, streams: map<nat, Stream>, which: set<nat>)
    requires WrittenInv(subscribers, streams) && Drops(subscribers, kept, which)
    ensures WrittenInv(kept, Close(streams, which))
  {
    forall id | id in streams && streams[id].sent != [] && !streams[id].closed && id !in which
      ensures InTable(kept, id)
    {
      var sub :| sub in subscribers && sub.stream == id;
      assert sub in kept;
    }
  }

  /** Writing a current-enough line to entry `k` moves the written prefix on by one and disturbs no other entry. */
  lemma SentFrame(subscribers: seq<Subscriber>, k: nat, streams: map<nat, Stream>, line: Pair, authority: Pair)
    requires TableInv(subscribers, streams, authority) && LineInv(line, subscribers, streams, authority)
    requires k < |subscribers| && AllSent(subscribers[..k], streams, line)
    ensures subscribers[k].stream in streams && streams[subscribers[k].stream].sent != []
    ensures NotBefore(line, Last(streams, subscribers[k].stream))
    ensures TableInv(subscribers, Sent(streams, subscribers[k].stream, line), authority)
    ensures LineInv(line, subscribers, Sent(streams, subscribers[k].stream, line), authority)
    ensures AllSent(subscribers[..k + 1], Sent(streams, subscribers[k].stream, line), line)
  {
    assert subscribers[k] in subscribers && Attached(subscribers[k], streams, authority);
    var after := Sent(streams, subscribers[k].stream, line);
    forall sub | sub in subscribers
      ensures Attached(sub, after, authority) && Last(after, sub.stream).epoch <= line.epoch
    {
      assert Attached(sub, streams, authority);
    }
    forall sub | sub in subscribers[..k + 1]
      ensures SentLast(sub, after, line)
    {
      if sub != subscribers[k] {
        assert sub in subscribers[..k] && SentLast(sub, streams, line);
      }
    }
  }

  lemma DeliveredKeeps(s: State)
    requires Inv(s) && Enabled(s, WriteNext(true))
    ensures Inv(Effect(s, WriteNext(true)))
  {
    var k, line := s.hub.done, s.hub.line.value;
    var id := s.subscribers[k].stream;
    SentFrame(s.subscribers, k, s.streams, line, s.authority);
    SentRises(s.streams, id, line);
    assert s.subscribers[k] in s.subscribers && InTable(s.subscribers, id);
    ForwardsFrame(s.forwards, s.streams, Sent(s.streams, id, line));
  }

  function Without(subscribers: seq<Subscriber>, k: nat): seq<Subscriber>
    requires k < |subscribers|
  {
    subscribers[..k] + subscribers[k + 1..]
  }

  lemma WithoutAt(subscribers: seq<Subscriber>, k: nat)
    requires k < |subscribers|
    ensures |Without(subscribers, k)| == |subscribers| - 1 && Without(subscribers, k)[..k] == subscribers[..k]
    ensures forall i :: 0 <= i < |subscribers| - 1 ==>
                          Without(subscribers, k)[i] == subscribers[if i < k then i else i + 1]
  {
  }

  lemma WithoutDrops(subscribers: seq<Subscriber>, k: nat)
    requires DistinctEntries(subscribers) && k < |subscribers|
    ensures Drops(subscribers, Without(subscribers, k), {subscribers[k].stream})
  {
    var kept := Without(subscribers, k);
    WithoutAt(subscribers, k);
    forall i | 0 <= i < |subscribers| && i != k
      ensures subscribers[i] in kept
    {
      assert kept[if i < k then i else i - 1] == subscribers[i];
    }
  }

  lemma WithoutKeepsDistinct(subscribers: seq<Subscriber>, k: nat)
    requires DistinctEntries(subscribers) && k < |subscribers|
    ensures DistinctEntries(Without(subscribers, k))
    ensures forall sub :: sub in Without(subscribers, k) ==> sub in subscribers
    ensures Without(subscribers, k)[..k] == subscribers[..k]
    ensures Drops(subscribers, Without(subscribers, k), {subscribers[k].stream})
  {
    WithoutAt(subscribers, k);
    WithoutDrops(subscribers, k);
  }

  lemma LineFrame(subscribers: seq<Subscriber>, kept: seq<Subscriber>, streams: map<nat, Stream>, which: set<nat>,
                  line: Pair, authority: Pair)
    requires LineInv(line, subscribers, streams, authority)
    requires forall sub :: sub in kept ==> sub in subscribers
    ensures LineInv(line, kept, Close(streams, which), authority)
  {
  }

  lemma SentFrameClosed(subscribers: seq<Subscriber>, streams: map<nat, Stream>, which: set<nat>, line: Pair)
    requires AllSent(subscribers, streams, line)
    ensures AllSent(subscribers, Close(streams, which), line)
  {
    forall sub | sub in subscribers
      ensures SentLast(sub, Close(streams, which), line)
    {
      assert SentLast(sub, streams, line);
    }
  }

  lemma UndeliveredKeeps(s: State)
    requires Inv(s) && Enabled(s, WriteNext(false))
    ensures Inv(Effect(s, WriteNext(false)))
  {
    var k, line := s.hub.done, s.hub.line.value;
    var which := {s.subscribers[k].stream};
    var kept := Without(s.subscribers, k);
    WithoutKeepsDistinct(s.subscribers, k);
    CloseFrame(s.subscribers, kept, s.streams, which, s.authority);
    DropsAreClosed(s.subscribers, kept, s.streams, which);
    LineFrame(s.subscribers, kept, s.streams, which, line, s.authority);
    SentFrameClosed(s.subscribers[..k], s.streams, which, line);
    CloseRises(s.streams, which);
    ForwardsFrame(s.forwards, s.streams, Close(s.streams, which));
    assert Effect(s, WriteNext(false)) == s.(subscribers := kept, streams := Close(s.streams, which));
  }

  lemma ReadForAttachKeeps(s: State)
    requires Inv(s) && Enabled(s, ReadForAttach)
    ensures Inv(Effect(s, ReadForAttach))
  {
  }

  lemma AttachedInTable(subscribers: seq<Subscriber>, newcomer: Subscriber, streams: map<nat, Stream>, line: Pair)
    requires WrittenInv(subscribers, streams) && newcomer.stream in streams
    ensures WrittenInv(subscribers + [newcomer], Sent(streams, newcomer.stream, line))
  {
    var longer, after := subscribers + [newcomer], Sent(streams, newcomer.stream, line);
    assert newcomer in longer;
    forall id | id in after && after[id].sent != [] && !after[id].closed && id != newcomer.stream
      ensures InTable(longer, id)
    {
      var sub :| sub in subscribers && sub.stream == id;
      assert sub in longer;
    }
  }

  /** The newcomer's first line is the newest any entry has; where all are current, it is too. */
  lemma AttachFrame(subscribers: seq<Subscriber>, newcomer: Subscriber, streams: map<nat, Stream>, line: Pair,
                    authority: Pair)
    requires TableInv(subscribers, streams, authority) && |subscribers| < SUBSCRIBER_CAPACITY
    requires newcomer.stream in streams && streams[newcomer.stream].owner == newcomer.pid
    requires streams[newcomer.stream].sent == [] && !streams[newcomer.stream].closed
    requires forall sub :: sub in subscribers ==> sub.pid != newcomer.pid
    requires line.instance == authority.instance && line.epoch <= authority.epoch
    ensures TableInv(subscribers + [newcomer], Sent(streams, newcomer.stream, line), authority)
    ensures AllSent(subscribers, streams, line) ==>
            AllSent(subscribers + [newcomer], Sent(streams, newcomer.stream, line), line)
  {
    var after := Sent(streams, newcomer.stream, line);
    forall sub | sub in subscribers
      ensures sub.stream != newcomer.stream && Attached(sub, after, authority)
      ensures SentLast(sub, streams, line) ==> SentLast(sub, after, line)
    {
      assert Attached(sub, streams, authority);
    }
    assert Attached(newcomer, after, authority) && SentLast(newcomer, after, line);
  }

  lemma AttachedKeeps(s: State)
    requires Inv(s) && Enabled(s, WriteAttach(true))
    ensures Inv(Effect(s, WriteAttach(true)))
  {
    AttachedInTable(s.subscribers, s.hub.newcomer, s.streams, s.hub.line.value);
    AttachFrame(s.subscribers, s.hub.newcomer, s.streams, s.hub.line.value, s.authority);
    SentRises(s.streams, s.hub.newcomer.stream, s.hub.line.value);
    ForwardsFrame(s.forwards, s.streams, Sent(s.streams, s.hub.newcomer.stream, s.hub.line.value));
  }

  lemma AttachFailedKeeps(s: State)
    requires Inv(s) && Enabled(s, WriteAttach(false))
    ensures Inv(Effect(s, WriteAttach(false)))
  {
    CloseRises(s.streams, {s.hub.newcomer.stream});
    ForwardsFrame(s.forwards, s.streams, Close(s.streams, {s.hub.newcomer.stream}));
  }

  lemma {:induction false} FilterKeepsDistinct(subscribers: seq<Subscriber>, test: Subscriber -> bool)
    requires DistinctEntries(subscribers)
    ensures DistinctEntries(Filter(subscribers, test))
  {
    if subscribers != [] {
      var rest, last := subscribers[..|subscribers| - 1], subscribers[|subscribers| - 1];
      FilterKeepsDistinct(rest, test);
      forall i | 0 <= i < |Filter(rest, test)|
        ensures Filter(rest, test)[i].stream != last.stream && Filter(rest, test)[i].pid != last.pid
      {
        assert Filter(rest, test)[i] in rest;
      }
    }
  }

  lemma FilterDrops(s: State, newcomer: Subscriber, dead: set<nat>)
    requires Inv(s) && Enabled(s, BeginAttach(newcomer, dead))
    ensures var test := StaysAttached(newcomer.pid, dead);
            var kept := Filter(s.subscribers, test);
            var dropped := set sub | sub in s.subscribers && !test(sub) :: sub.stream;
            && Drops(s.subscribers, kept, dropped) && Drops(s.subscribers, kept, dropped + {newcomer.stream})
            && newcomer.stream !in dropped
  {
    var test := StaysAttached(newcomer.pid, dead);
    FilterKeepsDistinct(s.subscribers, test);
    forall sub, other | sub in s.subscribers && other in s.subscribers && sub.stream == other.stream
      ensures sub == other
    {
    }
    forall sub | sub in s.subscribers
      ensures sub.stream != newcomer.stream
    {
      assert Attached(sub, s.streams, s.authority);
    }
  }

  lemma BeginAttachKeeps(s: State, newcomer: Subscriber, dead: set<nat>)
    requires Inv(s) && Enabled(s, BeginAttach(newcomer, dead))
    ensures Inv(Effect(s, BeginAttach(newcomer, dead)))
  {
    var test := StaysAttached(newcomer.pid, dead);
    var kept := Filter(s.subscribers, test);
    var dropped := set sub | sub in s.subscribers && !test(sub) :: sub.stream;
    var which := if |kept| >= SUBSCRIBER_CAPACITY then dropped + {newcomer.stream} else dropped;
    var streams := Close(s.streams, which);
    FilterKeepsDistinct(s.subscribers, test);
    FilterDrops(s, newcomer, dead);
    CloseFrame(s.subscribers, kept, s.streams, which, s.authority);
    DropsAreClosed(s.subscribers, kept, s.streams, which);
    CloseRises(s.streams, which);
    ForwardsFrame(s.forwards, s.streams, streams);
    assert Effect(s, BeginAttach(newcomer, dead))
        == s.(subscribers := kept, streams := streams,
              hub := if |kept| >= SUBSCRIBER_CAPACITY then Free else Attaching(newcomer, None));
  }

  lemma RestartKeeps(s: State)
    requires Inv(s)
    ensures Inv(Effect(s, Restart))
  {
    CloseRises(s.streams, s.streams.Keys);
    ForwardsFrame(s.forwards, s.streams, Close(s.streams, s.streams.Keys));
  }

  // ---- The forwards' steps ----

  lemma OneForward(s: State, pid: nat, f: Forward)
    requires Inv(s) && ForwardInv(pid, f, s.streams)
    ensures Inv(With(s, pid, f))
  {
  }

  lemma StreamOpens(s: State, pid: nat, stream: nat)
    requires Inv(s) && Enabled(s, Subscribe(pid, stream))
    ensures Inv(s.(streams := s.streams[stream := Stream(pid, [], false)]))
  {
    var streams := s.streams[stream := Stream(pid, [], false)];
    assert forall id :: id in s.streams ==> streams[id] == s.streams[id];
    assert StreamsRise(streams) by {
      forall id | id in streams
        ensures Rising(streams[id].sent)
      {
        assert id != stream ==> Rising(s.streams[id].sent);
      }
    }
    ForwardsFrame(s.forwards, s.streams, streams);
  }

  lemma SubscribeKeeps(s: State, pid: nat, stream: nat)
    requires Inv(s) && Enabled(s, Subscribe(pid, stream))
    ensures Inv(Effect(s, Subscribe(pid, stream)))
  {
    StreamOpens(s, pid, stream);
    OneForward(s.(streams := s.streams[stream := Stream(pid, [], false)]), pid,
               s.forwards[pid].(phase := Reading(stream, 0)));
  }

  /** Steps of one forward that open no stream. */
  predicate IsForwards(step: Step) {
    || step.Launch? || step.Hello? || step.ObserveHello? || step.ReadEvent? || step.Fails? || step.HandleFailure?
    || step.InsertGrant? || step.EndGrant?
  }

  lemma ForwardStep(s: State, step: Step)
    requires Enabled(s, step) && IsForwards(step) && StreamsRise(s.streams)
    requires step.pid in s.forwards ==> ForwardInv(step.pid, s.forwards[step.pid], s.streams)
    ensures step.pid in Effect(s, step).forwards
    ensures var f := Effect(s, step).forwards[step.pid];
            ForwardInv(step.pid, f, s.streams) && Effect(s, step) == With(s, step.pid, f)
  {
  }

  lemma ForwardKeeps(s: State, step: Step)
    requires Inv(s) && Enabled(s, step) && IsForwards(step)
    ensures Inv(Effect(s, step))
  {
    ForwardStep(s, step);
    OneForward(s, step.pid, Effect(s, step).forwards[step.pid]);
  }

  lemma StepKeepsInv(s: State, step: Step)
    requires Inv(s) && Enabled(s, step)
    ensures Inv(Effect(s, step))
  {
    match step
    case LockBump => BumpKeeps(s);
    case BeginPublish(forLock) => BeginPublishKeeps(s, forLock);
    case ReadForPublish => ReadForPublishKeeps(s);
    case WriteNext(delivered) => if delivered { DeliveredKeeps(s); } else { UndeliveredKeeps(s); }
    case EndPublish => EndPublishKeeps(s);
    case BeginAttach(newcomer, dead) => BeginAttachKeeps(s, newcomer, dead);
    case ReadForAttach => ReadForAttachKeeps(s);
    case WriteAttach(delivered) => if delivered { AttachedKeeps(s); } else { AttachFailedKeeps(s); }
    case Restart => RestartKeeps(s);
    case Subscribe(pid, stream) => SubscribeKeeps(s, pid, stream);
    case _ => ForwardKeeps(s, step);
  }

  // ---- Runs ----

  ghost predicate Next(s: State, step: Step, s': State) { Enabled(s, step) && s' == Effect(s, step) }

  ghost predicate IsRun(run: Run<State, Step>) { IsRunOf(run, Initial, Next) }

  lemma RunKeepsInv(run: Run<State, Step>, k: nat)
    requires IsRun(run) && k < |run.states|
    ensures Inv(run.states[k])
  {
    forall s, step, s' | Inv(s) && Next(s, step, s')
      ensures Inv(s')
    {
      StepKeepsInv(s, step);
    }
    Throughout(run, Initial, Next, Inv, k);
  }

  /** The authorities any subscriber is ever sent on one stream never go back. */
  lemma EventsNeverGoBack(run: Run<State, Step>, k: nat, id: nat, i: nat, j: nat)
    requires IsRun(run) && k < |run.states|
    requires id in run.states[k].streams && i < j < |run.states[k].streams[id].sent|
    ensures NotBefore(run.states[k].streams[id].sent[j], run.states[k].streams[id].sent[i])
  {
    RunKeepsInv(run, k);
    assert Rising(run.states[k].streams[id].sent);
  }

  /**
   No missed lock. With the mutex free and every LOCK's publication made, each
   subscriber in the table was last sent the current authority; at most eight
   are there, one for each peer.
   */
  lemma NoMissedLock(run: Run<State, Step>, k: nat)
    requires IsRun(run) && k < |run.states|
    ensures |run.states[k].subscribers| <= SUBSCRIBER_CAPACITY && DistinctEntries(run.states[k].subscribers)
    ensures run.states[k].hub.Free? && run.states[k].pending == 0 ==>
              AllSent(run.states[k].subscribers, run.states[k].streams, run.states[k].authority)
  {
    RunKeepsInv(run, k);
  }

  /**
   So a forward that has read everything its stream was sent observes the
   current authority and holds only its grants, unless the stream has been
   closed or nothing has yet been sent on it.
   */
  lemma DrainedForward(run: Run<State, Step>, k: nat, pid: nat)
    requires IsRun(run) && k < |run.states|
    requires run.states[k].hub.Free? && run.states[k].pending == 0
    requires pid in run.states[k].forwards && run.states[k].forwards[pid].phase.Reading?
    ensures var s := run.states[k]; var f := s.forwards[pid];
            && f.phase.stream in s.streams
            && (f.phase.read == |s.streams[f.phase.stream].sent| ==>
                  || (f.observed == Some(s.authority) && forall id :: id in f.live ==> f.live[id] == s.authority)
                  || s.streams[f.phase.stream].closed
                  || s.streams[f.phase.stream].sent == [])
  {
    RunKeepsInv(run, k);
    var s := run.states[k];
    var f := s.forwards[pid];
    assert ForwardInv(pid, f, s.streams);
    if InTable(s.subscribers, f.phase.stream) {
      var sub :| sub in s.subscribers && sub.stream == f.phase.stream;
      assert SentLast(sub, s.streams, s.authority);
    }
  }

  // ---- A forward nothing has been sent to ----

  /** LOCK and a new broker process move the authority; nothing else does. */
  predicate MovesAuthority(step: Step) { step.LockBump? || step.Restart? }

  ghost predicate Later(a: Pair, b: Pair) { NotBefore(a, b) && a != b }

  lemma AuthorityStep(s: State, step: Step)
    requires Enabled(s, step)
    ensures if MovesAuthority(step) then Later(Effect(s, step).authority, s.authority)
            else Effect(s, step).authority == s.authority
  {
  }

  /** The authority is what it was exactly when no step between moved it. */
  lemma {:induction false} AuthorityStaysIff(run: Run<State, Step>, i: nat, k: nat)
    requires IsRun(run) && i <= k < |run.states|
    ensures NotBefore(run.states[k].authority, run.states[i].authority)
    ensures run.states[k].authority == run.states[i].authority <==>
            forall n :: i <= n < k ==> !MovesAuthority(run.steps[n])
    decreases k
  {
    if i < k {
      AuthorityStaysIff(run, i, k - 1);
      assert StepAt(run, Next, k - 1);
      AuthorityStep(run.states[k - 1], run.steps[k - 1]);
    }
  }

  /** Between a HELLO that answered `a` and the first event: `a` is all the forward has to go by. */
  predicate GoesBy(f: Forward, a: Pair) {
    match f.phase
    case Greeted(identity) => identity == a
    case Observed => f.observed == Some(a)
    case Reading(_, read) => read == 0 && f.observed == Some(a)
    case _ => false
  }

  lemma GoesByBefore(s: State, step: Step, pid: nat, a: Pair)
    requires Enabled(s, step) && pid in Effect(s, step).forwards && GoesBy(Effect(s, step).forwards[pid], a)
    ensures pid in s.forwards && (GoesBy(s.forwards[pid], a) || (step == Hello(pid) && s.authority == a))
  {
  }

  /** It went by that answer at every state since the HELLO. */
  ghost predicate GoneByHello(run: Run<State, Step>, i: nat, k: nat, pid: nat)
    requires k < |run.states| == |run.steps| + 1
  {
    && i < k && run.steps[i] == Hello(pid)
    && forall n :: i < n <= k ==>
                     pid in run.states[n].forwards && GoesBy(run.states[n].forwards[pid], run.states[i].authority)
  }

  lemma {:induction false} HelloOf(run: Run<State, Step>, k: nat, pid: nat, a: Pair) returns (i: nat)
    requires IsRun(run) && k < |run.states| && pid in run.states[k].forwards && GoesBy(run.states[k].forwards[pid], a)
    ensures GoneByHello(run, i, k, pid) && run.states[i].authority == a
    decreases k
  {
    assert k > 0;
    assert StepAt(run, Next, k - 1);
    GoesByBefore(run.states[k - 1], run.steps[k - 1], pid, a);
    if pid in run.states[k - 1].forwards && GoesBy(run.states[k - 1].forwards[pid], a) {
      i := HelloOf(run, k - 1, pid, a);
    } else {
      i := k - 1;
    }
  }

  lemma ReadingHasObserved(s: State, step: Step, pid: nat)
    requires Enabled(s, step) && pid in Effect(s, step).forwards
    requires pid in s.forwards ==> WaitingHasObserved(s.forwards[pid])
    ensures WaitingHasObserved(Effect(s, step).forwards[pid])
  {
  }

  predicate WaitingHasObserved(f: Forward) { f.phase.Observed? || f.phase.Reading? ==> f.observed.Some? }

  lemma {:induction false} AlwaysHasObserved(run: Run<State, Step>, k: nat, pid: nat)
    requires IsRun(run) && k < |run.states| && pid in run.states[k].forwards
    ensures WaitingHasObserved(run.states[k].forwards[pid])
    decreases k
  {
    if k > 0 {
      assert StepAt(run, Next, k - 1);
      if pid in run.states[k - 1].forwards { AlwaysHasObserved(run, k - 1, pid); }
      ReadingHasObserved(run.states[k - 1], run.steps[k - 1], pid);
    }
  }

  /**
   The exact condition for a forward that has subscribed and read nothing: what
   it observes is the answer of its last HELLO, and that is the current
   authority if and only if no LOCK and no new broker came since.
   */
  lemma UnsentForwardIsCurrentIff(run: Run<State, Step>, k: nat, pid: nat) returns (i: nat)
    requires IsRun(run) && k < |run.states| && pid in run.states[k].forwards
    requires run.states[k].forwards[pid].phase.Reading? && run.states[k].forwards[pid].phase.read == 0
    ensures GoneByHello(run, i, k, pid)
    ensures run.states[k].forwards[pid].observed == Some(run.states[k].authority) <==>
            forall n :: i <= n < k ==> !MovesAuthority(run.steps[n])
  {
    AlwaysHasObserved(run, k, pid);
    i := HelloOf(run, k, pid, run.states[k].forwards[pid].observed.value);
    AuthorityStaysIff(run, i, k);
  }

  // ---- A closed stream ends in revocation ----

  lemma ClosedStays(s: State, step: Step, id: nat)
    requires Inv(s) && Enabled(s, step) && id in s.streams && s.streams[id].closed
    ensures id in Effect(s, step).streams && Effect(s, step).streams[id] == s.streams[id]
  {
    if step.WriteNext? {
      var sub := s.subscribers[s.hub.done];
      assert sub in s.subscribers && Attached(sub, s.streams, s.authority);
    }
  }

  lemma {:induction false} ClosedIsFinal(run: Run<State, Step>, i: nat, j: nat, id: nat)
    requires IsRun(run) && i <= j < |run.states| && id in run.states[i].streams && run.states[i].streams[id].closed
    ensures id in run.states[j].streams && run.states[j].streams[id] == run.states[i].streams[id]
    decreases j
  {
    if i < j {
      ClosedIsFinal(run, i, j - 1, id);
      RunKeepsInv(run, j - 1);
      assert StepAt(run, Next, j - 1);
      ClosedStays(run.states[j - 1], run.steps[j - 1], id);
    }
  }

  /** The forward is back at the top of its loop with no authority and no grants. */
  predicate LetGo(run: Run<State, Step>, n: nat, pid: nat) {
    && n < |run.states| && pid in run.states[n].forwards
    && run.states[n].forwards[pid].phase.Top?
    && run.states[n].forwards[pid].observed.None? && run.states[n].forwards[pid].live == map[]
  }

  /**
   Where a forward can be after reading a closed stream to its end: still there,
   failed, or through the revocation.
   */
  ghost predicate OnTheWayOut(run: Run<State, Step>, i: nat, j: nat, pid: nat, reading: Phase) {
    && j < |run.states| && pid in run.states[j].forwards
    && (|| run.states[j].forwards[pid].phase == reading
        || run.states[j].forwards[pid].phase == Failed(LostAfterAttach)
        || exists n :: i < n <= j && LetGo(run, n, pid))
  }

  lemma PhaseAfter(s: State, step: Step, pid: nat)
    requires Enabled(s, step) && pid in s.forwards && s.forwards[pid].phase.Reading?
    requires s.forwards[pid].phase.stream in s.streams
    requires s.forwards[pid].phase.read >= |s.streams[s.forwards[pid].phase.stream].sent|
    ensures pid in Effect(s, step).forwards
    ensures Effect(s, step).forwards[pid].phase == s.forwards[pid].phase
            || Effect(s, step).forwards[pid].phase == Failed(LostAfterAttach)
  {
  }

  lemma PhaseAfterFailure(s: State, step: Step, pid: nat)
    requires Enabled(s, step) && pid in s.forwards && s.forwards[pid].phase == Failed(LostAfterAttach)
    ensures pid in Effect(s, step).forwards
    ensures var f := Effect(s, step).forwards[pid];
            f.phase == Failed(LostAfterAttach) || (f.phase.Top? && f.observed.None? && f.live == map[])
  {
  }

  /**
   A forward that has read a closed stream to its end can do nothing with it but
   fail, and answers that by revoking everything: it never acts again before it
   has held no authority and no grants.
   */
  lemma {:induction false} DroppedForwardLetsGo(run: Run<State, Step>, i: nat, j: nat, pid: nat)
    requires IsRun(run) && i <= j < |run.states|
    requires pid in run.states[i].forwards && run.states[i].forwards[pid].phase.Reading?
    requires var f := run.states[i].forwards[pid];
             && f.phase.stream in run.states[i].streams && run.states[i].streams[f.phase.stream].closed
             && f.phase.read == |run.states[i].streams[f.phase.stream].sent|
    ensures OnTheWayOut(run, i, j, pid, run.states[i].forwards[pid].phase)
    decreases j
  {
    var reading := run.states[i].forwards[pid].phase;
    if i < j {
      DroppedForwardLetsGo(run, i, j - 1, pid);
      ClosedIsFinal(run, i, j - 1, reading.stream);
      assert StepAt(run, Next, j - 1);
      var s, step := run.states[j - 1], run.steps[j - 1];
      if n :| i < n <= j - 1 && LetGo(run, n, pid) {
        ForwardsStay(s, step, pid);
      } else if s.forwards[pid].phase == reading {
        PhaseAfter(s, step, pid);
      } else {
        PhaseAfterFailure(s, step, pid);
        assert run.states[j].forwards[pid].phase.Top? ==> LetGo(run, j, pid);
      }
    }
  }

  lemma ForwardsStay(s: State, step: Step, pid: nat)
    requires Enabled(s, step) && pid in s.forwards
    ensures pid in Effect(s, step).forwards
  {
  }

  /** A forward whose stream broke holds nothing once it has handled that; nor does one in an outage. */
  lemma BrokenForwardHoldsNothing(run: Run<State, Step>, k: nat, pid: nat)
    requires IsRun(run) && k < |run.states|
    requires pid in run.states[k].forwards && run.states[k].forwards[pid].phase.Top?
    requires run.states[k].forwards[pid].unhealthySince.None? || run.states[k].forwards[pid].inOutage
    ensures run.states[k].forwards[pid].observed.None? && run.states[k].forwards[pid].live == map[]
  {
    RunKeepsInv(run, k);
    var f := run.states[k].forwards[pid];
    assert ForwardInv(pid, f, run.states[k].streams);
    assert forall id :: id !in f.live;
  }

  // ---- How long grants outlive a broker that cannot be reached ----

  /** Step `n` handles a failure of this forward. */
  predicate Handles(run: Run<State, Step>, n: nat, pid: nat) {
    n < |run.steps| && n < |run.states| && run.steps[n].HandleFailure? && run.steps[n].pid == pid
    && pid in run.states[n].forwards && run.states[n].forwards[pid].phase.Failed?
  }

  predicate HandlesUnreachable(run: Run<State, Step>, n: nat, pid: nat) {
    Handles(run, n, pid) && run.states[n].forwards[pid].phase.failure.Unreachable?
  }

  /** Since step `m`, every failure of this forward before state `k` was the broker being unreachable. */
  ghost predicate Streak(run: Run<State, Step>, m: nat, k: nat, pid: nat) {
    && HandlesUnreachable(run, m, pid)
    && forall n :: m <= n < k && Handles(run, n, pid) ==> HandlesUnreachable(run, n, pid)
  }

  lemma SinceAfter(s: State, step: Step, pid: nat)
    requires Enabled(s, step) && pid in Effect(s, step).forwards && Effect(s, step).forwards[pid].unhealthySince.Some?
    ensures pid in s.forwards
    ensures var since := Effect(s, step).forwards[pid].unhealthySince;
            if step.HandleFailure? && step.pid == pid then
              s.forwards[pid].phase == Failed(Unreachable)
              && since.value == UnhealthySince(s.forwards[pid].unhealthySince, step.now)
            else s.forwards[pid].unhealthySince == since
  {
  }

  /** The clock of a reconnect budget was started by the first failure of the present streak. */
  lemma {:induction false} StreakStart(run: Run<State, Step>, k: nat, pid: nat) returns (m: nat)
    requires IsRun(run) && k < |run.states|
    requires pid in run.states[k].forwards && run.states[k].forwards[pid].unhealthySince.Some?
    ensures m < k && Streak(run, m, k, pid) && run.steps[m].now == run.states[k].forwards[pid].unhealthySince.value
    decreases k
  {
    if k > 0 {
      assert StepAt(run, Next, k - 1);
      var s, step := run.states[k - 1], run.steps[k - 1];
      SinceAfter(s, step, pid);
      if s.forwards[pid].unhealthySince.Some? {
        m := StreakStart(run, k - 1, pid);
      } else {
        m := k - 1;
      }
    }
  }

  /**
   Grants survive a handled failure only as one of an unbroken streak of connect
   failures begun less than 30 s before.
   */
  lemma GraceIsBounded(run: Run<State, Step>, k: nat, pid: nat) returns (m: nat)
    requires IsRun(run) && k < |run.steps| && Handles(run, k, pid)
    requires pid in run.states[k + 1].forwards && run.states[k + 1].forwards[pid].live != map[]
    ensures m <= k && Streak(run, m, k + 1, pid)
    ensures Elapsed(run.steps[m].now, run.steps[k].now) < MAX_UNHEALTHY
  {
    assert StepAt(run, Next, k);
    m := StreakStart(run, k + 1, pid);
  }

  /** In every state of every run, a grant was inserted under exactly the observed authority. */
  lemma GrantsMatchObserved(run: Run<State, Step>, k: nat, pid: nat, id: nat)
    requires IsRun(run) && k < |run.states|
    requires pid in run.states[k].forwards && id in run.states[k].forwards[pid].live
    ensures run.states[k].forwards[pid].observed == Some(run.states[k].forwards[pid].live[id])
  {
    RunKeepsInv(run, k);
    assert ForwardInv(pid, run.states[k].forwards[pid], run.states[k].streams);
  }

  // ---- Before anything is sent ----

  function Peer(observed: Option<Pair>, live: map<nat, Pair>, phase: Phase): map<nat, Forward> {
    map[1 := Forward(observed, live, phase, None, false)]
  }

  lemma HelloObserved() returns (run: Run<State, Step>)
    ensures IsRun(run) && EndOf(run) == Unwatched(Peer(Some(Pair(0, 0)), map[], Observed))
  {
    run := Run([Unwatched(map[])], []);
    run := Then(run, Initial, Next, Launch(1), Unwatched(Peer(None, map[], Top)));
    run := Then(run, Initial, Next, Hello(1), Unwatched(Peer(None, map[], Greeted(Pair(0, 0)))));
    run := Then(run, Initial, Next, ObserveHello(1), Unwatched(Peer(Some(Pair(0, 0)), map[], Observed)));
  }

  /** A broker nobody subscribes to. */
  function Unwatched(forwards: map<nat, Forward>): State { State(Pair(0, 0), 0, Free, [], map[], forwards) }

  /** A forward that has said hello takes a grant. */
  lemma GrantTaken() returns (run: Run<State, Step>)
    ensures IsRun(run)
    ensures EndOf(run) == Unwatched(Peer(Some(Pair(0, 0)), map[5 := Pair(0, 0)], Observed))
  {
    run := HelloObserved();
    run := Then(run, Initial, Next, InsertGrant(1, Pair(0, 0), 5),
                Unwatched(Peer(Some(Pair(0, 0)), map[5 := Pair(0, 0)], Observed)));
  }

  /** It opens a stream the hub has not reached. */
  lemma SubscribedNotAttached() returns (run: Run<State, Step>)
    ensures IsRun(run)
    ensures EndOf(run) == Unwatched(Peer(Some(Pair(0, 0)), map[5 := Pair(0, 0)], Reading(7, 0)))
                          .(streams := map[7 := Stream(1, [], false)])
  {
    run := GrantTaken();
    run := Then(run, Initial, Next, Subscribe(1, 7),
                Unwatched(Peer(Some(Pair(0, 0)), map[5 := Pair(0, 0)], Reading(7, 0)))
                .(streams := map[7 := Stream(1, [], false)]));
  }

  /**
   The gap before attachment: with the mutex free and nothing owed, a forward
   that has read all of its stream, which is nothing, holds a grant of the
   epoch before a LOCK whose publication did not yet find it in the table.
   */
  lemma UnattachedForwardLags() returns (run: Run<State, Step>)
    ensures IsRun(run)
    ensures var s := EndOf(run);
            && s.hub.Free? && s.pending == 0 && 1 in s.forwards && s.forwards[1].phase == Reading(7, 0)
            && s.streams == map[7 := Stream(1, [], false)]
            && 5 in s.forwards[1].live && s.forwards[1].live[5] != s.authority
  {
    run := SubscribedNotAttached();
    var s := EndOf(run);
    var bumped := s.(authority := Pair(0, 1), pending := 1);
    run := Then(run, Initial, Next, LockBump, bumped);
    run := Then(run, Initial, Next, BeginPublish(true), bumped.(hub := Publishing(true, None, 0)));
    run := Then(run, Initial, Next, ReadForPublish,
                bumped.(hub := Publishing(true, Some(Pair(0, 1)), 0), pending := 0));
    run := Then(run, Initial, Next, EndPublish, bumped.(pending := 0));
  }
}
