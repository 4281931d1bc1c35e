/**
 Authority propagation: the broker's lock epoch, the hub that publishes it to
 subscribers, and the forward daemons that revoke browser grants when it moves.

 The hub's mutex is explicit: attachment and publication hold it across the
 epoch read and the writes, while LOCK advances the epoch without it. Each step
 is one action under the locks held at that point, so a LOCK can fall between
 an epoch read and the write of the line it produced.
 */
module Authority {
  import opened Base

  /** A broker process (with the socket it serves) and its lock epoch. */
  datatype Pair = Pair(instance: nat, epoch: nat)

  /** No earlier: a later epoch of the same broker, or a later broker. */
  predicate NotBefore(a: Pair, b: Pair) {
    b.instance < a.instance || (b.instance == a.instance && b.epoch <= a.epoch)
  }

  const SUBSCRIBER_CAPACITY: nat := 8

  datatype Stream = Stream(owner: nat, sent: seq<Pair>, closed: bool)

  datatype Subscriber = Subscriber(pid: nat, stream: nat)

  /** Who holds the hub mutex, and how far they have got. */
  datatype Hub =
    | Free
    | Attaching(newcomer: Subscriber, line: Option<Pair>)
    | Publishing(forLock: bool, line: Option<Pair>, done: nat)

  datatype Failure = LostAfterAttach | RefusedAtFirst | Unreachable

  datatype Phase =
    | Top
    | Greeted(identity: Pair)
    | Observed
    | Reading(stream: nat, read: nat)
    | Failed(failure: Failure)

  /** A forward daemon: the authority it last observed, its live grants, and its subscription worker. */
  datatype Forward = Forward(
    observed: Option<Pair>,
    live: map<nat, Pair>,
    phase: Phase,
    unhealthySince: Option<nat>,
    inOutage: bool)

  datatype State = State(
    authority: Pair,
    pending: nat,
    hub: Hub,
    subscribers: seq<Subscriber>,
    streams: map<nat, Stream>,
    forwards: map<nat, Forward>)

  const MAX_UNHEALTHY: nat := 30 * SECOND

  // ---- The forward's grant registry, at the granularity of its authority lock ----

  /** Observe an authority; a changed one revokes every live grant. */
  function Observe(f: Forward, a: Pair): Forward {
    f.(observed := Some(a), live := if f.observed.Some? && f.observed.value != a then map[] else f.live)
  }

  function Invalidate(f: Forward): Forward { f.(observed := None, live := map[]) }

  function InsertIfAuthority(f: Forward, a: Pair, id: nat): Forward {
    if f.observed == Some(a) then f.(live := f.live[id := a]) else f
  }

  /** `ReconnectBudget::exhausted`: start the clock on first failure, then compare. */
  function UnhealthySince(since: Option<nat>, now: nat): nat { if since.Some? then since.value else now }

  predicate Exhausted(since: Option<nat>, now: nat) {
    Elapsed(UnhealthySince(since, now), now) >= MAX_UNHEALTHY
  }

  /** How the subscription worker answers a failure before it retries. */
  function Handle(f: Forward, failure: Failure, now: nat): Forward {
    match failure
    case LostAfterAttach => Invalidate(f).(phase := Top, unhealthySince := None, inOutage := false)
    case RefusedAtFirst => Invalidate(f).(phase := Top, unhealthySince := None, inOutage := false)
    case Unreachable =>
      var since := Some(UnhealthySince(f.unhealthySince, now));
      if Exhausted(f.unhealthySince, now) then Invalidate(f).(phase := Top, unhealthySince := since, inOutage := true)
      else f.(phase := Top, unhealthySince := since, inOutage := false)
  }

  // ---- Steps ----

  datatype Step =
    | LockBump
    | BeginPublish(forLock: bool)
    | ReadForPublish
    | WriteNext(delivered: bool)
    | EndPublish
    | BeginAttach(newcomer: Subscriber, dead: set<nat>)
    | ReadForAttach
    | WriteAttach(delivered: bool)
    | Restart
    | Launch(pid: nat)
    | Hello(pid: nat)
    | ObserveHello(pid: nat)
    | Subscribe(pid: nat, stream: nat)
    | ReadEvent(pid: nat)
    | Fails(pid: nat, failure: Failure)
    | HandleFailure(pid: nat, now: nat)
    | InsertGrant(pid: nat, authority: Pair, id: nat)
    | EndGrant(pid: nat, id: nat)

  predicate Enabled(s: State, step: Step) {
    match step
    case LockBump => true
    case BeginPublish(forLock) => s.hub.Free? && (forLock ==> s.pending > 0)
    case ReadForPublish => s.hub.Publishing? && s.hub.line.None? && (s.hub.forLock ==> s.pending > 0)
    case WriteNext(_) => s.hub.Publishing? && s.hub.line.Some? && s.hub.done < |s.subscribers|
                         && s.subscribers[s.hub.done].stream in s.streams
    case EndPublish => s.hub.Publishing? && s.hub.line.Some? && s.hub.done == |s.subscribers|
    case BeginAttach(newcomer, _) =>
      s.hub.Free? && newcomer.stream in s.streams && s.streams[newcomer.stream] == Stream(newcomer.pid, [], false)
    case ReadForAttach => s.hub.Attaching? && s.hub.line.None?
    case WriteAttach(_) => s.hub.Attaching? && s.hub.line.Some? && s.hub.newcomer.stream in s.streams
    case Restart => true
    case Launch(pid) => pid !in s.forwards
    case Hello(pid) => pid in s.forwards && s.forwards[pid].phase.Top?
    case ObserveHello(pid) => pid in s.forwards && s.forwards[pid].phase.Greeted?
    case Subscribe(pid, stream) => pid in s.forwards && s.forwards[pid].phase.Observed? && stream !in s.streams
    case ReadEvent(pid) =>
      pid in s.forwards && s.forwards[pid].phase.Reading? && s.forwards[pid].phase.stream in s.streams
      && s.forwards[pid].phase.read < |s.streams[s.forwards[pid].phase.stream].sent|
    case Fails(pid, failure) =>
      && pid in s.forwards
      && var phase := s.forwards[pid].phase;
      if phase.Reading? then failure.LostAfterAttach? else (phase.Top? || phase.Observed?) && !failure.LostAfterAttach?
    case HandleFailure(pid, _) => pid in s.forwards && s.forwards[pid].phase.Failed?
    case InsertGrant(pid, _, id) => pid in s.forwards && id !in s.forwards[pid].live
    case EndGrant(pid, _) => pid in s.forwards
  }

  function Close(streams: map<nat, Stream>, which: set<nat>): map<nat, Stream> {
    map id | id in streams :: if id in which then streams[id].(closed := true) else streams[id]
  }

  function Sent(streams: map<nat, Stream>, id: nat, line: Pair): map<nat, Stream>
    requires id in streams
  {
    streams[id := streams[id].(sent := streams[id].sent + [line])]
  }

  function StaysAttached(pid: nat, dead: set<nat>): Subscriber -> bool {
    (sub: Subscriber) => sub.pid !in dead && sub.pid != pid
  }

  /** Drop dead peers and this peer's older connection; refuse a full table. */
  function OnBeginAttach(s: State, newcomer: Subscriber, dead: set<nat>): State {
    var kept := Filter(s.subscribers, StaysAttached(newcomer.pid, dead));
    var dropped := set sub | sub in s.subscribers && !StaysAttached(newcomer.pid, dead)(sub) :: sub.stream;
    if |kept| >= SUBSCRIBER_CAPACITY then
      s.(subscribers := kept, streams := Close(s.streams, dropped + {newcomer.stream}))
    else
      s.(subscribers := kept, streams := Close(s.streams, dropped), hub := Attaching(newcomer, None))
  }

  function OnWriteNext(s: State, delivered: bool): State
    requires Enabled(s, WriteNext(delivered))
  {
    var k := s.hub.done;
    var id := s.subscribers[k].stream;
    if delivered then
      s.(streams := Sent(s.streams, id, s.hub.line.value), hub := s.hub.(done := k + 1))
    else
      s.(streams := Close(s.streams, {id}), subscribers := s.subscribers[..k] + s.subscribers[k + 1..])
  }

  function OnWriteAttach(s: State, delivered: bool): State
    requires Enabled(s, WriteAttach(delivered))
  {
    var id := s.hub.newcomer.stream;
    if delivered then
      s.(streams := Sent(s.streams, id, s.hub.line.value), subscribers := s.subscribers + [s.hub.newcomer], hub := Free)
    else
      s.(streams := Close(s.streams, {id}), hub := Free)
  }

  function With(s: State, pid: nat, f: Forward): State { s.(forwards := s.forwards[pid := f]) }

  function Effect(s: State, step: Step): State
    requires Enabled(s, step)
  {
    match step
    case LockBump => s.(authority := s.authority.(epoch := s.authority.epoch + 1), pending := s.pending + 1)
    case BeginPublish(forLock) => s.(hub := Publishing(forLock, None, 0))
    case ReadForPublish =>
      s.(hub := s.hub.(line := Some(s.authority)), pending := if s.hub.forLock then s.pending - 1 else s.pending)
    case WriteNext(delivered) => OnWriteNext(s, delivered)
    case EndPublish => s.(hub := Free)
    case BeginAttach(newcomer, dead) => OnBeginAttach(s, newcomer, dead)
    case ReadForAttach => s.(hub := s.hub.(line := Some(s.authority)))
    case WriteAttach(delivered) => OnWriteAttach(s, delivered)
    case Restart =>
      s.(authority := Pair(s.authority.instance + 1, 0), pending := 0, hub := Free, subscribers := [],
      streams := Close(s.streams, s.streams.Keys))
    case Launch(pid) => With(s, pid, Forward(None, map[], Top, None, false))
    case Hello(pid) => With(s, pid, s.forwards[pid].(phase := Greeted(s.authority)))
    case ObserveHello(pid) =>
      With(s, pid, Observe(s.forwards[pid], s.forwards[pid].phase.identity).(phase := Observed))
    case Subscribe(pid, stream) =>
      With(s, pid, s.forwards[pid].(phase := Reading(stream, 0)))
      .(streams := s.streams[stream := Stream(pid, [], false)])
    case ReadEvent(pid) =>
      var f := s.forwards[pid];
      var event := s.streams[f.phase.stream].sent[f.phase.read];
      With(s, pid, Observe(f, event).(phase := Reading(f.phase.stream, f.phase.read + 1)))
    case Fails(pid, failure) => With(s, pid, s.forwards[pid].(phase := Failed(failure)))
    case HandleFailure(pid, now) => With(s, pid, Handle(s.forwards[pid], s.forwards[pid].phase.failure, now))
    case InsertGrant(pid, a, id) => With(s, pid, InsertIfAuthority(s.forwards[pid], a, id))
    case EndGrant(pid, id) => With(s, pid, s.forwards[pid].(live := s.forwards[pid].live - {id}))
  }

  predicate Initial(s: State) {
    s == State(Pair(s.authority.instance, 0), 0, Free, [], map[], map[])
  }

  // ---- What every stream and subscriber satisfies ----

  ghost predicate Rising(sent: seq<Pair>) {
    forall i, j :: 0 <= i < j < |sent| ==> NotBefore(sent[j], sent[i])
  }

  ghost predicate StreamsRise(streams: map<nat, Stream>) {
    forall id :: id in streams ==> Rising(streams[id].sent)
  }

  function Last(streams: map<nat, Stream>, id: nat): Pair
    requires id in streams && streams[id].sent != []
  {
    streams[id].sent[|streams[id].sent| - 1]
  }

  /** No stream and no peer is in the table twice. */
  ghost predicate DistinctEntries(subscribers: seq<Subscriber>) {
    forall i, j :: 0 <= i < j < |subscribers| ==>
                     subscribers[i].stream != subscribers[j].stream && subscribers[i].pid != subscribers[j].pid
  }

  /** A table entry is an open stream of its own peer that has been sent something by this broker. */
  ghost predicate Attached(sub: Subscriber, streams: map<nat, Stream>, authority: Pair) {
    && sub.stream in streams && streams[sub.stream].owner == sub.pid && streams[sub.stream].sent != []
    && !streams[sub.stream].closed
    && Last(streams, sub.stream).instance == authority.instance
    && Last(streams, sub.stream).epoch <= authority.epoch
  }

  ghost predicate TableInv(subscribers: seq<Subscriber>, streams: map<nat, Stream>, authority: Pair) {
    && |subscribers| <= SUBSCRIBER_CAPACITY
    && DistinctEntries(subscribers)
    && forall sub :: sub in subscribers ==> Attached(sub, streams, authority)
  }

  ghost predicate SentLast(sub: Subscriber, streams: map<nat, Stream>, line: Pair) {
    sub.stream in streams && streams[sub.stream].sent != [] && Last(streams, sub.stream) == line
  }

  ghost predicate AllSent(subscribers: seq<Subscriber>, streams: map<nat, Stream>, line: Pair) {
    forall sub :: sub in subscribers ==> SentLast(sub, streams, line)
  }

  ghost predicate InTable(subscribers: seq<Subscriber>, id: nat) {
    exists sub :: sub in subscribers && sub.stream == id
  }

  /** A stream that was ever written to is still in the table, or it has been closed. */
  ghost predicate WrittenInv(subscribers: seq<Subscriber>, streams: map<nat, Stream>) {
    forall id :: id in streams && streams[id].sent != [] ==> streams[id].closed || InTable(subscribers, id)
  }

  /** The line in hand was read under the mutex: it is this broker's, and no subscriber has seen a later one. */
  ghost predicate LineInv(line: Pair, subscribers: seq<Subscriber>, streams: map<nat, Stream>, authority: Pair) {
    && line.instance == authority.instance && line.epoch <= authority.epoch
    && forall sub :: sub in subscribers ==>
                       sub.stream in streams && streams[sub.stream].sent != []
                       && Last(streams, sub.stream).epoch <= line.epoch
  }

  ghost predicate HubInv(s: State) {
    match s.hub
    case Free => s.pending == 0 ==> AllSent(s.subscribers, s.streams, s.authority)
    case Attaching(newcomer, line) =>
      && newcomer.stream in s.streams && s.streams[newcomer.stream].owner == newcomer.pid
      && s.streams[newcomer.stream].sent == [] && !s.streams[newcomer.stream].closed
      && |s.subscribers| < SUBSCRIBER_CAPACITY && (forall sub :: sub in s.subscribers ==> sub.pid != newcomer.pid)
      && (line.Some? ==> LineInv(line.value, s.subscribers, s.streams, s.authority))
      && (s.pending == 0 ==>
            && AllSent(s.subscribers, s.streams, s.authority)
            && (line.Some? ==> line.value == s.authority))
    case Publishing(forLock, line, done) =>
      && done <= |s.subscribers|
      && (line.None? ==> done == 0 && (forLock ==> s.pending > 0))
      && (line.None? && s.pending == 0 ==> AllSent(s.subscribers, s.streams, s.authority))
      && (line.Some? ==>
            && LineInv(line.value, s.subscribers, s.streams, s.authority)
            && AllSent(s.subscribers[..done], s.streams, line.value)
            && (s.pending == 0 ==> line.value == s.authority))
  }

  // ---- What every forward satisfies ----

  ghost predicate ForwardInv(pid: nat, f: Forward, streams: map<nat, Stream>) {
    && (forall id :: id in f.live ==> f.observed == Some(f.live[id]))
    && (f.phase.Reading? ==>
          && f.phase.stream in streams && streams[f.phase.stream].owner == pid
          && f.phase.read <= |streams[f.phase.stream].sent|
          && (f.phase.read > 0 ==> f.observed == Some(streams[f.phase.stream].sent[f.phase.read - 1])))
    && (f.phase.Top? && (f.unhealthySince.None? || f.inOutage) ==> f.observed.None?)
  }

  ghost predicate ForwardsInv(forwards: map<nat, Forward>, streams: map<nat, Stream>) {
    forall pid :: pid in forwards ==> ForwardInv(pid, forwards[pid], streams)
  }

  ghost predicate Inv(s: State) {
    && StreamsRise(s.streams)
    && TableInv(s.subscribers, s.streams, s.authority)
    && WrittenInv(s.subscribers, s.streams)
    && HubInv(s)
    && ForwardsInv(s.forwards, s.streams)
  }
}
