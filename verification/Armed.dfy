/**
 The devbox bridge's reachable ports: leases that `forward open` armed and ports
 that a `forward port` process holds. The holders mutex spans two map updates in
 `arm` and in `hold`, so it is explicit; every other critical section is one step.
 Liveness peeks, acknowledgements and dials are outcomes chosen by the step.
 */
module Armed {
  import opened Base
  import opened Runs

  // ---- Port policy ----

  datatype Config = Config(bridgePort: nat, relayPort: nat, pcscPort: nat, grantPort: nat, pulsePort: nat)

  const CHANNEL_PORT: nat := 12800
  const FILES_PORT: nat := 12802
  const LOWEST_CALLBACK_PORT: nat := 1024

  function ServicePorts(cfg: Config): set<nat> {
    {CHANNEL_PORT, FILES_PORT, cfg.bridgePort, cfg.relayPort, cfg.pcscPort, cfg.grantPort, cfg.pulsePort}
  }

  function LethalPorts(): set<nat> { {2345, 2375, 2376, 3306, 5432, 5678, 6379, 8001, 9229} }

  predicate CanArm(cfg: Config, port: nat) {
    !(port == 0 || port < LOWEST_CALLBACK_PORT || port in ServicePorts(cfg) || port in LethalPorts())
  }

  // ---- The lease table on its own ----

  /** A longer lease replaces a shorter one; a shorter one never shortens. */
  function ArmPort(ports: map<nat, nat>, port: nat, deadline: nat): map<nat, nat> {
    ports[port := if port in ports then Max(ports[port], deadline) else deadline]
  }

  /** `retain`: what `is_armed` drops before it looks. */
  function SweepPorts(ports: map<nat, nat>, now: nat): map<nat, nat> {
    map port | port in ports && ports[port] > now :: ports[port]
  }

  predicate IsArmed(ports: map<nat, nat>, port: nat, now: nat) { port in SweepPorts(ports, now) }

  /** Arming reaches exactly as far as asked, takes nothing away, and touches no other port. */
  lemma ArmedUntil(ports: map<nat, nat>, port: nat, deadline: nat, other: nat, now: nat)
    ensures IsArmed(ArmPort(ports, port, deadline), other, now) <==>
            IsArmed(ports, other, now) || (other == port && now < deadline)
  {
  }

  datatype PortOp = ArmOp(port: nat, deadline: nat) | HoldOp(port: nat) | SweepOp(at: nat)

  function ApplyOp(ports: map<nat, nat>, op: PortOp): map<nat, nat> {
    match op
    case ArmOp(port, deadline) => ArmPort(ports, port, deadline)
    case HoldOp(port) => ports - {port}
    case SweepOp(at) => SweepPorts(ports, at)
  }

  function ApplyOps(ports: map<nat, nat>, ops: seq<PortOp>): map<nat, nat>
    decreases |ops|
  {
    if ops == [] then ports else ApplyOps(ApplyOp(ports, ops[0]), ops[1..])
  }

  function Unswept(ops: seq<PortOp>): seq<PortOp> {
    if ops == [] then [] else (if ops[0].SweepOp? then [] else [ops[0]]) + Unswept(ops[1..])
  }

  /** Alike to every query from `now` on. */
  ghost predicate SameLive(a: map<nat, nat>, b: map<nat, nat>, now: nat) {
    SweepPorts(a, now) == SweepPorts(b, now)
  }

  lemma OpKeepsSameLive(a: map<nat, nat>, b: map<nat, nat>, op: PortOp, now: nat)
    requires SameLive(a, b, now) && !op.SweepOp?
    ensures SameLive(ApplyOp(a, op), ApplyOp(b, op), now)
  {
    forall port
      ensures (port in SweepPorts(ApplyOp(a, op), now)) == (port in SweepPorts(ApplyOp(b, op), now))
      ensures port in SweepPorts(ApplyOp(a, op), now) ==> ApplyOp(a, op)[port] == ApplyOp(b, op)[port]
    {
      assert (port in SweepPorts(a, now)) == (port in SweepPorts(b, now));
      assert port in SweepPorts(a, now) ==> SweepPorts(a, now)[port] == SweepPorts(b, now)[port];
    }
  }

  lemma {:induction false} UnsweptAgrees(a: map<nat, nat>, b: map<nat, nat>, ops: seq<PortOp>, now: nat)
    requires SameLive(a, b, now) && forall i :: 0 <= i < |ops| && ops[i].SweepOp? ==> ops[i].at <= now
    ensures SameLive(ApplyOps(a, ops), ApplyOps(b, Unswept(ops)), now)
    decreases |ops|
  {
    if ops != [] {
      var op, rest := ops[0], ops[1..];
      if op.SweepOp? {
        assert SweepPorts(SweepPorts(a, op.at), now) == SweepPorts(a, now);
        assert Unswept(ops) == Unswept(rest);
        UnsweptAgrees(ApplyOp(a, op), b, rest, now);
      } else {
        OpKeepsSameLive(a, b, op, now);
        assert Unswept(ops)[0] == op && Unswept(ops)[1..] == Unswept(rest);
        UnsweptAgrees(ApplyOp(a, op), ApplyOp(b, op), rest, now);
      }
    }
  }

  /** Lazy expiry is exact: sweeps at earlier-or-equal times, anywhere in a run, change no answer. */
  lemma SweepsAreUnobservable(ops: seq<PortOp>, port: nat, now: nat)
    requires forall i :: 0 <= i < |ops| && ops[i].SweepOp? ==> ops[i].at <= now
    ensures IsArmed(ApplyOps(map[], ops), port, now) == IsArmed(ApplyOps(map[], Unswept(ops)), port, now)
  {
    UnsweptAgrees(map[], map[], ops, now);
  }

  // ---- Threads over both maps ----

  datatype Pc =
    | Idle
    | ArmLooking(port: nat, deadline: nat)
    | ArmPeeking(port: nat, deadline: nat, holder: nat)
    | ArmReleasing(port: nat, deadline: nat, holder: nat)
    | ArmChecking(port: nat, deadline: nat)
    | ArmLocked(port: nat, deadline: nat)
    | HoldLooking(port: nat)
    | HoldPeeking(port: nat, holder: nat)
    | HoldReleasing(port: nat, holder: nat)
    | HoldInserted(port: nat)
    | ConnectLooking(port: nat)
    | ConnectDialling(port: nat, holder: nat)
    | ConnectReleasing(port: nat, holder: nat)
    | ConnectAsking(port: nat)

  /** Inside a critical section of the holders mutex that spans two steps. */
  predicate Locks(pc: Pc) { pc.ArmLocked? || pc.HoldInserted? }

  /** The next step takes the holders mutex. */
  predicate WantsHolders(pc: Pc) {
    || pc.ArmLooking? || pc.ArmReleasing? || pc.ArmChecking? || pc.HoldLooking? || pc.HoldReleasing?
    || pc.ConnectLooking? || pc.ConnectReleasing?
  }

  datatype State = State(cfg: Config, ports: map<nat, nat>, holders: map<nat, nat>, nextHolder: nat,
                         threads: map<nat, Pc>)

  predicate HoldersFree(s: State) { forall t :: t in s.threads ==> !Locks(s.threads[t]) }

  /** `yes` is the outcome of what the step asks outside: alive, acknowledged, or dialled. */
  datatype Step =
    | Arm(thread: nat, port: nat, deadline: nat)
    | Hold(thread: nat, port: nat)
    | Connect(thread: nat, port: nat)
    | Advance(thread: nat, now: nat, yes: bool)

  predicate IsIdle(s: State, t: nat) { t in s.threads ==> s.threads[t].Idle? }

  predicate Enabled(s: State, step: Step) {
    match step
    case Arm(t, _, _) => IsIdle(s, t)
    case Hold(t, _) => IsIdle(s, t)
    case Connect(t, _) => IsIdle(s, t)
    case Advance(t, _, _) => t in s.threads && !s.threads[t].Idle? && (WantsHolders(s.threads[t]) ==> HoldersFree(s))
  }

  function At(s: State, t: nat, pc: Pc): State { s.(threads := s.threads[t := pc]) }

  /** Free the port if that holder is still the one holding it. */
  function ReleaseHolder(s: State, port: nat, holder: nat): State {
    if port in s.holders && s.holders[port] == holder then s.(holders := s.holders - {port}) else s
  }

  function OnAdvance(s: State, t: nat, now: nat, yes: bool): State
    requires t in s.threads
  {
    match s.threads[t]
    case Idle => s
    case ArmLooking(port, deadline) =>
      At(s, t, if port in s.holders then ArmPeeking(port, deadline, s.holders[port]) else ArmChecking(port, deadline))
    case ArmPeeking(port, deadline, holder) => At(s, t, if yes then Idle else ArmReleasing(port, deadline, holder))
    case ArmReleasing(port, deadline, holder) => At(ReleaseHolder(s, port, holder), t, ArmChecking(port, deadline))
    case ArmChecking(port, deadline) =>
      At(s, t, if port in s.holders then ArmLooking(port, deadline) else ArmLocked(port, deadline))
    case ArmLocked(port, deadline) => At(s, t, Idle).(ports := ArmPort(s.ports, port, deadline))
    case HoldLooking(port) =>
      if port in s.holders then At(s, t, HoldPeeking(port, s.holders[port]))
      else if !yes then At(s, t, Idle)
      else At(s, t, HoldInserted(port)).(holders := s.holders[port := s.nextHolder], nextHolder := s.nextHolder + 1)
    case HoldPeeking(port, holder) => At(s, t, if yes then Idle else HoldReleasing(port, holder))
    case HoldReleasing(port, holder) => At(ReleaseHolder(s, port, holder), t, HoldLooking(port))
    case HoldInserted(port) => At(s, t, Idle).(ports := s.ports - {port})
    case ConnectLooking(port) =>
      At(s, t, if port in s.holders then ConnectDialling(port, s.holders[port]) else ConnectAsking(port))
    case ConnectDialling(port, holder) => At(s, t, if yes then Idle else ConnectReleasing(port, holder))
    case ConnectReleasing(port, holder) => At(ReleaseHolder(s, port, holder), t, Idle)
    case ConnectAsking(port) => At(s, t, Idle).(ports := SweepPorts(s.ports, now))
  }

  function Effect(s: State, step: Step): State
    requires Enabled(s, step)
  {
    match step
    case Arm(t, port, deadline) => if CanArm(s.cfg, port) then At(s, t, ArmLooking(port, deadline)) else s
    case Hold(t, port) => if CanArm(s.cfg, port) then At(s, t, HoldLooking(port)) else s
    case Connect(t, port) => At(s, t, ConnectLooking(port))
    case Advance(t, now, yes) => OnAdvance(s, t, now, yes)
  }

  predicate Initial(s: State) { s == State(s.cfg, map[], map[], 0, map[]) }

  // ---- The invariant ----

  ghost predicate MutexInv(threads: map<nat, Pc>) {
    forall t, u :: t in threads && u in threads && Locks(threads[t]) && Locks(threads[u]) ==> t == u
  }

  ghost predicate JustHeld(threads: map<nat, Pc>, port: nat) {
    exists t :: t in threads && threads[t] == HoldInserted(port)
  }

  /** A port is both held and armed only inside `hold`'s critical section. */
  ghost predicate RouteInv(ports: map<nat, nat>, holders: map<nat, nat>, threads: map<nat, Pc>) {
    && (forall port :: port in ports && port in holders ==> JustHeld(threads, port))
    && (forall t :: t in threads && threads[t].ArmLocked? ==> threads[t].port !in holders)
  }

  predicate Arms(pc: Pc) {
    || pc.ArmLooking? || pc.ArmPeeking? || pc.ArmReleasing? || pc.ArmChecking? || pc.ArmLocked?
    || pc.HoldLooking? || pc.HoldPeeking? || pc.HoldReleasing? || pc.HoldInserted?
  }

  ghost predicate PolicyInv(s: State) {
    && (forall port :: port in s.ports || port in s.holders ==> CanArm(s.cfg, port))
    && (forall t :: t in s.threads && Arms(s.threads[t]) ==> CanArm(s.cfg, s.threads[t].port))
  }

  ghost predicate Inv(s: State) { MutexInv(s.threads) && RouteInv(s.ports, s.holders, s.threads) && PolicyInv(s) }

  lemma JustHeldFrame(threads: map<nat, Pc>, t: nat, next: Pc, port: nat)
    requires JustHeld(threads, port) && (t in threads ==> threads[t] != HoldInserted(port))
    ensures JustHeld(threads[t := next], port)
  {
    var u :| u in threads && threads[u] == HoldInserted(port);
    assert threads[t := next][u] == HoldInserted(port);
  }

  /** Moving a thread, or dropping rows from either map, breaks nothing. */
  lemma MoveKeeps(s: State, t: nat, next: Pc, ports: map<nat, nat>, holders: map<nat, nat>)
    requires Inv(s) && (t in s.threads ==> !Locks(s.threads[t])) && !next.HoldInserted?
    requires next.ArmLocked? ==> HoldersFree(s) && next.port !in holders
    requires Arms(next) ==> CanArm(s.cfg, next.port)
    requires ports.Keys <= s.ports.Keys && holders.Keys <= s.holders.Keys
    ensures Inv(At(s, t, next).(ports := ports, holders := holders))
  {
    forall port | port in ports && port in holders
      ensures JustHeld(s.threads[t := next], port)
    {
      assert port in s.ports.Keys && port in s.holders.Keys;
      JustHeldFrame(s.threads, t, next, port);
    }
  }

  /** No port became held while `arm` held the mutex, so the lease it writes is the port's only route. */
  lemma ArmCommitKeeps(s: State, t: nat)
    requires Inv(s) && t in s.threads && s.threads[t].ArmLocked?
    ensures Inv(At(s, t, Idle).(ports := ArmPort(s.ports, s.threads[t].port, s.threads[t].deadline)))
  {
    forall port | port in s.ports && port in s.holders
      ensures JustHeld(s.threads[t := Idle], port)
    {
      JustHeldFrame(s.threads, t, Idle, port);
    }
  }

  lemma FreeMeansOneRoute(s: State)
    requires RouteInv(s.ports, s.holders, s.threads) && HoldersFree(s)
    ensures forall port :: port in s.ports ==> port !in s.holders
  {
    forall t | t in s.threads
      ensures !s.threads[t].HoldInserted?
    {
      assert !Locks(s.threads[t]);
    }
  }

  lemma HoldInsertKeeps(s: State, t: nat)
    requires Inv(s) && t in s.threads && s.threads[t].HoldLooking? && HoldersFree(s)
    ensures Inv(OnAdvance(s, t, 0, true))
  {
    var port := s.threads[t].port;
    var next := if port in s.holders then HoldPeeking(port, s.holders[port]) else HoldInserted(port);
    var threads := s.threads[t := next];
    assert port !in s.holders ==> threads[t] == HoldInserted(port);
    FreeMeansOneRoute(s);
  }

  /** The lease under a new hold goes before the mutex does. */
  lemma HoldCommitKeeps(s: State, t: nat)
    requires Inv(s) && t in s.threads && s.threads[t].HoldInserted?
    ensures Inv(At(s, t, Idle).(ports := s.ports - {s.threads[t].port}))
  {
    assert forall port :: port in s.ports && port in s.holders ==> port == s.threads[t].port;
  }

  lemma ReleaseKeeps(s: State, t: nat, port: nat, holder: nat, next: Pc)
    requires Inv(s) && t in s.threads && !Locks(s.threads[t]) && !Locks(next)
    requires Arms(next) ==> CanArm(s.cfg, next.port)
    ensures Inv(At(ReleaseHolder(s, port, holder), t, next))
  {
    var holders := ReleaseHolder(s, port, holder).holders;
    MoveKeeps(s, t, next, s.ports, holders);
    assert At(ReleaseHolder(s, port, holder), t, next) == At(s, t, next).(ports := s.ports, holders := holders);
  }

  predicate Drops(pc: Pc) { pc.ArmReleasing? || pc.HoldReleasing? || pc.ConnectReleasing? || pc.ConnectAsking? }

  lemma DroppingKeeps(s: State, t: nat, now: nat, yes: bool)
    requires Inv(s) && Enabled(s, Advance(t, now, yes)) && Drops(s.threads[t])
    ensures Inv(OnAdvance(s, t, now, yes))
  {
    match s.threads[t]
    case ArmReleasing(port, deadline, holder) => ReleaseKeeps(s, t, port, holder, ArmChecking(port, deadline));
    case HoldReleasing(port, holder) => ReleaseKeeps(s, t, port, holder, HoldLooking(port));
    case ConnectReleasing(port, holder) => ReleaseKeeps(s, t, port, holder, Idle);
    case ConnectAsking(_) => MoveKeeps(s, t, Idle, SweepPorts(s.ports, now), s.holders);
  }

  /** Steps that write no lease and no holder. */
  lemma PlainKeeps(s: State, t: nat, now: nat, yes: bool)
    requires Inv(s) && Enabled(s, Advance(t, now, yes)) && !Drops(s.threads[t])
    requires !Locks(s.threads[t]) && (s.threads[t].HoldLooking? ==> !yes)
    ensures Inv(OnAdvance(s, t, now, yes))
  {
    var pc := OnAdvance(s, t, now, yes).threads[t];
    MoveKeeps(s, t, pc, s.ports, s.holders);
    assert OnAdvance(s, t, now, yes) == At(s, t, pc).(ports := s.ports, holders := s.holders);
  }

  lemma AdvanceKeeps(s: State, t: nat, now: nat, yes: bool)
    requires Inv(s) && Enabled(s, Advance(t, now, yes))
    ensures Inv(OnAdvance(s, t, now, yes))
  {
    if s.threads[t].ArmLocked? {
      ArmCommitKeeps(s, t);
    } else if s.threads[t].HoldInserted? {
      HoldCommitKeeps(s, t);
    } else if s.threads[t].HoldLooking? && yes {
      HoldInsertKeeps(s, t);
    } else if Drops(s.threads[t]) {
      DroppingKeeps(s, t, now, yes);
    } else {
      PlainKeeps(s, t, now, yes);
    }
  }

  lemma StepKeepsInv(s: State, step: Step)
    requires Inv(s) && Enabled(s, step)
    ensures Inv(Effect(s, step))
  {
    match step
    case Advance(t, now, yes) => AdvanceKeeps(s, t, now, yes);
    case Arm(t, port, deadline) =>
      if CanArm(s.cfg, port) { MoveKeeps(s, t, ArmLooking(port, deadline), s.ports, s.holders); }
    case Hold(t, port) => if CanArm(s.cfg, port) { MoveKeeps(s, t, HoldLooking(port), s.ports, s.holders); }
    case Connect(t, port) => MoveKeeps(s, t, ConnectLooking(port), s.ports, s.holders);
  }

  // ---- Runs ----

  ghost predicate Next(s: State, step: Step, s': State) { Enabled(s, step) && s' == Effect(s, step) }

  ghost predicate IsRun(run: Run<State, Step>) { IsRunOf(run, Initial, Next) }

  lemma RunKeepsInv(run: Run<State, Step>, k: nat)
    requires IsRun(run) && k < |run.states|
    ensures Inv(run.states[k])
  {
    forall s, step, s' | Inv(s) && Next(s, step, s')
      ensures Inv(s')
    {
      StepKeepsInv(s, step);
    }
    Throughout(run, Initial, Next, Inv, k);
  }

  /** With the holders mutex free, no port is both held and lease-armed. */
  lemma OneRoutePerPort(run: Run<State, Step>, k: nat, port: nat)
    requires IsRun(run) && k < |run.states| && HoldersFree(run.states[k])
    ensures !(port in run.states[k].ports && port in run.states[k].holders)
  {
    RunKeepsInv(run, k);
    FreeMeansOneRoute(run.states[k]);
  }

  /** Nothing the policy denies is ever armed or held. */
  lemma OnlySafePorts(run: Run<State, Step>, k: nat, port: nat)
    requires IsRun(run) && k < |run.states|
    requires port in run.states[k].ports || port in run.states[k].holders
    ensures port >= LOWEST_CALLBACK_PORT && port !in ServicePorts(run.states[k].cfg) && port !in LethalPorts()
  {
    RunKeepsInv(run, k);
  }

  /** The step writes a lease for this port, and no one holds the port then. */
  predicate Commits(run: Run<State, Step>, k: nat, port: nat)
    requires |run.states| == |run.steps| + 1 && k < |run.steps|
  {
    var s, step := run.states[k], run.steps[k];
    && step.Advance? && step.thread in s.threads
    && s.threads[step.thread].ArmLocked? && s.threads[step.thread].port == port
    && port !in s.holders
  }

  /** Leases come from commits alone, and a commit that finds a lease keeps the later deadline. */
  lemma StepOnLease(run: Run<State, Step>, k: nat, port: nat)
    requires IsRun(run) && k < |run.steps| && port in run.states[k + 1].ports
    ensures port in run.states[k].ports || Commits(run, k, port)
    ensures port in run.states[k].ports ==> run.states[k].ports[port] <= run.states[k + 1].ports[port]
  {
    RunKeepsInv(run, k);
    assert StepAt(run, Next, k);
  }

  /** A lease's deadline never decreases while the lease stays. */
  lemma {:induction false} DeadlinesOnlyGrow(run: Run<State, Step>, i: nat, j: nat, port: nat)
    requires IsRun(run) && i <= j < |run.states|
    requires forall k :: i <= k <= j ==> port in run.states[k].ports
    ensures run.states[i].ports[port] <= run.states[j].ports[port]
    decreases j - i
  {
    if i < j {
      DeadlinesOnlyGrow(run, i, j - 1, port);
      StepOnLease(run, j - 1, port);
    }
  }

  lemma {:induction false} ArmedByACommit(run: Run<State, Step>, i: nat, j: nat, port: nat) returns (k: nat)
    requires IsRun(run) && i < j < |run.states|
    requires port !in run.states[i].ports && port in run.states[j].ports
    ensures i <= k < j && Commits(run, k, port)
    decreases j - i
  {
    StepOnLease(run, j - 1, port);
    if port in run.states[j - 1].ports {
      k := ArmedByACommit(run, i, j - 1, port);
    } else {
      k := j - 1;
    }
  }

  // ---- A lease found after a hold ----

  /** The thread is inside an `arm` call for this port. */
  predicate InArmCall(s: State, t: nat, port: nat) {
    && t in s.threads
    && (var pc := s.threads[t];
        pc.ArmLooking? || pc.ArmPeeking? || pc.ArmReleasing? || pc.ArmChecking? || pc.ArmLocked?)
    && s.threads[t].port == port
  }

  /** The call that step `b` begins asks for this port and is still under way in state `k`. */
  ghost predicate UnderWay(run: Run<State, Step>, b: nat, k: nat, t: nat, port: nat)
    requires |run.states| == |run.steps| + 1
  {
    && b < k < |run.states|
    && run.steps[b].Arm? && run.steps[b].thread == t && run.steps[b].port == port
    && (forall n :: b < n <= k ==> InArmCall(run.states[n], t, port))
    && run.states[k].threads[t].deadline == run.steps[b].deadline
  }

  /** Step `k` writes the lease that the call begun by step `b` asked for. */
  ghost predicate Writes(run: Run<State, Step>, b: nat, k: nat, port: nat)
    requires |run.states| == |run.steps| + 1
  {
    k < |run.steps| && Commits(run, k, port) && UnderWay(run, b, k, run.steps[k].thread, port)
  }

  lemma AdvanceMovesOne(s: State, t: nat, now: nat, yes: bool) returns (pc: Pc)
    requires t in s.threads && !s.threads[t].Idle?
    ensures OnAdvance(s, t, now, yes).threads == s.threads[t := pc]
  {
    pc := OnAdvance(s, t, now, yes).threads[t];
  }

  /** A step moves one thread. */
  lemma OthersStay(s: State, step: Step, t: nat)
    requires Enabled(s, step) && step.thread != t
    ensures t in Effect(s, step).threads <==> t in s.threads
    ensures t in s.threads ==> Effect(s, step).threads[t] == s.threads[t]
  {
    match step
    case Advance(u, now, yes) => var _ := AdvanceMovesOne(s, u, now, yes);
    case Arm(_, _, _) | Hold(_, _) | Connect(_, _) =>
  }

  lemma OwnAdvance(s: State, t: nat, now: nat, yes: bool, port: nat)
    requires Enabled(s, Advance(t, now, yes)) && InArmCall(OnAdvance(s, t, now, yes), t, port)
    ensures InArmCall(s, t, port) && s.threads[t].deadline == OnAdvance(s, t, now, yes).threads[t].deadline
  {
  }

  /** A thread is inside an `arm` call because it was there before or has just begun it. */
  lemma ArmCallStep(run: Run<State, Step>, k: nat, t: nat, port: nat)
    requires IsRun(run) && k < |run.steps| && InArmCall(run.states[k + 1], t, port)
    ensures var deadline := run.states[k + 1].threads[t].deadline;
            || (InArmCall(run.states[k], t, port) && run.states[k].threads[t].deadline == deadline)
            || run.steps[k] == Arm(t, port, deadline)
  {
    var s, step := run.states[k], run.steps[k];
    assert StepAt(run, Next, k);
    if step.thread != t {
      OthersStay(s, step, t);
    } else if step.Advance? {
      OwnAdvance(s, t, step.now, step.yes, port);
    }
  }

  lemma {:induction false} CallWasBegun(run: Run<State, Step>, k: nat, t: nat, port: nat) returns (b: nat)
    requires IsRun(run) && k < |run.states| && InArmCall(run.states[k], t, port)
    ensures UnderWay(run, b, k, t, port)
  {
    ArmCallStep(run, k - 1, t, port);
    if InArmCall(run.states[k - 1], t, port)
       && run.states[k - 1].threads[t].deadline == run.states[k].threads[t].deadline {
      b := CallWasBegun(run, k - 1, t, port);
    } else {
      b := k - 1;
    }
  }

  /**
   A lease from before or during a hold never outlives it: one found later was written
   later, while no one held the port, by a call begun later too or under way during the hold.
   */
  lemma HeldPortNeedsANewLease(run: Run<State, Step>, i: nat, j: nat, port: nat) returns (b: nat, k: nat)
    requires IsRun(run) && i < j < |run.states| && HoldersFree(run.states[i])
    requires port in run.states[i].holders && port in run.states[j].ports
    ensures i <= k < j && Writes(run, b, k, port)
    ensures i <= b || InArmCall(run.states[i], run.steps[k].thread, port)
  {
    OneRoutePerPort(run, i, port);
    k := ArmedByACommit(run, i, j, port);
    b := CallWasBegun(run, k, run.steps[k].thread, port);
  }

  ghost predicate Continues(run: Run<State, Step>, longer: Run<State, Step>) {
    IsRun(longer) && run.states <= longer.states && run.steps <= longer.steps
  }

  /** However the run goes on, every lease written for the port is one asked for from now on. */
  ghost predicate OnlyNewLeases(run: Run<State, Step>, port: nat) {
    forall longer, b: nat, k: nat ::
      Continues(run, longer) && Writes(longer, b, k, port) ==> |run.steps| <= k ==> |run.steps| <= b
  }

  /** How many steps of its own an `arm` call is from its commit, if every peek finds the holder gone. */
  function StepsLeft(s: State, t: nat, port: nat): nat
    requires InArmCall(s, t, port)
  {
    var pc := s.threads[t];
    var stale := port in s.holders && ((pc.ArmPeeking? || pc.ArmReleasing?) ==> pc.holder != s.holders[port]);
    match pc
    case ArmLocked(_, _) => 0
    case ArmChecking(_, _) => if stale then 5 else 1
    case ArmReleasing(_, _, _) => if stale then 6 else 2
    case ArmPeeking(_, _, _) => if stale then 7 else 3
    case _ => 4
  }

  lemma NearerItsCommit(s: State, t: nat, port: nat)
    requires InArmCall(s, t, port) && !s.threads[t].ArmLocked? && HoldersFree(s)
    ensures var s' := OnAdvance(s, t, 0, false);
            && InArmCall(s', t, port) && (s'.threads[t].ArmLocked? || HoldersFree(s'))
            && StepsLeft(s', t, port) < StepsLeft(s, t, port)
  {
  }

  /** An `arm` call under way can commit by its own steps alone, whoever holds the port meanwhile. */
  lemma {:induction false} CallCanCommit(run: Run<State, Step>, t: nat, port: nat) returns (longer: Run<State, Step>)
    requires IsRun(run) && InArmCall(EndOf(run), t, port)
    requires EndOf(run).threads[t].ArmLocked? || HoldersFree(EndOf(run))
    ensures Continues(run, longer) && |run.steps| < |longer.steps|
    ensures Commits(longer, |longer.steps| - 1, port)
    ensures forall n :: |run.steps| <= n < |longer.steps| ==> longer.steps[n] == Advance(t, 0, false)
    decreases StepsLeft(EndOf(run), t, port)
  {
    var s, step := EndOf(run), Advance(t, 0, false);
    if s.threads[t].ArmLocked? {
      RunKeepsInv(run, |run.states| - 1);
      longer := Then(run, Initial, Next, step, OnAdvance(s, t, 0, false));
    } else {
      NearerItsCommit(s, t, port);
      var next := Then(run, Initial, Next, step, OnAdvance(s, t, 0, false));
      longer := CallCanCommit(next, t, port);
    }
  }

  /** A call is begun by a thread outside any call, so one under way since `m` was begun before `m`. */
  lemma {:induction false} BegunBefore(run: Run<State, Step>, m: nat, k: nat, b: nat, t: nat, port: nat)
    requires IsRun(run) && m <= k && UnderWay(run, b, k, t, port)
    requires InArmCall(run.states[m], t, port) && forall n :: m <= n < k ==> run.steps[n].Advance?
    ensures b < m
  {
  }

  lemma UnderWayNeverIdle(run: Run<State, Step>, longer: Run<State, Step>, b: nat, k: nat, port: nat)
    requires IsRun(run) && Continues(run, longer) && Writes(longer, b, k, port) && b < |run.steps| <= k
    ensures InArmCall(EndOf(run), longer.steps[k].thread, port)
  {
    assert longer.states[|run.steps|] == EndOf(run);
  }

  /**
   From a state on, held port or not, every lease written for a port is one asked for from
   then on exactly if no thread is inside an `arm` call for it: such a call can still commit.
   */
  lemma OnlyNewLeasesIff(run: Run<State, Step>, port: nat)
    requires IsRun(run) && HoldersFree(EndOf(run))
    ensures OnlyNewLeases(run, port) <==> forall t :: !InArmCall(EndOf(run), t, port)
  {
    forall longer, b: nat, k: nat | Continues(run, longer) && Writes(longer, b, k, port) && b < |run.steps| <= k
      ensures exists t :: InArmCall(EndOf(run), t, port)
    {
      UnderWayNeverIdle(run, longer, b, k, port);
    }
    if t :| InArmCall(EndOf(run), t, port) {
      var longer := CallCanCommit(run, t, port);
      var k := |longer.steps| - 1;
      assert longer.states[|run.steps|] == EndOf(run);
      var b := CallWasBegun(longer, k, t, port);
      BegunBefore(longer, |run.steps|, k, b, t, port);
      assert Writes(longer, b, k, port);
    }
  }

  /** One thread's `arm` call begins, then another thread's `hold` of the same port. */
  lemma HoldDuringACall(cfg: Config) returns (run: Run<State, Step>)
    requires CanArm(cfg, 5000)
    ensures IsRun(run)
    ensures EndOf(run) == State(cfg, map[], map[], 0, map[0 := ArmLooking(5000, 9), 1 := HoldLooking(5000)])
  {
    var arming := ArmLooking(5000, 9);
    run := Run([State(cfg, map[], map[], 0, map[])], []);
    run := Then(run, Initial, Next, Arm(0, 5000, 9), State(cfg, map[], map[], 0, map[0 := arming]));
    run := Then(run, Initial, Next, Hold(1, 5000),
                State(cfg, map[], map[], 0, map[0 := arming, 1 := HoldLooking(5000)]));
  }

  lemma HeldDuringACall(cfg: Config) returns (run: Run<State, Step>)
    requires CanArm(cfg, 5000)
    ensures IsRun(run)
    ensures EndOf(run) == State(cfg, map[], map[5000 := 0], 1, map[0 := ArmLooking(5000, 9), 1 := Idle])
  {
    var arming := ArmLooking(5000, 9);
    run := HoldDuringACall(cfg);
    run := Then(run, Initial, Next, Advance(1, 0, true),
                State(cfg, map[], map[5000 := 0], 1, map[0 := arming, 1 := HoldInserted(5000)]));
    run := Then(run, Initial, Next, Advance(1, 0, true),
                State(cfg, map[], map[5000 := 0], 1, map[0 := arming, 1 := Idle]));
  }

  /** A call begun before a hold writes its lease after it. */
  lemma CallSpansAHold(cfg: Config) returns (run: Run<State, Step>, longer: Run<State, Step>, b: nat, k: nat)
    requires CanArm(cfg, 5000)
    ensures IsRun(run) && HoldersFree(EndOf(run)) && 5000 in EndOf(run).holders
    ensures Continues(run, longer) && Writes(longer, b, k, 5000) && b < |run.steps| <= k
  {
    run := HeldDuringACall(cfg);
    assert InArmCall(EndOf(run), 0, 5000);
    OnlyNewLeasesIff(run, 5000);
    longer, b, k :| Continues(run, longer) && Writes(longer, b, k, 5000) && b < |run.steps| <= k;
  }
}
