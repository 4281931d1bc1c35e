/**
 Callback port leases on the laptop: `serve_on` threads, the accept loops they
 spawn, and the reaper, interleaved at their lock and socket operations. A serve
 is one call of `serve_on`; its number stands for the stop flag it allocates,
 which is what the lease table compares by identity.
 */
module Leases {
  import opened Base

  datatype Family = V4 | V6

  /** A listening socket's life: bound, accepting, dropped, and finally released from the lease. */
  datatype Socket = Unbound | Held | Accepting | Closed | Released

  predicate IsOpen(k: Socket) { k.Held? || k.Accepting? }

  datatype Pc = Asked | Waiting | Binding | BoundV4 | Bound | Inserted | SpawnedV4 | V4NotSpawned | Done

  datatype Serve = Serve(port: nat, owner: nat, ttl: nat, pc: Pc, v4: Socket, v6: Socket, installed: bool)

  function SocketOf(v: Serve, f: Family): Socket { if f.V4? then v.v4 else v.v6 }

  function WithSocket(v: Serve, f: Family, k: Socket): Serve { if f.V4? then v.(v4 := k) else v.(v6 := k) }

  /** `listeners` is an integer here: that it never reaches zero while stored is a theorem. */
  datatype Lease = Lease(owner: nat, deadline: nat, listeners: int, serve: nat)

  datatype State = State(serves: map<nat, Serve>, leases: map<nat, Lease>, stopped: set<nat>)

  datatype BindResult = BindOk | AddressInUse | Unavailable

  datatype Step =
    | Begin(id: nat, port: nat, owner: nat, ttl: nat)
    | Refresh(id: nat, now: nat)
    | Wake(id: nat)
    | BindV4(id: nat, bound: nat, ok: bool)
    | BindV6(id: nat, result: BindResult)
    | Insert(id: nat, now: nat)
    | SpawnV4(id: nat, ok: bool)
    | SpawnV6(id: nat, ok: bool)
    | GiveUpV6(id: nat)
    | AcceptFails(id: nat, family: Family)
    | LoopExits(id: nat, family: Family)
    | Release(id: nat, family: Family)
    | Reap(now: nat)

  /** Some serve has that port's socket of that family open. */
  ghost predicate PortOpen(serves: map<nat, Serve>, port: nat, f: Family) {
    exists id :: id in serves && serves[id].port == port && IsOpen(SocketOf(serves[id], f))
  }

  /** The kernel refuses a second bind of an open address; everything else is this program's control flow. */
  ghost predicate Enabled(s: State, step: Step) {
    match step
    case Begin(id, _, _, _) => id !in s.serves
    case Refresh(id, _) => id in s.serves && s.serves[id].pc.Asked?
    case Wake(id) => id in s.serves && s.serves[id].pc.Waiting? && s.serves[id].port !in s.leases
    case BindV4(id, bound, ok) =>
      && id in s.serves && s.serves[id].pc.Binding?
      && (ok ==> (s.serves[id].port != 0 ==> bound == s.serves[id].port) && !PortOpen(s.serves, bound, V4))
    case BindV6(id, result) =>
      && id in s.serves && s.serves[id].pc.BoundV4?
      && (result.BindOk? ==> !PortOpen(s.serves, s.serves[id].port, V6))
    case Insert(id, _) => id in s.serves && s.serves[id].pc.Bound?
    case SpawnV4(id, _) => id in s.serves && s.serves[id].pc.Inserted?
    case SpawnV6(id, _) => id in s.serves && s.serves[id].pc.SpawnedV4?
    case GiveUpV6(id) => id in s.serves && s.serves[id].pc.V4NotSpawned? && s.serves[id].v4.Released?
    case AcceptFails(id, f) => id in s.serves && SocketOf(s.serves[id], f).Accepting?
    case LoopExits(id, f) => id in s.serves && SocketOf(s.serves[id], f).Accepting? && id in s.stopped
    case Release(id, f) => id in s.serves && SocketOf(s.serves[id], f).Closed?
    case Reap(_) => true
  }

  function With(s: State, id: nat, v: Serve): State { s.(serves := s.serves[id := v]) }

  /** `Leases::refresh`, then the branch `serve_on` takes on its answer. */
  function OnRefresh(s: State, id: nat, now: nat): State
    requires id in s.serves
  {
    var v := s.serves[id];
    if v.port == 0 || v.port !in s.leases then With(s, id, v.(pc := Binding))
    else
      var lease := s.leases[v.port];
      if lease.serve in s.stopped then With(s, id, v.(pc := Waiting))
      else if lease.owner != v.owner then With(s, id, v.(pc := Done))
      else
        With(s, id, v.(pc := Done)).(leases := s.leases[v.port := lease.(deadline := Max(lease.deadline, now + v.ttl))])
  }

  function Listeners(v: Serve): int { 1 + (if v.v6.Held? then 1 else 0) }

  /** A replaced lease is told to stop before its row is overwritten. */
  function OnInsert(s: State, id: nat, now: nat): State
    requires id in s.serves
  {
    var v := s.serves[id];
    var replaced := if v.port in s.leases then {s.leases[v.port].serve} else {};
    With(s, id, v.(pc := Inserted, installed := true))
    .(leases := s.leases[v.port := Lease(v.owner, now + v.ttl, Listeners(v), id)], stopped := s.stopped + replaced)
  }

  /** `Leases::release`: only the row with this serve's own flag is decremented, and at zero removed. */
  function OnRelease(s: State, id: nat, f: Family): State
    requires id in s.serves
  {
    var v := s.serves[id];
    var next := With(s, id, WithSocket(v, f, Released));
    if v.port in s.leases && s.leases[v.port].serve == id then
      var left := s.leases[v.port].listeners - 1;
      if left == 0 then next.(leases := s.leases - {v.port}, stopped := s.stopped + {id})
      else next.(leases := s.leases[v.port := s.leases[v.port].(listeners := left)])
    else next
  }

  function Overdue(s: State, now: nat): set<nat> {
    set port | port in s.leases && s.leases[port].deadline <= now :: s.leases[port].serve
  }

  function OnBindV6(v: Serve, result: BindResult): Serve {
    match result
    case BindOk => v.(v6 := Held, pc := Bound)
    case AddressInUse => v.(v4 := Released, pc := Done)
    case Unavailable => v.(pc := Bound)
  }

  ghost function Effect(s: State, step: Step): State
    requires Enabled(s, step)
  {
    match step
    case Begin(id, port, owner, ttl) => With(s, id, Serve(port, owner, ttl, Asked, Unbound, Unbound, false))
    case Refresh(id, now) => OnRefresh(s, id, now)
    case Wake(id) => With(s, id, s.serves[id].(pc := Binding))
    case BindV4(id, bound, ok) =>
      With(s, id, if ok then s.serves[id].(port := bound, v4 := Held, pc := BoundV4) else s.serves[id].(pc := Done))
    case BindV6(id, result) => With(s, id, OnBindV6(s.serves[id], result))
    case Insert(id, now) => OnInsert(s, id, now)
    case SpawnV4(id, ok) =>
      With(s, id, s.serves[id].(v4 := if ok then Accepting else Closed, pc := if ok then SpawnedV4 else V4NotSpawned))
    case SpawnV6(id, ok) =>
      With(s, id, if s.serves[id].v6.Held? then s.serves[id].(v6 := if ok then Accepting else Closed, pc := Done)
                  else s.serves[id].(pc := Done))
    case GiveUpV6(id) =>
      With(s, id, if s.serves[id].v6.Held? then s.serves[id].(v6 := Closed, pc := Done) else s.serves[id].(pc := Done))
    case AcceptFails(id, _) => s.(stopped := s.stopped + {id})
    case LoopExits(id, f) => With(s, id, WithSocket(s.serves[id], f, Closed))
    case Release(id, f) => OnRelease(s, id, f)
    case Reap(now) => s.(stopped := s.stopped + Overdue(s, now))
  }

  predicate Initial(s: State) { s == State(map[], map[], {}) }

  /**
   An IPv6 bind fails for a reason other than the address being in use only when
   no listener of ours has that address open (IPv6 is off, not out of descriptors).
   */
  ghost predicate Plausible(s: State, step: Step) {
    step.BindV6? && step.result.Unavailable? && step.id in s.serves ==> !PortOpen(s.serves, s.serves[step.id].port, V6)
  }

  // ---- The invariant ----

  function Unreleased(k: Socket): int { if k.Unbound? || k.Released? then 0 else 1 }

  /** Where each socket can be at each point of `serve_on`. */
  predicate Shape(v: Serve) {
    match v.pc
    case Asked => v.v4.Unbound? && v.v6.Unbound? && !v.installed
    case Waiting => v.v4.Unbound? && v.v6.Unbound? && !v.installed
    case Binding => v.v4.Unbound? && v.v6.Unbound? && !v.installed
    case BoundV4 => v.v4.Held? && v.v6.Unbound? && !v.installed
    case Bound => v.v4.Held? && (v.v6.Unbound? || v.v6.Held?) && !v.installed
    case Inserted => v.v4.Held? && (v.v6.Unbound? || v.v6.Held?) && v.installed
    case SpawnedV4 => !v.v4.Held? && !v.v4.Unbound? && (v.v6.Unbound? || v.v6.Held?) && v.installed
    case V4NotSpawned => (v.v4.Closed? || v.v4.Released?) && (v.v6.Unbound? || v.v6.Held?) && v.installed
    case Done => if v.installed then !v.v4.Held? && !v.v6.Held?
                 else (v.v4.Unbound? || v.v4.Released?) && v.v6.Unbound?
  }

  ghost predicate ShapesInv(serves: map<nat, Serve>) {
    forall id :: id in serves ==> Shape(serves[id])
  }

  predicate Clash(v: Serve, w: Serve, f: Family) {
    v.port == w.port && IsOpen(SocketOf(v, f)) && IsOpen(SocketOf(w, f))
  }

  /** At most one serve has a given address open. */
  ghost predicate BindsInv(serves: map<nat, Serve>) {
    forall id, other, f :: id in serves && other in serves && Clash(serves[id], serves[other], f) ==> id == other
  }

  /** A serve bound on IPv4 alone has that port's IPv6 side to itself too. */
  ghost predicate SoleInv(serves: map<nat, Serve>) {
    forall id :: id in serves && serves[id].pc.Bound? && serves[id].v6.Unbound? ==>
        !PortOpen(serves, serves[id].port, V6)
  }

  ghost predicate IsCurrent(leases: map<nat, Lease>, port: nat, id: nat) { port in leases && leases[port].serve == id }

  ghost predicate LeaseInv(lease: Lease, port: nat, serves: map<nat, Serve>) {
    && lease.serve in serves
    && var v := serves[lease.serve];
    && v.installed && v.port == port && v.owner == lease.owner
    && lease.listeners == Unreleased(v.v4) + Unreleased(v.v6)
    && lease.listeners >= 1
  }

  ghost predicate LeasesInv(leases: map<nat, Lease>, serves: map<nat, Serve>) {
    forall port :: port in leases ==> LeaseInv(leases[port], port, serves)
  }

  /** An installed serve with a socket open is its port's current lease. */
  ghost predicate OpenIsCurrent(leases: map<nat, Lease>, serves: map<nat, Serve>) {
    forall id :: id in serves && serves[id].installed && (IsOpen(serves[id].v4) || IsOpen(serves[id].v6)) ==>
                   IsCurrent(leases, serves[id].port, id)
  }

  ghost predicate Inv(s: State) {
    && ShapesInv(s.serves) && BindsInv(s.serves) && SoleInv(s.serves)
    && LeasesInv(s.leases, s.serves) && OpenIsCurrent(s.leases, s.serves)
  }
}
