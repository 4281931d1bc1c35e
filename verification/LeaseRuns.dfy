/** A callback port is served for one VM at a time, over every interleaving. */
module LeaseRuns {
  import opened Runs
  import opened Leases

  // ---- Changing one serve ----

  /** Nothing is opened, released or handed over. */
  predicate Narrows(v: Serve, w: Serve) {
    && Shape(w) && w.port == v.port && w.owner == v.owner && w.installed == v.installed
    && Unreleased(w.v4) == Unreleased(v.v4) && Unreleased(w.v6) == Unreleased(v.v6)
    && (IsOpen(w.v4) ==> IsOpen(v.v4)) && (IsOpen(w.v6) ==> IsOpen(v.v6))
    && (w.pc.Bound? ==> v.pc.Bound?)
  }

  lemma StillClosed(before: map<nat, Serve>, after: map<nat, Serve>, port: nat, f: Family)
    requires !PortOpen(before, port, f)
    requires forall id :: id in after && after[id].port == port && IsOpen(SocketOf(after[id], f)) ==>
                            id in before && before[id].port == port && IsOpen(SocketOf(before[id], f))
    ensures !PortOpen(after, port, f)
  {
    forall id | id in after
      ensures !(after[id].port == port && IsOpen(SocketOf(after[id], f)))
    {
      assert id in before ==> !(before[id].port == port && IsOpen(SocketOf(before[id], f)));
    }
  }

  /** Opening nothing breaks no bind and no sole claim. */
  lemma ShutKeepsBinds(serves: map<nat, Serve>, id: nat, w: Serve)
    requires BindsInv(serves) && SoleInv(serves) && id in serves && w.port == serves[id].port
    requires (IsOpen(w.v4) ==> IsOpen(serves[id].v4)) && (IsOpen(w.v6) ==> IsOpen(serves[id].v6))
    requires w.pc.Bound? && w.v6.Unbound? ==> !PortOpen(serves, w.port, V6)
    ensures BindsInv(serves[id := w]) && SoleInv(serves[id := w])
  {
    var after := serves[id := w];
    forall a, b, f | a in after && b in after && Clash(after[a], after[b], f)
      ensures a == b
    {
      assert Clash(serves[a], serves[b], f);
    }
    forall a | a in after && after[a].pc.Bound? && after[a].v6.Unbound?
      ensures !PortOpen(after, after[a].port, V6)
    {
      assert !PortOpen(serves, after[a].port, V6);
      StillClosed(serves, after, after[a].port, V6);
    }
  }

  lemma NarrowKeeps(s: State, id: nat, w: Serve)
    requires Inv(s) && id in s.serves && Narrows(s.serves[id], w)
    requires w.pc.Bound? ==> (w.v6.Unbound? ==> s.serves[id].v6.Unbound?)
    ensures Inv(With(s, id, w))
  {
    ShutKeepsBinds(s.serves, id, w);
    forall port | port in s.leases
      ensures LeaseInv(s.leases[port], port, s.serves[id := w])
    {
      assert LeaseInv(s.leases[port], port, s.serves);
    }
  }

  /** A stop flag decides nothing the invariant speaks of; nor does a deadline. */
  lemma FlagsAreFree(s: State, stopped: set<nat>)
    requires Inv(s)
    ensures Inv(s.(stopped := stopped))
  {
  }

  lemma RefreshKeeps(s: State, id: nat, now: nat)
    requires Inv(s) && Enabled(s, Refresh(id, now))
    ensures Inv(OnRefresh(s, id, now))
  {
    var v := s.serves[id];
    var after := OnRefresh(s, id, now);
    var moved := With(s, id, after.serves[id]);
    NarrowKeeps(s, id, after.serves[id]);
    forall port | port in after.leases
      ensures LeaseInv(after.leases[port], port, after.serves)
    {
      assert LeaseInv(moved.leases[port], port, moved.serves);
    }
  }

  // ---- Opening sockets ----

  lemma BeginKeeps(s: State, id: nat, v: Serve)
    requires Inv(s) && id !in s.serves && Shape(v) && v.pc.Asked?
    ensures Inv(With(s, id, v))
  {
    var after := s.serves[id := v];
    forall a, b, f | a in after && b in after && Clash(after[a], after[b], f)
      ensures a == b
    {
      assert a != id && b != id && Clash(s.serves[a], s.serves[b], f);
    }
    forall a | a in after && after[a].pc.Bound? && after[a].v6.Unbound?
      ensures !PortOpen(after, after[a].port, V6)
    {
      StillClosed(s.serves, after, after[a].port, V6);
    }
    forall port | port in s.leases
      ensures LeaseInv(s.leases[port], port, after)
    {
      assert LeaseInv(s.leases[port], port, s.serves);
    }
  }

  /** The kernel opened an address no serve had open. */
  lemma OpensAlone(serves: map<nat, Serve>, id: nat, w: Serve, f: Family)
    requires BindsInv(serves) && id in serves && !PortOpen(serves, w.port, f)
    requires forall g :: g != f && IsOpen(SocketOf(w, g)) ==>
             w.port == serves[id].port && IsOpen(SocketOf(serves[id], g))
    ensures BindsInv(serves[id := w])
  {
    var after := serves[id := w];
    forall a, b, g | a in after && b in after && Clash(after[a], after[b], g)
      ensures a == b
    {
      assert g == f && a != id ==> b != id;
      assert g == f && b != id ==> a != id;
      if g != f || a != id {
        assert Clash(serves[a], serves[b], g);
      }
    }
  }

  lemma UninstalledKeepsLeases(s: State, id: nat, w: Serve)
    requires Inv(s) && id in s.serves && !s.serves[id].installed && !w.installed
    ensures LeasesInv(s.leases, s.serves[id := w]) && OpenIsCurrent(s.leases, s.serves[id := w])
  {
    forall port | port in s.leases
      ensures LeaseInv(s.leases[port], port, s.serves[id := w])
    {
      assert LeaseInv(s.leases[port], port, s.serves);
    }
  }

  lemma BindV4Keeps(s: State, id: nat, bound: nat)
    requires Inv(s) && Enabled(s, BindV4(id, bound, true))
    ensures Inv(Effect(s, BindV4(id, bound, true)))
  {
    var w := s.serves[id].(port := bound, v4 := Held, pc := BoundV4);
    var after := s.serves[id := w];
    OpensAlone(s.serves, id, w, V4);
    forall a | a in after && after[a].pc.Bound? && after[a].v6.Unbound?
      ensures !PortOpen(after, after[a].port, V6)
    {
      StillClosed(s.serves, after, after[a].port, V6);
    }
    UninstalledKeepsLeases(s, id, w);
  }

  /** Another serve holding the same port open would clash on IPv4, so no sole claim is broken. */
  lemma BindV6OkKeeps(s: State, id: nat)
    requires Inv(s) && Enabled(s, BindV6(id, BindOk))
    ensures Inv(Effect(s, BindV6(id, BindOk)))
  {
    var w := s.serves[id].(v6 := Held, pc := Bound);
    var after := s.serves[id := w];
    OpensAlone(s.serves, id, w, V6);
    forall a | a in after && after[a].pc.Bound? && after[a].v6.Unbound?
      ensures !PortOpen(after, after[a].port, V6)
    {
      assert Shape(s.serves[a]) && Shape(s.serves[id]);
      assert !Clash(s.serves[a], s.serves[id], V4);
      StillClosed(s.serves, after, after[a].port, V6);
    }
    UninstalledKeepsLeases(s, id, w);
  }

  lemma BindV6UnavailableKeeps(s: State, id: nat)
    requires Inv(s) && Enabled(s, BindV6(id, Unavailable)) && Plausible(s, BindV6(id, Unavailable))
    ensures Inv(Effect(s, BindV6(id, Unavailable)))
  {
    var w := s.serves[id].(pc := Bound);
    ShutKeepsBinds(s.serves, id, w);
    UninstalledKeepsLeases(s, id, w);
  }

  lemma BindV6InUseKeeps(s: State, id: nat)
    requires Inv(s) && Enabled(s, BindV6(id, AddressInUse))
    ensures Inv(Effect(s, BindV6(id, AddressInUse)))
  {
    var w := s.serves[id].(v4 := Released, pc := Done);
    ShutKeepsBinds(s.serves, id, w);
    UninstalledKeepsLeases(s, id, w);
  }

  // ---- The lease row ----

  /** The inserting serve has both sides of its port to itself, so whatever row it replaces has no socket left open. */
  lemma InsertFindsNoneOpen(s: State, id: nat, other: nat, f: Family)
    requires Inv(s) && id in s.serves && s.serves[id].pc.Bound? && other in s.serves && other != id
    requires s.serves[other].port == s.serves[id].port
    ensures !IsOpen(SocketOf(s.serves[other], f))
  {
    assert Shape(s.serves[id]);
    assert !Clash(s.serves[id], s.serves[other], f);
    if f.V6? && s.serves[id].v6.Unbound? {
      assert !PortOpen(s.serves, s.serves[id].port, V6);
    }
  }

  lemma InsertKeeps(s: State, id: nat, now: nat)
    requires Inv(s) && Enabled(s, Insert(id, now))
    ensures Inv(OnInsert(s, id, now))
  {
    var v := s.serves[id];
    var w := v.(pc := Inserted, installed := true);
    var after := OnInsert(s, id, now);
    assert Shape(v);
    ShutKeepsBinds(s.serves, id, w);
    forall port | port in after.leases
      ensures LeaseInv(after.leases[port], port, after.serves)
    {
      assert port in s.leases ==> LeaseInv(s.leases[port], port, s.serves);
    }
    forall a | a in after.serves && after.serves[a].installed
               && (IsOpen(after.serves[a].v4) || IsOpen(after.serves[a].v6))
      ensures IsCurrent(after.leases, after.serves[a].port, a)
    {
      if a != id {
        assert IsCurrent(s.leases, s.serves[a].port, a);
        if s.serves[a].port == v.port {
          InsertFindsNoneOpen(s, id, a, V4);
          InsertFindsNoneOpen(s, id, a, V6);
        }
      }
    }
  }

  lemma ReleaseKeepsRows(s: State, id: nat, f: Family)
    requires Inv(s) && Enabled(s, Release(id, f))
    ensures LeasesInv(OnRelease(s, id, f).leases, OnRelease(s, id, f).serves)
  {
    var after := OnRelease(s, id, f);
    forall port | port in after.leases
      ensures LeaseInv(after.leases[port], port, after.serves)
    {
      assert LeaseInv(s.leases[port], port, s.serves);
    }
  }

  /** The row goes with its last unreleased listener, so a socket still open keeps its row. */
  lemma ReleaseKeepsCurrent(s: State, id: nat, f: Family)
    requires Inv(s) && Enabled(s, Release(id, f))
    ensures OpenIsCurrent(OnRelease(s, id, f).leases, OnRelease(s, id, f).serves)
  {
    var after := OnRelease(s, id, f);
    forall a | a in after.serves && after.serves[a].installed
               && (IsOpen(after.serves[a].v4) || IsOpen(after.serves[a].v6))
      ensures IsCurrent(after.leases, after.serves[a].port, a)
    {
      assert IsCurrent(s.leases, s.serves[a].port, a);
      assert LeaseInv(s.leases[s.serves[a].port], s.serves[a].port, s.serves);
    }
  }

  lemma ReleaseKeeps(s: State, id: nat, f: Family)
    requires Inv(s) && Enabled(s, Release(id, f))
    ensures Inv(OnRelease(s, id, f))
  {
    var w := WithSocket(s.serves[id], f, Released);
    assert Shape(s.serves[id]) && Shape(w);
    assert OnRelease(s, id, f).serves == s.serves[id := w];
    ShutKeepsBinds(s.serves, id, w);
    ReleaseKeepsRows(s, id, f);
    ReleaseKeepsCurrent(s, id, f);
  }

  lemma BindKeeps(s: State, step: Step)
    requires Inv(s) && Enabled(s, step) && Plausible(s, step) && (step.BindV4? || step.BindV6?)
    ensures Inv(Effect(s, step))
  {
    match step
    case BindV4(id, bound, ok) =>
      if ok { BindV4Keeps(s, id, bound); } else { NarrowKeeps(s, id, s.serves[id].(pc := Done)); }
    case BindV6(id, result) =>
      match result {
        case BindOk => BindV6OkKeeps(s, id);
        case AddressInUse => BindV6InUseKeeps(s, id);
        case Unavailable => BindV6UnavailableKeeps(s, id);
      }
  }

  /** Steps that only move a serve on or shut one of its sockets. */
  predicate IsNarrowing(step: Step) {
    step.Wake? || step.SpawnV4? || step.SpawnV6? || step.GiveUpV6? || step.LoopExits?
  }

  lemma NarrowingStep(s: State, step: Step)
    requires Enabled(s, step) && IsNarrowing(step) && Shape(s.serves[step.id])
    ensures step.id in Effect(s, step).serves
    ensures var w := Effect(s, step).serves[step.id];
            && Effect(s, step) == With(s, step.id, w) && Narrows(s.serves[step.id], w)
            && (w.pc.Bound? ==> (w.v6.Unbound? ==> s.serves[step.id].v6.Unbound?))
  {
  }

  lemma StepKeepsInv(s: State, step: Step)
    requires Inv(s) && Enabled(s, step) && Plausible(s, step)
    ensures Inv(Effect(s, step))
  {
    match step
    case Begin(id, port, owner, ttl) => BeginKeeps(s, id, Serve(port, owner, ttl, Asked, Unbound, Unbound, false));
    case Refresh(id, now) => RefreshKeeps(s, id, now);
    case BindV4(_, _, _) | BindV6(_, _) => BindKeeps(s, step);
    case Insert(id, now) => InsertKeeps(s, id, now);
    case Release(id, f) => ReleaseKeeps(s, id, f);
    case AcceptFails(id, _) => FlagsAreFree(s, s.stopped + {id});
    case Reap(now) => FlagsAreFree(s, s.stopped + Overdue(s, now));
    case Wake(_) | SpawnV4(_, _) | SpawnV6(_, _) | GiveUpV6(_) | LoopExits(_, _) =>
      assert Shape(s.serves[step.id]);
      NarrowingStep(s, step);
      NarrowKeeps(s, step.id, Effect(s, step).serves[step.id]);
  }

  // ---- Runs ----

  ghost predicate Next(s: State, step: Step, s': State) {
    Enabled(s, step) && Plausible(s, step) && s' == Effect(s, step)
  }

  ghost predicate IsRun(run: Run<State, Step>) { IsRunOf(run, Initial, Next) }

  lemma RunKeepsInv(run: Run<State, Step>, k: nat)
    requires IsRun(run) && k < |run.states|
    ensures Inv(run.states[k])
  {
    forall s, step, s' | Inv(s) && Next(s, step, s')
      ensures Inv(s')
    {
      StepKeepsInv(s, step);
    }
    Throughout(run, Initial, Next, Inv, k);
  }

  /** A row counts exactly its serve's unreleased listeners, and is never left at zero. */
  lemma RowCountsListeners(run: Run<State, Step>, k: nat, port: nat)
    requires IsRun(run) && k < |run.states| && port in run.states[k].leases
    ensures LeaseInv(run.states[k].leases[port], port, run.states[k].serves)
  {
    RunKeepsInv(run, k);
  }

  /** A row is removed or replaced only once every listener it stood for has been dropped. */
  lemma RowOutlivesListeners(run: Run<State, Step>, k: nat, port: nat)
    requires IsRun(run) && k < |run.steps| && port in run.states[k].leases
    requires !IsCurrent(run.states[k + 1].leases, port, run.states[k].leases[port].serve)
    ensures run.states[k].leases[port].serve in run.states[k].serves
    ensures !IsOpen(run.states[k].serves[run.states[k].leases[port].serve].v4)
    ensures !IsOpen(run.states[k].serves[run.states[k].leases[port].serve].v6)
  {
    RunKeepsInv(run, k);
    RunKeepsInv(run, k + 1);
    assert StepAt(run, Next, k);
    var s, step := run.states[k], run.steps[k];
    var id := s.leases[port].serve;
    assert LeaseInv(s.leases[port], port, s.serves);
    if step.Insert? {
      assert Shape(s.serves[step.id]);
      InsertFindsNoneOpen(s, step.id, id, V4);
      InsertFindsNoneOpen(s, step.id, id, V6);
    }
  }

  /** Every accepting listener is its port's current row's, so it relays to the recorded owner. */
  lemma AcceptingServesTheOwner(run: Run<State, Step>, k: nat, id: nat, f: Family)
    requires IsRun(run) && k < |run.states| && id in run.states[k].serves
    requires SocketOf(run.states[k].serves[id], f).Accepting?
    ensures IsCurrent(run.states[k].leases, run.states[k].serves[id].port, id)
    ensures run.states[k].leases[run.states[k].serves[id].port].owner == run.states[k].serves[id].owner
  {
    RunKeepsInv(run, k);
    var s := run.states[k];
    assert Shape(s.serves[id]);
    assert IsCurrent(s.leases, s.serves[id].port, id);
    assert LeaseInv(s.leases[s.serves[id].port], s.serves[id].port, s.serves);
  }

  /** So no port is ever served for two VMs at once. */
  lemma OneVmPerPort(run: Run<State, Step>, k: nat, id: nat, other: nat, f: Family, g: Family)
    requires IsRun(run) && k < |run.states| && id in run.states[k].serves && other in run.states[k].serves
    requires SocketOf(run.states[k].serves[id], f).Accepting? && SocketOf(run.states[k].serves[other], g).Accepting?
    requires run.states[k].serves[id].port == run.states[k].serves[other].port
    ensures id == other && run.states[k].serves[id].owner == run.states[k].serves[other].owner
  {
    AcceptingServesTheOwner(run, k, id, f);
    AcceptingServesTheOwner(run, k, other, g);
  }

  /** A row keeps its owner, never ends sooner, and is renewed only by a call of that owner. */
  lemma RowIsItsOwners(run: Run<State, Step>, k: nat, port: nat)
    requires IsRun(run) && k < |run.steps| && port in run.states[k].leases
    requires IsCurrent(run.states[k + 1].leases, port, run.states[k].leases[port].serve)
    ensures run.states[k + 1].leases[port].owner == run.states[k].leases[port].owner
    ensures run.states[k + 1].leases[port].deadline >= run.states[k].leases[port].deadline
    ensures run.states[k + 1].leases[port].deadline != run.states[k].leases[port].deadline ==>
              run.steps[k].Refresh? && run.steps[k].id in run.states[k].serves
              && run.states[k].serves[run.steps[k].id].owner == run.states[k].leases[port].owner
  {
    RunKeepsInv(run, k);
    assert StepAt(run, Next, k);
    var s, step := run.states[k], run.steps[k];
    assert LeaseInv(s.leases[port], port, s.serves);
    if step.Insert? { assert Shape(s.serves[step.id]); }
  }

  // ---- Where the IPv6 assumption is needed ----

  /**
   Going on without IPv6 is safe exactly when no listener has that port's IPv6
   side open: otherwise the row written next replaces one still being served.
   */
  lemma GoingOnWithoutV6SafeIff(s: State, id: nat, now: nat)
    requires Inv(s) && Enabled(s, BindV6(id, Unavailable))
    ensures Enabled(Effect(s, BindV6(id, Unavailable)), Insert(id, now))
    ensures var after := OnInsert(Effect(s, BindV6(id, Unavailable)), id, now);
            OpenIsCurrent(after.leases, after.serves) <==> !PortOpen(s.serves, s.serves[id].port, V6)
  {
    var next := Effect(s, BindV6(id, Unavailable));
    var after := OnInsert(next, id, now);
    var port := s.serves[id].port;
    assert Shape(s.serves[id]);
    if PortOpen(s.serves, port, V6) {
      var other :| other in s.serves && s.serves[other].port == port && IsOpen(SocketOf(s.serves[other], V6));
      assert Shape(s.serves[other]) && !Clash(s.serves[other], s.serves[id], V4);
      assert !IsCurrent(after.leases, after.serves[other].port, other);
    } else {
      BindV6UnavailableKeeps(s, id);
      InsertKeeps(next, id, now);
    }
  }

  function Late(pc: Pc, v4: Socket): Serve { Serve(5000, 20, 0, pc, v4, Unbound, false) }

  function Early(pc: Pc, v4: Socket, v6: Socket, installed: bool): Serve { Serve(5000, 10, 0, pc, v4, v6, installed) }

  /** The second VM's call finds no row; then the first VM's call binds both sides. */
  lemma BothVmsAsk() returns (run: Run<State, Step>)
    ensures IsRun(run)
    ensures EndOf(run) == State(map[2 := Late(Binding, Unbound), 1 := Early(Bound, Held, Held, false)], map[], {})
  {
    var late := Late(Binding, Unbound);
    run := Run([State(map[], map[], {})], []);
    run := Then(run, Initial, Next, Begin(2, 5000, 20, 0), State(map[2 := Late(Asked, Unbound)], map[], {}));
    run := Then(run, Initial, Next, Refresh(2, 0), State(map[2 := late], map[], {}));
    run := Then(run, Initial, Next, Begin(1, 5000, 10, 0),
                State(map[2 := late, 1 := Early(Asked, Unbound, Unbound, false)], map[], {}));
    run := Then(run, Initial, Next, Refresh(1, 0),
                State(map[2 := late, 1 := Early(Binding, Unbound, Unbound, false)], map[], {}));
    run := Then(run, Initial, Next, BindV4(1, 5000, true),
                State(map[2 := late, 1 := Early(BoundV4, Held, Unbound, false)], map[], {}));
    run := Then(run, Initial, Next, BindV6(1, BindOk),
                State(map[2 := late, 1 := Early(Bound, Held, Held, false)], map[], {}));
  }

  /** The first VM's port is served. */
  lemma FirstVmServes() returns (run: Run<State, Step>)
    ensures IsRun(run)
    ensures EndOf(run) == State(map[2 := Late(Binding, Unbound), 1 := Early(Done, Accepting, Accepting, true)],
                                 map[5000 := Lease(10, 0, 2, 1)], {})
  {
    var late, row := Late(Binding, Unbound), map[5000 := Lease(10, 0, 2, 1)];
    run := BothVmsAsk();
    run := Then(run, Initial, Next, Insert(1, 0),
                State(map[2 := late, 1 := Early(Inserted, Held, Held, true)], row, {}));
    run := Then(run, Initial, Next, SpawnV4(1, true),
                State(map[2 := late, 1 := Early(SpawnedV4, Accepting, Held, true)], row, {}));
    run := Then(run, Initial, Next, SpawnV6(1, true),
                State(map[2 := late, 1 := Early(Done, Accepting, Accepting, true)], row, {}));
  }

  /** Its IPv4 accept loop fails and the second VM's call binds that side. */
  lemma SecondVmBindsV4() returns (run: Run<State, Step>)
    ensures IsRun(run)
    ensures EndOf(run) == State(map[2 := Late(BoundV4, Held), 1 := Early(Done, Closed, Accepting, true)],
                                 map[5000 := Lease(10, 0, 2, 1)], {1})
  {
    var late, row := Late(Binding, Unbound), map[5000 := Lease(10, 0, 2, 1)];
    run := FirstVmServes();
    run := Then(run, Initial, Next, AcceptFails(1, V4),
                State(map[2 := late, 1 := Early(Done, Accepting, Accepting, true)], row, {1}));
    run := Then(run, Initial, Next, LoopExits(1, V4),
                State(map[2 := late, 1 := Early(Done, Closed, Accepting, true)], row, {1}));
    run := Then(run, Initial, Next, BindV4(2, 5000, true),
                State(map[2 := Late(BoundV4, Held), 1 := Early(Done, Closed, Accepting, true)], row, {1}));
  }

  /**
   Without the assumption the guarantee fails. A second VM's call, past its
   refresh before the first VM's row existed, binds IPv4 after that side's
   accept loop failed, cannot bind IPv6 for want of a descriptor, and takes the
   row while the first VM's IPv6 listener still accepts; then its own IPv4
   listener accepts on the same port.
   */
  lemma TwoVmsOnOnePort() returns (run: Run<State, Step>, bound: State, taken: State, end: State)
    ensures IsRun(run) && !Plausible(EndOf(run), BindV6(2, Unavailable))
    ensures Enabled(EndOf(run), BindV6(2, Unavailable)) && bound == Effect(EndOf(run), BindV6(2, Unavailable))
    ensures Enabled(bound, Insert(2, 0)) && taken == Effect(bound, Insert(2, 0))
    ensures Enabled(taken, SpawnV4(2, true)) && end == Effect(taken, SpawnV4(2, true))
    ensures {1, 2} <= end.serves.Keys && end.serves[1].v6.Accepting? && end.serves[2].v4.Accepting?
    ensures end.serves[1].port == end.serves[2].port && end.serves[1].owner != end.serves[2].owner
    ensures end.serves[1].port in end.leases && end.leases[end.serves[1].port].owner == end.serves[2].owner
  {
    run := SecondVmBindsV4();
    assert IsOpen(SocketOf(EndOf(run).serves[1], V6));
    bound := Effect(EndOf(run), BindV6(2, Unavailable));
    taken := Effect(bound, Insert(2, 0));
    end := Effect(taken, SpawnV4(2, true));
  }
}
