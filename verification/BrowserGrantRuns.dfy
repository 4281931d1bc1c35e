/** Safety of the browser-grant registry over every interleaving, and freedom from deadlock. */
module BrowserGrantRuns {
  import opened Base
  import opened Runs
  import Authority
  import opened BrowserGrants

  // ---- The invariant ----

  ghost predicate Exclusive(threads: map<nat, Pc>, m: Mutex) {
    forall t, u :: t in threads && u in threads && Holds(threads[t], m) && Holds(threads[u], m) ==> t == u
  }

  ghost predicate MutexInv(threads: map<nat, Pc>) {
    forall m :: Exclusive(threads, m)
  }

  /** The authority changed and the grants made under the old one are still to be drained. */
  predicate Owes(pc: Pc) { pc.RevokeOwed? || pc.RevokePipesHeld? }

  ghost predicate NoneOwe(threads: map<nat, Pc>) {
    forall t :: t in threads ==> !Owes(threads[t])
  }

  ghost predicate AuthorityInv(authority: Option<Authority.Pair>, grants: map<nat, Grant>, threads: map<nat, Pc>) {
    && (NoneOwe(threads) ==> forall id :: id in grants ==> authority == Some(grants[id].under))
    && (forall t :: t in threads && threads[t].InsertChecked? ==> authority == Some(threads[t].under))
  }

  /** A thread that has emptied a grant's row and not yet its pipes. */
  predicate Exposes(pc: Pc, id: nat) { pc.RevokeDrained? || (pc.ExpireScrubbed? && pc.id == id) }

  ghost predicate Exposed(threads: map<nat, Pc>, id: nat) {
    exists t :: t in threads && Exposes(threads[t], id)
  }

  ghost predicate TableInv(pipes: map<nat, seq<nat>>, grants: map<nat, Grant>, threads: map<nat, Pc>) {
    forall id :: id in pipes ==> id in grants || Exposed(threads, id)
  }

  function InHand(pc: Pc): set<nat> {
    match pc
    case RevokeEnding(severed, _) => severed
    case ExpireEnding(severed, _) => severed
    case _ => {}
  }

  function Controls(pc: Pc): set<nat> {
    match pc
    case RevokeDrained(controls) => controls
    case RevokeEnding(_, controls) => controls
    case ExpireScrubbed(_, controls) => controls
    case ExpireEnding(_, controls) => controls
    case _ => {}
  }

  ghost predicate BeingShut(threads: map<nat, Pc>, pipe: nat) {
    exists t :: t in threads && pipe in InHand(threads[t])
  }

  ghost predicate BeingEnded(threads: map<nat, Pc>, id: nat) {
    exists t :: t in threads && id in Controls(threads[t])
  }

  ghost predicate InTable(pipes: map<nat, seq<nat>>, id: nat, pipe: nat) { id in pipes && pipe in pipes[id] }

  /** A registered pipe is in the table under its grant, finished, shut down, or about to be. */
  ghost predicate PipeAccounted(s: State, pipe: nat)
    requires pipe in s.registered
  {
    || InTable(s.pipes, s.registered[pipe], pipe)
    || pipe in s.finished
    || pipe in s.shut
    || BeingShut(s.threads, pipe)
  }

  ghost predicate GrantAccounted(s: State, id: nat) {
    id in s.grants || id in s.ended || BeingEnded(s.threads, id)
  }

  ghost predicate PipesInv(s: State) {
    forall pipe :: pipe in s.registered ==> PipeAccounted(s, pipe)
  }

  ghost predicate ControlsInv(s: State) {
    forall id :: id in s.inserted ==> GrantAccounted(s, id)
  }

  /** A guard is dropped only once its pipe has ended. */
  ghost predicate DropsInv(threads: map<nat, Pc>, finished: set<nat>) {
    forall t :: t in threads && threads[t].Dropping? ==> threads[t].pipe in finished
  }

  ghost predicate Inv(s: State) {
    && DropsInv(s.threads, s.finished)
    && MutexInv(s.threads)
    && AuthorityInv(s.authority, s.grants, s.threads)
    && TableInv(s.pipes, s.grants, s.threads)
    && PipesInv(s)
    && ControlsInv(s)
  }

  // ---- Mutual exclusion ----

  /** Which position an action can lead to. */
  predicate Follows(pc: Pc, next: Pc) {
    match pc
    case Idle => false
    case Inserting(_, _) => next.Idle? || next.InsertChecked?
    case Changing(_) => next.Idle? || next.RevokeOwed?
    case RevokeOwed => next.RevokePipesHeld?
    case RevokePipesHeld => next.RevokeDrained?
    case RevokeDrained(_) => next.RevokeEnding?
    case Expiring(_) => next.ExpirePipesHeld?
    case ExpirePipesHeld(_) => next.ExpireScrubbed?
    case ExpireScrubbed(_, _) => next.ExpireEnding?
    case Asking(_) => next.Idle? || next.Expiring?
    case Registering(_) => next.RegisterPipesHeld?
    case _ => next.Idle?
  }

  /** A thread gains only the mutex it wanted. */
  lemma GainsOnlyWanted(pc: Pc, next: Pc, m: Mutex)
    requires Follows(pc, next) && Holds(next, m) && !Holds(pc, m)
    ensures Wants(pc) == Some(m)
  {
  }

  lemma MoveExcludes(threads: map<nat, Pc>, t: nat, next: Pc)
    requires MutexInv(threads)
    requires t in threads ==> threads[t].Idle? || Follows(threads[t], next)
    requires (t !in threads || threads[t].Idle?) ==> forall m :: !Holds(next, m)
    requires t in threads && Wants(threads[t]).Some? ==>
               forall u :: u in threads ==> !Holds(threads[u], Wants(threads[t]).value)
    ensures MutexInv(threads[t := next])
  {
    var after := threads[t := next];
    forall m
      ensures Exclusive(after, m)
    {
      assert Exclusive(threads, m);
      if t in threads && Follows(threads[t], next) && Holds(next, m) && !Holds(threads[t], m) {
        GainsOnlyWanted(threads[t], next, m);
      }
    }
  }

  /** The thread may take its next action. */
  ghost predicate Ready(s: State, t: nat) {
    t in s.threads && (Wants(s.threads[t]).Some? ==> IsFree(s, Wants(s.threads[t]).value))
  }

  // ---- What a change of one thread's position preserves ----

  lemma ShutFrame(threads: map<nat, Pc>, t: nat, next: Pc, pipe: nat)
    requires BeingShut(threads, pipe)
    requires t in threads ==> InHand(threads[t]) <= InHand(next)
    ensures BeingShut(threads[t := next], pipe)
  {
    var u :| u in threads && pipe in InHand(threads[u]);
    assert u in threads[t := next] && pipe in InHand(threads[t := next][u]);
  }

  lemma EndedFrame(threads: map<nat, Pc>, t: nat, next: Pc, id: nat)
    requires BeingEnded(threads, id)
    requires t in threads ==> Controls(threads[t]) <= Controls(next)
    ensures BeingEnded(threads[t := next], id)
  {
    var u :| u in threads && id in Controls(threads[u]);
    assert u in threads[t := next] && id in Controls(threads[t := next][u]);
  }

  lemma ExposedFrame(threads: map<nat, Pc>, t: nat, next: Pc, id: nat)
    requires Exposed(threads, id)
    requires t in threads && Exposes(threads[t], id) ==> Exposes(next, id)
    ensures Exposed(threads[t := next], id)
  {
    var u :| u in threads && Exposes(threads[u], id);
    assert u in threads[t := next] && Exposes(threads[t := next][u], id);
  }

  lemma OweFrame(threads: map<nat, Pc>, t: nat, next: Pc)
    requires NoneOwe(threads[t := next])
    requires t in threads && Owes(threads[t]) ==> Owes(next)
    ensures NoneOwe(threads)
  {
    forall u | u in threads
      ensures !Owes(threads[u])
    {
      assert !Owes(threads[t := next][u]);
    }
  }

  /** A move that lets go of nothing it was to shut, end, drain or cover. */
  lemma MoveKeeps(s: State, t: nat, next: Pc)
    requires Inv(s) && MutexInv(s.threads[t := next])
    requires t in s.threads ==>
               && InHand(s.threads[t]) <= InHand(next) && Controls(s.threads[t]) <= Controls(next)
               && !s.threads[t].RevokeDrained? && !s.threads[t].ExpireScrubbed?
               && (Owes(s.threads[t]) ==> Owes(next))
    requires next.InsertChecked? ==> s.authority == Some(next.under)
    requires next.Dropping? ==> next.pipe in s.finished
    ensures Inv(At(s, t, next))
  {
    var after := At(s, t, next);
    if NoneOwe(after.threads) { OweFrame(s.threads, t, next); }
    forall id | id in s.pipes
      ensures id in s.grants || Exposed(after.threads, id)
    {
      if id !in s.grants { ExposedFrame(s.threads, t, next, id); }
    }
    forall pipe | pipe in s.registered
      ensures PipeAccounted(after, pipe)
    {
      assert PipeAccounted(s, pipe);
      if BeingShut(s.threads, pipe) { ShutFrame(s.threads, t, next, pipe); }
    }
    forall id | id in s.inserted
      ensures GrantAccounted(after, id)
    {
      assert GrantAccounted(s, id);
      if BeingEnded(s.threads, id) { EndedFrame(s.threads, t, next, id); }
    }
  }

  // ---- The actions ----

  /** Actions that only move the thread. */
  lemma PlainKeeps(s: State, t: nat, next: Pc)
    requires Inv(s) && Ready(s, t) && Follows(s.threads[t], next)
    requires InHand(s.threads[t]) == {} && Controls(s.threads[t]) == {}
    requires !s.threads[t].RevokeDrained? && !s.threads[t].ExpireScrubbed? && (Owes(s.threads[t]) ==> Owes(next))
    requires next.InsertChecked? ==> s.authority == Some(next.under)
    requires next.Dropping? ==> next.pipe in s.finished
    ensures Inv(At(s, t, next))
  {
    MoveExcludes(s.threads, t, next);
    MoveKeeps(s, t, next);
  }

  lemma CallKeeps(s: State, t: nat, pc: Pc)
    requires Inv(s) && Enabled(s, Call(t, pc))
    ensures Inv(Effect(s, Call(t, pc)))
  {
    var next := s.(finished := if pc.Dropping? then s.finished + {pc.pipe} else s.finished);
    assert PipesInv(next) by {
      forall pipe | pipe in s.registered
        ensures PipeAccounted(next, pipe)
      {
        assert PipeAccounted(s, pipe);
      }
    }
    assert ControlsInv(next) by {
      forall id | id in s.inserted
        ensures GrantAccounted(next, id)
      {
        assert GrantAccounted(s, id);
      }
    }
    MoveExcludes(s.threads, t, pc);
    MoveKeeps(next, t, pc);
    assert Effect(s, Call(t, pc)) == At(next, t, pc);
  }

  lemma InsertKeeps(s: State, t: nat)
    requires Inv(s) && Ready(s, t) && s.threads[t].InsertChecked?
    ensures Inv(OnInsertChecked(s, t, s.threads[t].under, s.threads[t].deadline))
  {
    var before := At(s, t, Idle);
    PlainKeeps(s, t, Idle);
    var after := OnInsertChecked(s, t, s.threads[t].under, s.threads[t].deadline);
    forall pipe | pipe in s.registered
      ensures PipeAccounted(after, pipe)
    {
      assert PipeAccounted(before, pipe);
    }
    forall id | id in after.inserted
      ensures GrantAccounted(after, id)
    {
      assert id in before.inserted ==> GrantAccounted(before, id);
    }
    forall id | id in after.pipes
      ensures id in after.grants || Exposed(after.threads, id)
    {
      assert id in before.grants || Exposed(before.threads, id);
    }
  }

  /** With the authority mutex free no revocation is owed, so only a changed authority needs one. */
  lemma ChangeKeeps(s: State, t: nat)
    requires Inv(s) && Ready(s, t) && s.threads[t].Changing?
    ensures Inv(OnChanging(s, t, s.threads[t].next))
  {
    var after := OnChanging(s, t, s.threads[t].next);
    var pc := after.threads[t];
    PlainKeeps(s, t, pc);
    var before := At(s, t, pc);
    assert NoneOwe(s.threads) by {
      forall u | u in s.threads
        ensures !Owes(s.threads[u])
      {
        assert !Holds(s.threads[u], AuthorityMutex);
      }
    }
    assert AuthorityInv(after.authority, after.grants, after.threads) by {
      forall u | u in after.threads
        ensures !after.threads[u].InsertChecked?
      {
        assert u != t ==> !Holds(s.threads[u], AuthorityMutex);
      }
      assert pc.RevokeOwed? ==> Owes(after.threads[t]);
    }
    SameAccounts(before, after);
  }

  /** The observed authority plays no part in where pipes and control channels are. */
  lemma SameAccounts(before: State, after: State)
    requires PipesInv(before) && ControlsInv(before)
    requires after == before.(authority := after.authority)
    ensures PipesInv(after) && ControlsInv(after)
  {
    forall pipe | pipe in after.registered
      ensures PipeAccounted(after, pipe)
    {
      assert PipeAccounted(before, pipe);
    }
    forall id | id in after.inserted
      ensures GrantAccounted(after, id)
    {
      assert GrantAccounted(before, id);
    }
  }

  lemma RevokeDrainKeeps(s: State, t: nat)
    requires Inv(s) && Ready(s, t) && s.threads[t].RevokePipesHeld?
    ensures Inv(OnRevokeDrain(s, t))
  {
    var after := OnRevokeDrain(s, t);
    var pc := after.threads[t];
    MoveExcludes(s.threads, t, pc);
    assert t in after.threads && forall id :: Exposes(after.threads[t], id);
    forall pipe | pipe in s.registered
      ensures PipeAccounted(after, pipe)
    {
      assert PipeAccounted(s, pipe);
      if BeingShut(s.threads, pipe) { ShutFrame(s.threads, t, pc, pipe); }
    }
    forall id | id in s.inserted
      ensures GrantAccounted(after, id)
    {
      assert GrantAccounted(s, id);
      if id in s.grants {
        assert id in Controls(after.threads[t]);
      } else if BeingEnded(s.threads, id) {
        EndedFrame(s.threads, t, pc, id);
      }
    }
  }

  lemma RevokeTakeKeeps(s: State, t: nat)
    requires Inv(s) && Ready(s, t) && s.threads[t].RevokeDrained?
    ensures Inv(OnRevokeDrained(s, t, s.threads[t].controls))
  {
    var after := OnRevokeDrained(s, t, s.threads[t].controls);
    var pc := after.threads[t];
    MoveExcludes(s.threads, t, pc);
    if NoneOwe(after.threads) { OweFrame(s.threads, t, pc); }
    forall pipe | pipe in s.registered
      ensures PipeAccounted(after, pipe)
    {
      assert PipeAccounted(s, pipe);
      if InTable(s.pipes, s.registered[pipe], pipe) {
        assert pipe in InHand(after.threads[t]);
      } else if BeingShut(s.threads, pipe) {
        ShutFrame(s.threads, t, pc, pipe);
      }
    }
    forall id | id in s.inserted
      ensures GrantAccounted(after, id)
    {
      assert GrantAccounted(s, id);
      if BeingEnded(s.threads, id) { EndedFrame(s.threads, t, pc, id); }
    }
  }

  lemma ScrubKeeps(s: State, t: nat)
    requires Inv(s) && Ready(s, t) && s.threads[t].ExpirePipesHeld?
    ensures Inv(OnScrub(s, t, s.threads[t].id))
  {
    var gone := s.threads[t].id;
    var after := OnScrub(s, t, gone);
    var pc := after.threads[t];
    MoveExcludes(s.threads, t, pc);
    if NoneOwe(after.threads) { OweFrame(s.threads, t, pc); }
    forall id | id in s.pipes
      ensures id in after.grants || Exposed(after.threads, id)
    {
      if id == gone {
        assert Exposes(after.threads[t], id);
      } else if id !in s.grants {
        ExposedFrame(s.threads, t, pc, id);
      }
    }
    forall pipe | pipe in s.registered
      ensures PipeAccounted(after, pipe)
    {
      assert PipeAccounted(s, pipe);
      if BeingShut(s.threads, pipe) { ShutFrame(s.threads, t, pc, pipe); }
    }
    forall id | id in s.inserted
      ensures GrantAccounted(after, id)
    {
      assert GrantAccounted(s, id);
      if id == gone && id in s.grants {
        assert id in Controls(after.threads[t]);
      } else if BeingEnded(s.threads, id) {
        EndedFrame(s.threads, t, pc, id);
      }
    }
  }

  lemma UnpipeKeeps(s: State, t: nat)
    requires Inv(s) && Ready(s, t) && s.threads[t].ExpireScrubbed?
    ensures Inv(OnScrubbed(s, t, s.threads[t].id, s.threads[t].controls))
  {
    var gone := s.threads[t].id;
    var after := OnScrubbed(s, t, gone, s.threads[t].controls);
    var pc := after.threads[t];
    MoveExcludes(s.threads, t, pc);
    if NoneOwe(after.threads) { OweFrame(s.threads, t, pc); }
    forall id | id in after.pipes
      ensures id in after.grants || Exposed(after.threads, id)
    {
      if id !in s.grants { ExposedFrame(s.threads, t, pc, id); }
    }
    forall pipe | pipe in s.registered
      ensures PipeAccounted(after, pipe)
    {
      assert PipeAccounted(s, pipe);
      if InTable(s.pipes, s.registered[pipe], pipe) {
        if s.registered[pipe] == gone {
          assert pipe in InHand(after.threads[t]);
        }
      } else if BeingShut(s.threads, pipe) {
        ShutFrame(s.threads, t, pc, pipe);
      }
    }
    forall id | id in s.inserted
      ensures GrantAccounted(after, id)
    {
      assert GrantAccounted(s, id);
      if BeingEnded(s.threads, id) { EndedFrame(s.threads, t, pc, id); }
    }
  }

  lemma EndingKeeps(s: State, t: nat)
    requires Inv(s) && Ready(s, t) && (s.threads[t].RevokeEnding? || s.threads[t].ExpireEnding?)
    ensures Inv(OnEnding(s, t, s.threads[t].severed, s.threads[t].controls))
  {
    var after := OnEnding(s, t, s.threads[t].severed, s.threads[t].controls);
    MoveExcludes(s.threads, t, Idle);
    if NoneOwe(after.threads) { OweFrame(s.threads, t, Idle); }
    forall id | id in after.pipes
      ensures id in after.grants || Exposed(after.threads, id)
    {
      if id !in s.grants { ExposedFrame(s.threads, t, Idle, id); }
    }
    forall pipe | pipe in s.registered
      ensures PipeAccounted(after, pipe)
    {
      assert PipeAccounted(s, pipe);
      if BeingShut(s.threads, pipe) {
        var u :| u in s.threads && pipe in InHand(s.threads[u]);
        assert u != t ==> u in after.threads && pipe in InHand(after.threads[u]);
      }
    }
    forall id | id in s.inserted
      ensures GrantAccounted(after, id)
    {
      assert GrantAccounted(s, id);
      if BeingEnded(s.threads, id) {
        var u :| u in s.threads && id in Controls(s.threads[u]);
        assert u != t ==> u in after.threads && id in Controls(after.threads[u]);
      }
    }
  }

  /** The grant was seen live under the grants mutex, and no ending can take it without the pipes mutex. */
  lemma RegisterKeeps(s: State, t: nat, cloned: bool)
    requires Inv(s) && Ready(s, t) && s.threads[t].RegisterPipesHeld?
    ensures Inv(OnRegister(s, t, s.threads[t].id, cloned))
  {
    var before := At(s, t, Idle);
    PlainKeeps(s, t, Idle);
    var after := OnRegister(s, t, s.threads[t].id, cloned);
    forall id | id in after.pipes
      ensures id in after.grants || Exposed(after.threads, id)
    {
      assert id in before.pipes ==> id in before.grants || Exposed(before.threads, id);
    }
    forall pipe | pipe in after.registered
      ensures PipeAccounted(after, pipe)
    {
      assert pipe in before.registered ==> PipeAccounted(before, pipe);
    }
    forall id | id in after.inserted
      ensures GrantAccounted(after, id)
    {
      assert GrantAccounted(before, id);
    }
  }

  lemma DropKeeps(s: State, t: nat)
    requires Inv(s) && Ready(s, t) && s.threads[t].Dropping?
    ensures Inv(OnDropping(s, t, s.threads[t].id, s.threads[t].pipe))
  {
    var before := At(s, t, Idle);
    PlainKeeps(s, t, Idle);
    var after := OnDropping(s, t, s.threads[t].id, s.threads[t].pipe);
    forall id | id in after.pipes
      ensures id in after.grants || Exposed(after.threads, id)
    {
      assert id in before.grants || Exposed(before.threads, id);
    }
    forall pipe | pipe in after.registered
      ensures PipeAccounted(after, pipe)
    {
      assert PipeAccounted(before, pipe);
    }
    forall id | id in after.inserted
      ensures GrantAccounted(after, id)
    {
      assert GrantAccounted(before, id);
    }
  }

  lemma AdvanceKeeps(s: State, t: nat, now: nat, cloned: bool)
    requires Inv(s) && Ready(s, t) && !s.threads[t].Idle?
    ensures Inv(OnAdvance(s, t, now, cloned))
  {
    match s.threads[t]
    case Inserting(under, deadline) => PlainKeeps(s, t, OnInserting(s, t, under, deadline, cloned).threads[t]);
    case InsertChecked(_, _) => InsertKeeps(s, t);
    case Changing(_) => ChangeKeeps(s, t);
    case RevokeOwed => PlainKeeps(s, t, RevokePipesHeld);
    case RevokePipesHeld => RevokeDrainKeeps(s, t);
    case RevokeDrained(_) => RevokeTakeKeeps(s, t);
    case RevokeEnding(_, _) => EndingKeeps(s, t);
    case Expiring(id) => PlainKeeps(s, t, ExpirePipesHeld(id));
    case ExpirePipesHeld(_) => ScrubKeeps(s, t);
    case ExpireScrubbed(_, _) => UnpipeKeeps(s, t);
    case ExpireEnding(_, _) => EndingKeeps(s, t);
    case Asking(id) => PlainKeeps(s, t, OnAsking(s, t, id, now).threads[t]);
    case Registering(id) => PlainKeeps(s, t, RegisterPipesHeld(id));
    case RegisterPipesHeld(_) => RegisterKeeps(s, t, cloned);
    case Dropping(_, _) => DropKeeps(s, t);
  }

  lemma StepKeepsInv(s: State, step: Step)
    requires Inv(s) && Enabled(s, step)
    ensures Inv(Effect(s, step))
  {
    match step
    case Call(t, pc) => CallKeeps(s, t, pc);
    case Advance(t, now, cloned) => AdvanceKeeps(s, t, now, cloned);
  }

  // ---- Runs ----

  ghost predicate Next(s: State, step: Step, s': State) { Enabled(s, step) && s' == Effect(s, step) }

  ghost predicate IsRun(run: Run<State, Step>) { IsRunOf(run, Initial, Next) }

  lemma RunKeepsInv(run: Run<State, Step>, k: nat)
    requires IsRun(run) && k < |run.states|
    ensures Inv(run.states[k])
  {
    forall s, step, s' | Inv(s) && Next(s, step, s')
      ensures Inv(s')
    {
      StepKeepsInv(s, step);
    }
    Throughout(run, Initial, Next, Inv, k);
  }

  /** Whenever the authority mutex is free, every live grant was inserted under the observed authority. */
  lemma LiveGrantsMatchAuthority(run: Run<State, Step>, k: nat, id: nat)
    requires IsRun(run) && k < |run.states| && IsFree(run.states[k], AuthorityMutex)
    requires id in run.states[k].grants
    ensures run.states[k].authority == Some(run.states[k].grants[id].under)
  {
    RunKeepsInv(run, k);
    var s := run.states[k];
    forall t | t in s.threads
      ensures !Owes(s.threads[t])
    {
      assert !Holds(s.threads[t], AuthorityMutex);
    }
  }

  /** Whenever the pipes mutex is free, every row of the pipe table belongs to a live grant. */
  lemma PipesServeLiveGrants(run: Run<State, Step>, k: nat, id: nat)
    requires IsRun(run) && k < |run.states| && IsFree(run.states[k], PipesMutex)
    requires id in run.states[k].pipes
    ensures id in run.states[k].grants
  {
    RunKeepsInv(run, k);
    var s := run.states[k];
    forall t | t in s.threads
      ensures !Exposes(s.threads[t], id)
    {
      assert !Holds(s.threads[t], PipesMutex);
    }
  }

  /** Every pipe of an ended grant has finished, been shut down, or is in the hands of a thread shutting it down. */
  lemma EndedGrantSeversItsPipes(run: Run<State, Step>, k: nat, pipe: nat)
    requires IsRun(run) && k < |run.states| && IsFree(run.states[k], PipesMutex)
    requires pipe in run.states[k].registered && run.states[k].registered[pipe] !in run.states[k].grants
    ensures pipe in run.states[k].finished || pipe in run.states[k].shut || BeingShut(run.states[k].threads, pipe)
  {
    RunKeepsInv(run, k);
    assert PipeAccounted(run.states[k], pipe);
    var id := run.states[k].registered[pipe];
    if id in run.states[k].pipes { PipesServeLiveGrants(run, k, id); }
  }

  /** Once no call is under way, an ended grant has no open pipe and no open control channel. */
  lemma QuietRegistryIsClean(run: Run<State, Step>, k: nat)
    requires IsRun(run) && k < |run.states|
    requires forall t :: t in run.states[k].threads ==> run.states[k].threads[t].Idle?
    ensures var s := run.states[k];
            && (forall pipe :: pipe in s.registered && s.registered[pipe] !in s.grants ==>
                                 pipe in s.finished || pipe in s.shut)
            && (forall id :: id in s.inserted && id !in s.grants ==> id in s.ended)
  {
    RunKeepsInv(run, k);
    var s := run.states[k];
    forall pipe | pipe in s.registered && s.registered[pipe] !in s.grants
      ensures pipe in s.finished || pipe in s.shut
    {
      EndedGrantSeversItsPipes(run, k, pipe);
    }
    forall id | id in s.inserted && id !in s.grants
      ensures id in s.ended
    {
      assert GrantAccounted(s, id);
    }
  }

  // ---- Deadlock freedom ----

  /** The mutexes are ordered, and a thread wants only mutexes after all it holds. */
  function Rank(m: Mutex): nat {
    match m
    case AuthorityMutex => 0
    case PipesMutex => 1
    case GrantsMutex => 2
  }

  lemma WantsUpward(pc: Pc, held: Mutex)
    requires Holds(pc, held) && Wants(pc).Some?
    ensures Rank(held) < Rank(Wants(pc).value)
  {
  }

  /** From any busy thread, following who holds what it wants reaches a thread that can act. */
  lemma {:induction false} SomeoneCanAct(s: State, t: nat) returns (u: nat)
    requires t in s.threads && !s.threads[t].Idle?
    ensures Enabled(s, Advance(u, 0, true))
    decreases if Wants(s.threads[t]).Some? then 3 - Rank(Wants(s.threads[t]).value) else 0
  {
    u := t;
    if Wants(s.threads[t]).Some? && !IsFree(s, Wants(s.threads[t]).value) {
      var holder :| holder in s.threads && Holds(s.threads[holder], Wants(s.threads[t]).value);
      if Wants(s.threads[holder]).Some? {
        WantsUpward(s.threads[holder], Wants(s.threads[t]).value);
      }
      u := SomeoneCanAct(s, holder);
    }
  }

  /** No state, reachable or not, in which a call is under way and nothing can move. */
  lemma NeverDeadlocks(s: State)
    requires exists t :: t in s.threads && !s.threads[t].Idle?
    ensures exists u :: Enabled(s, Advance(u, 0, true))
  {
    var t :| t in s.threads && !s.threads[t].Idle?;
    var u := SomeoneCanAct(s, t);
    assert Enabled(s, Advance(u, 0, true));
  }
}
