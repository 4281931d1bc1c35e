/**
 What makes a browser grant appear and end, and which pipes that shuts: the exact
 answers of the registry's calls, over every interleaving.
 */
module BrowserGrantCauses {
  import opened Base
  import opened Runs
  import Authority
  import opened BrowserGrants
  import opened BrowserGrantRuns

  predicate IsAt(s: State, t: nat, pc: Pc) { t in s.threads && s.threads[t] == pc }

  /** The step is this thread's next action. */
  predicate Acts(s: State, step: Step, t: nat) { step.Advance? && step.thread == t && t in s.threads }

  /** Positions inside a revocation or an expiry. */
  predicate TearsDown(pc: Pc) {
    || pc.RevokeOwed? || pc.RevokePipesHeld? || pc.RevokeDrained? || pc.RevokeEnding?
    || pc.Expiring? || pc.ExpirePipesHeld? || pc.ExpireScrubbed? || pc.ExpireEnding?
  }

  /** Grants, insertions and pipes come only with the next id, which then is used up. */
  predicate Issues(s: State, after: State) {
    var issued: set<nat> := if after.nextId == s.nextId then {} else {s.nextId};
    && s.nextId <= after.nextId <= s.nextId + 1
    && after.grants.Keys <= s.grants.Keys + issued && after.inserted <= s.inserted + issued
    && after.registered.Keys <= s.registered.Keys + issued
  }

  lemma TeardownFrame(s: State, t: nat, now: nat, cloned: bool) returns (pc: Pc)
    requires t in s.threads && TearsDown(s.threads[t])
    ensures var after := OnAdvance(s, t, now, cloned);
            && after.threads == s.threads[t := pc] && after.authority == s.authority && Issues(s, after)
            && after.registered == s.registered && after.inserted == s.inserted && after.finished == s.finished
  {
    pc := OnAdvance(s, t, now, cloned).threads[t];
  }

  /** Positions inside a call about pipes or deadlines. */
  predicate TendsPipes(pc: Pc) { pc.Asking? || pc.Registering? || pc.RegisterPipesHeld? || pc.Dropping? }

  lemma PipeCallFrame(s: State, t: nat, now: nat, cloned: bool) returns (pc: Pc)
    requires t in s.threads && TendsPipes(s.threads[t])
    ensures var after := OnAdvance(s, t, now, cloned);
            && after.threads == s.threads[t := pc] && after.authority == s.authority && Issues(s, after)
            && after.grants == s.grants && after.inserted == s.inserted
            && after.shut == s.shut && after.ended == s.ended
  {
    pc := OnAdvance(s, t, now, cloned).threads[t];
  }

  lemma GrantCallFrame(s: State, t: nat, now: nat, cloned: bool) returns (pc: Pc)
    requires t in s.threads && (s.threads[t].Inserting? || s.threads[t].InsertChecked? || s.threads[t].Changing?)
    ensures var after := OnAdvance(s, t, now, cloned);
            && after.threads == s.threads[t := pc] && Issues(s, after)
            && after.authority == (if s.threads[t].Changing? then s.threads[t].next else s.authority)
            && after.registered == s.registered && after.pipes == s.pipes
            && after.shut == s.shut && after.ended == s.ended
  {
    pc := OnAdvance(s, t, now, cloned).threads[t];
  }

  lemma AdvanceMovesOne(s: State, t: nat, now: nat, cloned: bool) returns (pc: Pc)
    requires t in s.threads && !s.threads[t].Idle?
    ensures OnAdvance(s, t, now, cloned).threads == s.threads[t := pc] && Issues(s, OnAdvance(s, t, now, cloned))
    ensures OnAdvance(s, t, now, cloned).authority ==
            if s.threads[t].Changing? then s.threads[t].next else s.authority
  {
    if TearsDown(s.threads[t]) {
      pc := TeardownFrame(s, t, now, cloned);
    } else if TendsPipes(s.threads[t]) {
      pc := PipeCallFrame(s, t, now, cloned);
    } else {
      pc := GrantCallFrame(s, t, now, cloned);
    }
  }

  lemma OthersStay(s: State, step: Step, t: nat)
    requires Enabled(s, step) && step.thread != t
    ensures t in Effect(s, step).threads <==> t in s.threads
    ensures t in s.threads ==> Effect(s, step).threads[t] == s.threads[t]
  {
    match step
    case Call(_, _) =>
    case Advance(u, now, cloned) => var _ := AdvanceMovesOne(s, u, now, cloned);
  }

  // ---- The observed authority ----

  /** The thread's call changes the authority to this. */
  predicate ChangesTo(s: State, step: Step, next: Option<Authority.Pair>) {
    step.Advance? && IsAt(s, step.thread, Changing(next))
  }

  /** What is observed is what the last change named; nothing else touches it. */
  lemma AuthorityAfter(run: Run<State, Step>, k: nat)
    requires IsRun(run) && k < |run.steps|
    ensures forall next :: ChangesTo(run.states[k], run.steps[k], next) ==> run.states[k + 1].authority == next
    ensures (forall next :: !ChangesTo(run.states[k], run.steps[k], next)) ==>
              run.states[k + 1].authority == run.states[k].authority
  {
    assert StepAt(run, Next, k);
    var s, step := run.states[k], run.steps[k];
    if step.Advance? {
      var _ := AdvanceMovesOne(s, step.thread, step.now, step.cloned);
      assert s.threads[step.thread].Changing? ==> ChangesTo(s, step, s.threads[step.thread].next);
    }
  }

  // ---- Grants ----

  /** The insertion goes through: its check found the authority it names and could keep a control channel. */
  predicate Inserts(s: State, step: Step, id: nat, grant: Grant) {
    step.Advance? && id == s.nextId && IsAt(s, step.thread, InsertChecked(grant.under, grant.deadline))
  }

  /** The step takes this grant: every grant, or just this one. */
  predicate Takes(s: State, step: Step, id: nat) {
    step.Advance? && (IsAt(s, step.thread, RevokePipesHeld) || IsAt(s, step.thread, ExpirePipesHeld(id)))
  }

  lemma StoredAfter(s: State, step: Step, id: nat, grant: Grant)
    requires Enabled(s, step) && forall other :: other in s.grants ==> other < s.nextId
    ensures id in Effect(s, step).grants && Effect(s, step).grants[id] == grant <==>
            Inserts(s, step, id, grant) || (id in s.grants && s.grants[id] == grant && !Takes(s, step, id))
  {
    if step.Advance? {
      var t := step.thread;
      if TearsDown(s.threads[t]) {
        TakenAfter(s, t, step.now, step.cloned, id);
      } else if TendsPipes(s.threads[t]) {
        var _ := PipeCallFrame(s, t, step.now, step.cloned);
      } else {
        InsertedAfter(s, t, step.now, step.cloned, id, grant);
      }
    }
  }

  lemma TakenAfter(s: State, t: nat, now: nat, cloned: bool, id: nat)
    requires Enabled(s, Advance(t, now, cloned)) && TearsDown(s.threads[t])
    ensures var after := OnAdvance(s, t, now, cloned).grants;
            && (id in after <==> id in s.grants && !Takes(s, Advance(t, now, cloned), id))
            && (id in after ==> after[id] == s.grants[id])
  {
  }

  lemma InsertedAfter(s: State, t: nat, now: nat, cloned: bool, id: nat, grant: Grant)
    requires Enabled(s, Advance(t, now, cloned)) && forall other :: other in s.grants ==> other < s.nextId
    requires s.threads[t].Inserting? || s.threads[t].InsertChecked? || s.threads[t].Changing?
    ensures var after := OnAdvance(s, t, now, cloned).grants;
            id in after && after[id] == grant <==>
            Inserts(s, Advance(t, now, cloned), id, grant) || (id in s.grants && s.grants[id] == grant)
  {
  }

  /** Ids are issued once. */
  ghost predicate IssuedInv(s: State) {
    && (forall id :: id in s.grants ==> id < s.nextId)
    && (forall id :: id in s.inserted ==> id < s.nextId)
    && (forall pipe :: pipe in s.registered ==> pipe < s.nextId)
  }

  lemma IssuedFrame(s: State, after: State)
    requires IssuedInv(s) && Issues(s, after)
    ensures IssuedInv(after)
  {
    assert forall id :: id in after.grants ==> id in after.grants.Keys;
    assert forall pipe :: pipe in after.registered ==> pipe in after.registered.Keys;
  }

  lemma IssuedStep(s: State, step: Step)
    requires IssuedInv(s) && Enabled(s, step)
    ensures IssuedInv(Effect(s, step))
  {
    if step.Advance? { var _ := AdvanceMovesOne(s, step.thread, step.now, step.cloned); }
    IssuedFrame(s, Effect(s, step));
  }

  lemma RunIsIssued(run: Run<State, Step>, k: nat)
    requires IsRun(run) && k < |run.states|
    ensures IssuedInv(run.states[k])
  {
    forall s, step, s' | IssuedInv(s) && Next(s, step, s')
      ensures IssuedInv(s')
    {
      IssuedStep(s, step);
    }
    Throughout(run, Initial, Next, IssuedInv, k);
  }

  /** A grant is stored exactly by a checked insertion, as asked, until a revocation or its own end takes it. */
  lemma GrantStoredIff(run: Run<State, Step>, k: nat, id: nat, grant: Grant)
    requires IsRun(run) && k < |run.steps|
    ensures id in run.states[k + 1].grants && run.states[k + 1].grants[id] == grant <==>
            || Inserts(run.states[k], run.steps[k], id, grant)
            || (id in run.states[k].grants && run.states[k].grants[id] == grant
                && !Takes(run.states[k], run.steps[k], id))
  {
    assert StepAt(run, Next, k);
    RunIsIssued(run, k);
    StoredAfter(run.states[k], run.steps[k], id, grant);
  }

  /** The check of an insertion passes. */
  predicate Passes(s: State, step: Step, t: nat, under: Authority.Pair, deadline: nat) {
    && Acts(s, step, t) && s.threads[t] == Inserting(under, deadline)
    && s.authority == Some(under) && step.cloned
  }

  /** An insertion proceeds exactly when the authority it names is the one observed and a control channel is kept. */
  lemma InsertCheckedIff(run: Run<State, Step>, k: nat, t: nat, under: Authority.Pair, deadline: nat)
    requires IsRun(run) && k < |run.steps|
    ensures IsAt(run.states[k + 1], t, InsertChecked(under, deadline)) <==>
            || Passes(run.states[k], run.steps[k], t, under, deadline)
            || (IsAt(run.states[k], t, InsertChecked(under, deadline)) && run.steps[k].thread != t)
  {
    assert StepAt(run, Next, k);
    var s, step := run.states[k], run.steps[k];
    if step.thread != t {
      OthersStay(s, step, t);
    } else if step.Advance? {
      CheckedAfter(s, t, step.now, step.cloned, under, deadline);
    }
  }

  lemma CheckedAfter(s: State, t: nat, now: nat, cloned: bool, under: Authority.Pair, deadline: nat)
    requires Enabled(s, Advance(t, now, cloned))
    ensures IsAt(OnAdvance(s, t, now, cloned), t, InsertChecked(under, deadline)) <==>
            Passes(s, Advance(t, now, cloned), t, under, deadline)
  {
  }

  // ---- Why a grant ends ----

  /** The thread is on its way to take this grant. */
  predicate IsEnding(s: State, t: nat, id: nat) {
    && t in s.threads
    && var pc := s.threads[t];
    pc.RevokeOwed? || pc.RevokePipesHeld? || pc == Expiring(id) || pc == ExpirePipesHeld(id)
  }

  /** The step puts it there: a changed or withdrawn authority, a call to end the grant, or its deadline reached. */
  predicate IsDue(s: State, step: Step, t: nat, id: nat) {
    || (Acts(s, step, t) && s.threads[t].Changing?
        && (s.threads[t].next.None? || (s.authority.Some? && s.authority != s.threads[t].next)))
    || step == Call(t, Expiring(id))
    || (Acts(s, step, t) && s.threads[t] == Asking(id) && id in s.grants && s.grants[id].deadline <= step.now)
  }

  lemma EndingAfter(s: State, step: Step, t: nat, id: nat)
    requires Enabled(s, step)
    ensures IsEnding(Effect(s, step), t, id) <==>
            IsDue(s, step, t, id) || (IsEnding(s, t, id) && !(step.thread == t && Takes(s, step, id)))
  {
    if step.thread != t {
      OthersStay(s, step, t);
    } else if step.Advance? && TearsDown(s.threads[t]) {
      EndingGoesOn(s, t, step.now, step.cloned, id);
    } else if step.Advance? {
      EndingBegins(s, t, step.now, step.cloned, id);
    }
  }

  lemma EndingBegins(s: State, t: nat, now: nat, cloned: bool, id: nat)
    requires Enabled(s, Advance(t, now, cloned)) && !TearsDown(s.threads[t])
    ensures IsEnding(OnAdvance(s, t, now, cloned), t, id) <==> IsDue(s, Advance(t, now, cloned), t, id)
  {
  }

  lemma EndingGoesOn(s: State, t: nat, now: nat, cloned: bool, id: nat)
    requires Enabled(s, Advance(t, now, cloned)) && TearsDown(s.threads[t])
    ensures IsEnding(OnAdvance(s, t, now, cloned), t, id) <==>
            IsEnding(s, t, id) && !Takes(s, Advance(t, now, cloned), id)
  {
  }

  /**
   A thread sets out to end a grant exactly when it observes another authority, or none, when it is
   told to, or when it finds the grant's deadline reached; and it goes on until it has taken it.
   */
  lemma EndingIff(run: Run<State, Step>, k: nat, t: nat, id: nat)
    requires IsRun(run) && k < |run.steps|
    ensures IsEnding(run.states[k + 1], t, id) <==>
            || IsDue(run.states[k], run.steps[k], t, id)
            || (IsEnding(run.states[k], t, id) && !(run.steps[k].thread == t && Takes(run.states[k], run.steps[k], id)))
  {
    assert StepAt(run, Next, k);
    EndingAfter(run.states[k], run.steps[k], t, id);
  }

  /** Every grant that is taken was due to be, at a step its taker has been ending it since. */
  lemma {:induction false} TakenWasDue(run: Run<State, Step>, k: nat, t: nat, id: nat) returns (i: nat)
    requires IsRun(run) && k < |run.states| && IsEnding(run.states[k], t, id)
    ensures i < k && IsDue(run.states[i], run.steps[i], t, id)
    ensures forall n :: i < n <= k ==> IsEnding(run.states[n], t, id)
    decreases k
  {
    assert k > 0;
    EndingIff(run, k - 1, t, id);
    if IsDue(run.states[k - 1], run.steps[k - 1], t, id) {
      i := k - 1;
    } else {
      i := TakenWasDue(run, k - 1, t, id);
    }
  }

  // ---- Only an ended grant's pipes are shut ----

  ghost predicate AllEnded(s: State, pipes: set<nat>) {
    forall pipe :: pipe in pipes ==> pipe in s.registered && s.registered[pipe] in s.inserted
                                     && s.registered[pipe] !in s.grants
  }

  ghost predicate RowsInv(s: State) {
    forall id, pipe :: InTable(s.pipes, id, pipe) ==>
                         pipe in s.registered && s.registered[pipe] == id && id in s.inserted
  }

  /** What a thread has in hand to shut or close belongs to ended grants, and the row it has emptied is gone. */
  ghost predicate HandInv(s: State, pc: Pc) {
    && AllEnded(s, InHand(pc))
    && (pc.ExpireScrubbed? ==> pc.id !in s.grants)
    && (pc.RevokeDrained? ==> s.grants == map[])
    && (forall id :: id in Controls(pc) ==> id in s.inserted && id !in s.grants)
  }

  /** What is in hand, shut or closed belongs to ended grants. */
  ghost predicate SeveredInv(s: State) {
    && IssuedInv(s) && RowsInv(s)
    && (forall id :: id in s.grants ==> id in s.inserted)
    && AllEnded(s, s.shut)
    && (forall t :: t in s.threads ==> HandInv(s, s.threads[t]))
    && (forall id :: id in s.ended ==> id in s.inserted && id !in s.grants)
  }

  /** Grants only go, nothing is inserted or registered: what belonged to ended grants still does. */
  lemma FewerGrants(s: State, after: State, t: nat, pc: Pc)
    requires SeveredInv(s) && after.threads == s.threads[t := pc] && HandInv(after, pc)
    requires after.grants.Keys <= s.grants.Keys && after.registered == s.registered && after.inserted == s.inserted
    requires after.nextId == s.nextId && RowsInv(after) && AllEnded(after, after.shut)
    requires forall id :: id in after.ended ==> id in s.inserted && id !in after.grants
    ensures SeveredInv(after)
  {
    assert forall id :: id in after.grants ==> id in after.grants.Keys;
    forall u | u in after.threads
      ensures HandInv(after, after.threads[u])
    {
      if u != t { assert HandInv(s, s.threads[u]); }
    }
  }

  lemma SeveredTeardown(s: State, t: nat, now: nat, cloned: bool)
    requires SeveredInv(s) && Enabled(s, Advance(t, now, cloned)) && TearsDown(s.threads[t])
    ensures SeveredInv(OnAdvance(s, t, now, cloned))
  {
    var after := OnAdvance(s, t, now, cloned);
    var pc := TeardownFrame(s, t, now, cloned);
    assert HandInv(s, s.threads[t]);
    TeardownHand(s, t, now, cloned);
    FewerGrants(s, after, t, pc);
  }

  /** The thread's own position, the rows and the records are right after its action. */
  ghost predicate HandsOver(s: State, after: State, t: nat) {
    && t in after.threads && HandInv(after, after.threads[t]) && RowsInv(after) && AllEnded(after, after.shut)
    && after.grants.Keys <= s.grants.Keys && after.nextId == s.nextId
    && forall id :: id in after.ended ==> id in s.inserted && id !in after.grants
  }

  lemma DrainHands(s: State, t: nat)
    requires SeveredInv(s) && t in s.threads
    ensures HandsOver(s, OnRevokeDrain(s, t), t)
  {
  }

  lemma DrainedHands(s: State, t: nat, controls: set<nat>)
    requires SeveredInv(s) && IsAt(s, t, RevokeDrained(controls)) && HandInv(s, RevokeDrained(controls))
    ensures HandsOver(s, OnRevokeDrained(s, t, controls), t)
  {
    forall pipe | pipe in Flattened(s.pipes)
      ensures pipe in s.registered && s.registered[pipe] in s.inserted
    {
      var id :| id in s.pipes && pipe in s.pipes[id];
      assert InTable(s.pipes, id, pipe);
    }
  }

  lemma ScrubHands(s: State, t: nat, id: nat)
    requires SeveredInv(s) && t in s.threads
    ensures HandsOver(s, OnScrub(s, t, id), t)
  {
    assert forall other, pipe :: InTable(OnScrub(s, t, id).pipes, other, pipe) ==> InTable(s.pipes, other, pipe);
  }

  lemma ScrubbedHands(s: State, t: nat, id: nat, controls: set<nat>)
    requires SeveredInv(s) && IsAt(s, t, ExpireScrubbed(id, controls)) && HandInv(s, ExpireScrubbed(id, controls))
    ensures HandsOver(s, OnScrubbed(s, t, id, controls), t)
  {
    var after := OnScrubbed(s, t, id, controls);
    forall pipe | pipe in Severed(s.pipes, id)
      ensures pipe in s.registered && s.registered[pipe] == id && id in s.inserted
    {
      assert InTable(s.pipes, id, pipe);
    }
    assert forall other, pipe :: InTable(after.pipes, other, pipe) ==> InTable(s.pipes, other, pipe);
  }

  lemma EndingHands(s: State, t: nat, severed: set<nat>, controls: set<nat>)
    requires SeveredInv(s) && t in s.threads && InHand(s.threads[t]) == severed && Controls(s.threads[t]) == controls
    requires HandInv(s, s.threads[t])
    ensures HandsOver(s, OnEnding(s, t, severed, controls), t)
  {
    assert forall other, pipe :: InTable(OnEnding(s, t, severed, controls).pipes, other, pipe) ==>
                                   InTable(s.pipes, other, pipe);
  }

  lemma TeardownHand(s: State, t: nat, now: nat, cloned: bool)
    requires SeveredInv(s) && Enabled(s, Advance(t, now, cloned)) && TearsDown(s.threads[t])
    requires HandInv(s, s.threads[t])
    ensures HandsOver(s, OnAdvance(s, t, now, cloned), t)
  {
    match s.threads[t]
    case RevokePipesHeld => DrainHands(s, t);
    case RevokeDrained(controls) => DrainedHands(s, t, controls);
    case RevokeEnding(severed, controls) => EndingHands(s, t, severed, controls);
    case ExpirePipesHeld(id) => ScrubHands(s, t, id);
    case ExpireScrubbed(id, controls) => ScrubbedHands(s, t, id, controls);
    case ExpireEnding(severed, controls) => EndingHands(s, t, severed, controls);
    case RevokeOwed => MoveHands(s, t, RevokePipesHeld);
    case Expiring(id) => MoveHands(s, t, ExpirePipesHeld(id));
  }

  lemma MoveHands(s: State, t: nat, pc: Pc)
    requires SeveredInv(s) && t in s.threads && InHand(pc) == {} && Controls(pc) == {}
    requires !pc.ExpireScrubbed? && !pc.RevokeDrained?
    ensures HandsOver(s, At(s, t, pc), t)
  {
    assert forall other, pipe :: InTable(At(s, t, pc).pipes, other, pipe) ==> InTable(s.pipes, other, pipe);
  }

  /** Positions with nothing in hand. */
  predicate IsPlain(pc: Pc) { InHand(pc) == {} && Controls(pc) == {} && !pc.ExpireScrubbed? && !pc.RevokeDrained? }

  lemma SeveredMove(s: State, after: State, t: nat, pc: Pc)
    requires SeveredInv(s) && IsPlain(pc)
    requires after == At(s, t, pc).(authority := after.authority, finished := after.finished)
    ensures SeveredInv(after)
  {
    assert forall id, pipe :: InTable(after.pipes, id, pipe) ==> InTable(s.pipes, id, pipe);
    FewerGrants(s, after, t, pc);
  }

  /** A new grant is none of the ended ones, and no other thread is in the middle of emptying the table. */
  lemma SeveredInsert(s: State, t: nat, under: Authority.Pair, deadline: nat)
    requires SeveredInv(s) && t in s.threads && IsFree(s, GrantsMutex)
    ensures SeveredInv(OnInsertChecked(s, t, under, deadline))
  {
    var after := OnInsertChecked(s, t, under, deadline);
    assert forall id, pipe :: InTable(after.pipes, id, pipe) ==> InTable(s.pipes, id, pipe);
    forall u | u in after.threads
      ensures HandInv(after, after.threads[u])
    {
      if u != t { assert HandInv(s, s.threads[u]) && !Holds(s.threads[u], GrantsMutex); }
    }
  }

  lemma SeveredRegister(s: State, t: nat, id: nat, cloned: bool)
    requires SeveredInv(s) && t in s.threads
    ensures SeveredInv(OnRegister(s, t, id, cloned))
  {
    var after := OnRegister(s, t, id, cloned);
    forall other, pipe | InTable(after.pipes, other, pipe)
      ensures pipe in after.registered && after.registered[pipe] == other && other in after.inserted
    {
      if !(other == id && pipe == s.nextId) { assert InTable(s.pipes, other, pipe); }
    }
    forall u | u in after.threads
      ensures HandInv(after, after.threads[u])
    {
      if u != t { assert HandInv(s, s.threads[u]); }
    }
  }

  lemma SeveredDrop(s: State, t: nat, id: nat, pipe: nat)
    requires SeveredInv(s) && t in s.threads
    ensures SeveredInv(OnDropping(s, t, id, pipe))
  {
    var after := OnDropping(s, t, id, pipe);
    forall other, p | InTable(after.pipes, other, p)
      ensures InTable(s.pipes, other, p)
    {
    }
    FewerGrants(s, after, t, Idle);
  }

  lemma SeveredCall(s: State, t: nat, now: nat, cloned: bool)
    requires SeveredInv(s) && Enabled(s, Advance(t, now, cloned)) && !TearsDown(s.threads[t])
    ensures SeveredInv(OnAdvance(s, t, now, cloned))
  {
    var after := OnAdvance(s, t, now, cloned);
    match s.threads[t]
    case InsertChecked(under, deadline) => SeveredInsert(s, t, under, deadline);
    case RegisterPipesHeld(id) => SeveredRegister(s, t, id, cloned);
    case Dropping(id, pipe) => SeveredDrop(s, t, id, pipe);
    case Inserting(_, _) | Changing(_) | Asking(_) | Registering(_) => SeveredMove(s, after, t, after.threads[t]);
  }

  lemma SeveredStep(s: State, step: Step)
    requires SeveredInv(s) && Enabled(s, step)
    ensures SeveredInv(Effect(s, step))
  {
    match step
    case Call(t, pc) => SeveredMove(s, Effect(s, step), t, pc);
    case Advance(t, now, cloned) =>
      if TearsDown(s.threads[t]) {
        SeveredTeardown(s, t, now, cloned);
      } else {
        SeveredCall(s, t, now, cloned);
      }
  }

  lemma RunIsSevered(run: Run<State, Step>, k: nat)
    requires IsRun(run) && k < |run.states|
    ensures SeveredInv(run.states[k])
  {
    forall s, step, s' | SeveredInv(s) && Next(s, step, s')
      ensures SeveredInv(s')
    {
      SeveredStep(s, step);
    }
    Throughout(run, Initial, Next, SeveredInv, k);
  }

  /** A pipe is shut, and a control channel closed, only if its grant was inserted and has ended. */
  lemma OnlyEndedAreShut(run: Run<State, Step>, k: nat, pipe: nat, id: nat)
    requires IsRun(run) && k < |run.states|
    ensures pipe in run.states[k].shut ==>
              && pipe in run.states[k].registered && run.states[k].registered[pipe] in run.states[k].inserted
              && run.states[k].registered[pipe] !in run.states[k].grants
    ensures id in run.states[k].ended ==> id in run.states[k].inserted && id !in run.states[k].grants
  {
    RunIsSevered(run, k);
  }

  // ---- Pipes ----

  /** The registration goes through: the grant is live under both mutexes and the socket could be kept. */
  predicate Registers(s: State, step: Step, id: nat, pipe: nat) {
    step.Advance? && IsAt(s, step.thread, RegisterPipesHeld(id)) && id in s.grants && step.cloned && pipe == s.nextId
  }

  /** The step takes the pipe off its grant's row: it ended by itself, or its grant did. */
  predicate Unlists(s: State, step: Step, id: nat, pipe: nat) {
    && Acts(s, step, step.thread)
    && var pc := s.threads[step.thread];
    pc == Dropping(id, pipe) || pc.RevokeDrained? || (pc.ExpireScrubbed? && pc.id == id)
  }

  lemma ListedAfter(s: State, step: Step, id: nat, pipe: nat)
    requires Enabled(s, step)
    ensures InTable(Effect(s, step).pipes, id, pipe) <==>
            Registers(s, step, id, pipe) || (InTable(s.pipes, id, pipe) && !Unlists(s, step, id, pipe))
  {
    if step.Advance? && !TearsDown(s.threads[step.thread]) && !TendsPipes(s.threads[step.thread]) {
      var _ := GrantCallFrame(s, step.thread, step.now, step.cloned);
    }
  }

  /** A pipe is listed under its grant exactly from a registration that found the grant live until either ends. */
  lemma PipeListedIff(run: Run<State, Step>, k: nat, id: nat, pipe: nat)
    requires IsRun(run) && k < |run.steps|
    ensures InTable(run.states[k + 1].pipes, id, pipe) <==>
            || Registers(run.states[k], run.steps[k], id, pipe)
            || (InTable(run.states[k].pipes, id, pipe) && !Unlists(run.states[k], run.steps[k], id, pipe))
  {
    assert StepAt(run, Next, k);
    ListedAfter(run.states[k], run.steps[k], id, pipe);
  }
}
