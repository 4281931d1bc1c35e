/**
 The registry of browser grants: three mutexes (the observed authority, the pipe
 table, the grant table), always taken in that order, and the calls that take
 them. A thread advances one action at a time, each action covering what the
 source does between two lock operations, so every interleaving is a run.
 */
module BrowserGrants {
  import opened Base
  import Authority

  datatype Mutex = AuthorityMutex | PipesMutex | GrantsMutex

  /** A live grant: the authority its insertion named, and its deadline. */
  datatype Grant = Grant(under: Authority.Pair, deadline: nat)

  /** Where a thread is; each case says which mutexes it holds and which it wants next. */
  datatype Pc =
    | Idle
    | Inserting(under: Authority.Pair, deadline: nat)
    | InsertChecked(under: Authority.Pair, deadline: nat)
    | Changing(next: Option<Authority.Pair>)
    | RevokeOwed
    | RevokePipesHeld
    | RevokeDrained(controls: set<nat>)
    | RevokeEnding(severed: set<nat>, controls: set<nat>)
    | Expiring(id: nat)
    | ExpirePipesHeld(id: nat)
    | ExpireScrubbed(id: nat, controls: set<nat>)
    | ExpireEnding(severed: set<nat>, controls: set<nat>)
    | Asking(id: nat)
    | Registering(id: nat)
    | RegisterPipesHeld(id: nat)
    | Dropping(id: nat, pipe: nat)

  predicate Holds(pc: Pc, m: Mutex) {
    match m
    case AuthorityMutex =>
      pc.InsertChecked? || pc.RevokeOwed? || pc.RevokePipesHeld? || pc.RevokeDrained? || pc.RevokeEnding?
    case PipesMutex =>
      pc.RevokePipesHeld? || pc.RevokeDrained? || pc.ExpirePipesHeld? || pc.ExpireScrubbed? || pc.RegisterPipesHeld?
    case GrantsMutex => pc.RevokeDrained? || pc.ExpireScrubbed?
  }

  function Wants(pc: Pc): Option<Mutex> {
    match pc
    case Idle => None
    case Inserting(_, _) => Some(AuthorityMutex)
    case InsertChecked(_, _) => Some(GrantsMutex)
    case Changing(_) => Some(AuthorityMutex)
    case RevokeOwed => Some(PipesMutex)
    case RevokePipesHeld => Some(GrantsMutex)
    case RevokeDrained(_) => None
    case RevokeEnding(_, _) => None
    case Expiring(_) => Some(PipesMutex)
    case ExpirePipesHeld(_) => Some(GrantsMutex)
    case ExpireScrubbed(_, _) => None
    case ExpireEnding(_, _) => None
    case Asking(_) => Some(GrantsMutex)
    case Registering(_) => Some(PipesMutex)
    case RegisterPipesHeld(_) => Some(GrantsMutex)
    case Dropping(_, _) => Some(PipesMutex)
  }

  /**
   The three guarded values, the threads, and what has happened: pipes ever
   registered (with their grant), pipes that ended by themselves, pipes shut
   down, grants ever inserted, and grants whose control channel was closed.
   */
  datatype State = State(
    authority: Option<Authority.Pair>,
    pipes: map<nat, seq<nat>>,
    grants: map<nat, Grant>,
    nextId: nat,
    threads: map<nat, Pc>,
    registered: map<nat, nat>,
    finished: set<nat>,
    shut: set<nat>,
    inserted: set<nat>,
    ended: set<nat>)

  predicate IsFree(s: State, m: Mutex) {
    forall t :: t in s.threads ==> !Holds(s.threads[t], m)
  }

  /** A call made by an idle thread, or the next action of a thread inside a call. */
  datatype Step =
    | Call(thread: nat, pc: Pc)
    | Advance(thread: nat, now: nat, cloned: bool)

  predicate IsCall(s: State, pc: Pc) {
    || pc.Inserting? || pc.Changing? || pc.Expiring? || pc.Asking? || pc.Registering?
    || (pc.Dropping? && pc.pipe in s.registered && s.registered[pc.pipe] == pc.id && pc.pipe !in s.finished)
  }

  predicate Enabled(s: State, step: Step) {
    match step
    case Call(t, pc) => (t in s.threads ==> s.threads[t].Idle?) && IsCall(s, pc)
    case Advance(t, _, _) =>
      t in s.threads && !s.threads[t].Idle?
      && (Wants(s.threads[t]).Some? ==> IsFree(s, Wants(s.threads[t]).value))
  }

  function At(s: State, t: nat, pc: Pc): State { s.(threads := s.threads[t := pc]) }

  function Other(pipe: nat): nat -> bool { (p: nat) => p != pipe }

  function Flattened(pipes: map<nat, seq<nat>>): set<nat> { set id, p | id in pipes && p in pipes[id] :: p }

  function Severed(pipes: map<nat, seq<nat>>, id: nat): set<nat> {
    if id in pipes then set p | p in pipes[id] else {}
  }

  /** Under the authority mutex: the table changes only if the pair named is still the observed one. */
  function OnInserting(s: State, t: nat, under: Authority.Pair, deadline: nat, cloned: bool): State {
    if s.authority != Some(under) || !cloned then At(s, t, Idle) else At(s, t, InsertChecked(under, deadline))
  }

  function OnInsertChecked(s: State, t: nat, under: Authority.Pair, deadline: nat): State {
    At(s, t, Idle).(grants := s.grants[s.nextId := Grant(under, deadline)], inserted := s.inserted + {s.nextId},
                    nextId := s.nextId + 1)
  }

  /** `observe_authority` (some pair) and `invalidate_authority` (none). */
  function OnChanging(s: State, t: nat, next: Option<Authority.Pair>): State {
    var changed := next.None? || (s.authority.Some? && s.authority != next);
    At(s, t, if changed then RevokeOwed else Idle).(authority := next)
  }

  function OnRevokeDrain(s: State, t: nat): State {
    At(s, t, RevokeDrained(s.grants.Keys)).(grants := map[])
  }

  function OnRevokeDrained(s: State, t: nat, controls: set<nat>): State {
    At(s, t, RevokeEnding(Flattened(s.pipes), controls)).(pipes := map[])
  }

  function OnScrub(s: State, t: nat, id: nat): State {
    At(s, t, ExpireScrubbed(id, if id in s.grants then {id} else {})).(grants := s.grants - {id})
  }

  function OnScrubbed(s: State, t: nat, id: nat, controls: set<nat>): State {
    At(s, t, ExpireEnding(Severed(s.pipes, id), controls)).(pipes := s.pipes - {id})
  }

  /** Outside the tables' mutexes: sockets shut down, then control channels closed. */
  function OnEnding(s: State, t: nat, severed: set<nat>, controls: set<nat>): State {
    At(s, t, Idle).(shut := s.shut + severed, ended := s.ended + controls)
  }

  function OnAsking(s: State, t: nat, id: nat, now: nat): State {
    At(s, t, if id in s.grants && s.grants[id].deadline <= now then Expiring(id) else Idle)
  }

  function OnRegister(s: State, t: nat, id: nat, cloned: bool): State {
    if id !in s.grants || !cloned then At(s, t, Idle)
    else
      At(s, t, Idle).(pipes := s.pipes[id := (if id in s.pipes then s.pipes[id] else []) + [s.nextId]],
                      registered := s.registered[s.nextId := id], nextId := s.nextId + 1)
  }

  function OnDropping(s: State, t: nat, id: nat, pipe: nat): State {
    if id in s.pipes then At(s, t, Idle).(pipes := s.pipes[id := Filter(s.pipes[id], Other(pipe))]) else At(s, t, Idle)
  }

  function OnAdvance(s: State, t: nat, now: nat, cloned: bool): State
    requires t in s.threads
  {
    match s.threads[t]
    case Idle => s
    case Inserting(under, deadline) => OnInserting(s, t, under, deadline, cloned)
    case InsertChecked(under, deadline) => OnInsertChecked(s, t, under, deadline)
    case Changing(next) => OnChanging(s, t, next)
    case RevokeOwed => At(s, t, RevokePipesHeld)
    case RevokePipesHeld => OnRevokeDrain(s, t)
    case RevokeDrained(controls) => OnRevokeDrained(s, t, controls)
    case RevokeEnding(severed, controls) => OnEnding(s, t, severed, controls)
    case Expiring(id) => At(s, t, ExpirePipesHeld(id))
    case ExpirePipesHeld(id) => OnScrub(s, t, id)
    case ExpireScrubbed(id, controls) => OnScrubbed(s, t, id, controls)
    case ExpireEnding(severed, controls) => OnEnding(s, t, severed, controls)
    case Asking(id) => OnAsking(s, t, id, now)
    case Registering(id) => At(s, t, RegisterPipesHeld(id))
    case RegisterPipesHeld(id) => OnRegister(s, t, id, cloned)
    case Dropping(id, pipe) => OnDropping(s, t, id, pipe)
  }

  function Effect(s: State, step: Step): State
    requires Enabled(s, step)
  {
    match step
    case Call(t, pc) =>
      At(s, t, pc).(finished := if pc.Dropping? then s.finished + {pc.pipe} else s.finished)
    case Advance(t, now, cloned) => OnAdvance(s, t, now, cloned)
  }

  predicate Initial(s: State) {
    s == State(None, map[], map[], 0, map[], map[], {}, {}, {}, {})
  }
}
