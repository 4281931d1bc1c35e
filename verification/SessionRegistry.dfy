/**
 Known sessions and learned agent terminals: which scope a caller gets.

 A registration binds a token to a session and to the process that registered
 it. Process identities are opaque values; whether the caller descends from a
 given root is answered by a parameter, the set of roots it descends from.
 */
module SessionRegistry {
  import opened Base
  import opened Keyed
  import opened Scopes

  datatype Registration = Registration(token: nat, session: string, root: nat)

  type Sessions = map<nat, Registration>

  function TokenOf(): Registration -> nat { (r: Registration) => r.token }

  function NotSession(session: string): Registration -> bool { (r: Registration) => r.session != session }

  function IsSession(session: string): Registration -> bool { (r: Registration) => r.session == session }

  ghost function TokensOf(m: Sessions, session: string): set<nat> {
    set t | t in m && m[t].session == session
  }

  // ---- Operations, on the map from token to registration ----

  /** The new bindings and the tokens whose grants must be revoked. */
  ghost function Register(m: Sessions, r: Registration): (Sessions, Result<set<nat>, ErrCode>) {
    if r.token in m then
      if m[r.token].session == r.session then (m, Ok({})) else (m, Err(BadRequest))
    else
      (Restrict(m, NotSession(r.session))[r.token := r], Ok(TokensOf(m, r.session)))
  }

  ghost function Unregister(m: Sessions, session: string): (Sessions, set<nat>) {
    (Restrict(m, NotSession(session)), TokensOf(m, session))
  }

  /**
   The scope of a request and the terminals known to carry agent traffic
   afterwards. `within` holds the roots whose process trees contain the caller.
   */
  ghost function Resolve(m: Sessions, agentTtys: set<string>, bootId: string,
                         token: Option<nat>, tty: Option<string>, within: set<nat>)
    : (Result<Scope, ErrCode>, set<string>)
  {
    match token
    case Some(t) =>
      if t !in m then (Err(UnknownToken), agentTtys)
      else if m[t].root !in within then (Err(ForeignCaller), agentTtys)
      else (Ok(Session(t)), if tty.Some? then agentTtys + {tty.value} else agentTtys)
    case None =>
      match tty
      case Some(name) =>
        if name in agentTtys then (Err(AgentTty), agentTtys) else (Ok(Tty(name, bootId)), agentTtys)
      case None => (Err(NoScope), agentTtys)
  }

  // ---- What every operation keeps ----

  /** A one-to-one relation: keys are the stored tokens, and no session has two. */
  ghost predicate OneToOne(m: Sessions) {
    && (forall t :: t in m ==> m[t].token == t)
    && (forall t, u :: t in m && u in m && m[t].session == m[u].session ==> t == u)
  }

  datatype RegistryOp =
    | DoRegister(registration: Registration)
    | DoUnregister(session: string)
    | DoResolve(token: Option<nat>, tty: Option<string>, within: set<nat>)

  datatype RegistryState = RegistryState(sessions: Sessions, agentTtys: set<string>, bootId: string)

  ghost function Apply(s: RegistryState, op: RegistryOp): RegistryState {
    match op
    case DoRegister(r) => s.(sessions := Register(s.sessions, r).0)
    case DoUnregister(session) => s.(sessions := Unregister(s.sessions, session).0)
    case DoResolve(token, tty, within) =>
      s.(agentTtys := Resolve(s.sessions, s.agentTtys, s.bootId, token, tty, within).1)
  }

  ghost function Run(s: RegistryState, ops: seq<RegistryOp>): RegistryState {
    if ops == [] then s else Apply(Run(s, ops[..|ops| - 1]), ops[|ops| - 1])
  }

  ghost function ScopeFor(s: RegistryState, token: Option<nat>, tty: Option<string>, within: set<nat>)
    : Result<Scope, ErrCode>
  {
    Resolve(s.sessions, s.agentTtys, s.bootId, token, tty, within).0
  }

  /** One operation keeps the relation, changes no surviving binding, and forgets no agent terminal. */
  lemma StepKeeps(s: RegistryState, op: RegistryOp)
    requires OneToOne(s.sessions)
    ensures OneToOne(Apply(s, op).sessions)
    ensures forall t :: t in s.sessions && t in Apply(s, op).sessions ==> Apply(s, op).sessions[t] == s.sessions[t]
    ensures s.agentTtys <= Apply(s, op).agentTtys && Apply(s, op).bootId == s.bootId
  {
  }

  lemma {:induction false} RunKeeps(s: RegistryState, ops: seq<RegistryOp>)
    requires OneToOne(s.sessions)
    ensures OneToOne(Run(s, ops).sessions)
    ensures s.agentTtys <= Run(s, ops).agentTtys
  {
    if ops != [] {
      RunKeeps(s, ops[..|ops| - 1]);
      StepKeeps(Run(s, ops[..|ops| - 1]), ops[|ops| - 1]);
    }
  }

  /**
   A token that stays registered throughout a run keeps the root it was first
   bound with, however often it is presented again.
   */
  lemma {:induction false} RootIsPinned(s: RegistryState, ops: seq<RegistryOp>, token: nat)
    requires OneToOne(s.sessions) && token in s.sessions
    requires forall n :: 0 <= n <= |ops| ==> token in Run(s, ops[..n]).sessions
    ensures token in Run(s, ops).sessions && Run(s, ops).sessions[token] == s.sessions[token]
  {
    assert ops[..|ops|] == ops;
    if ops != [] {
      var before := ops[..|ops| - 1];
      forall n | 0 <= n <= |before| ensures token in Run(s, before[..n]).sessions {
        assert before[..n] == ops[..n];
      }
      RootIsPinned(s, before, token);
      assert before[..|before|] == before;
      RunKeeps(s, before);
      StepKeeps(Run(s, before), ops[|ops| - 1]);
    }
  }

  /**
   Once a verified session is seen on a terminal, no later tokenless request
   from that terminal gets a terminal scope, whatever happens in between.
   */
  lemma AgentTtyIsForever(s: RegistryState, token: nat, tty: string, within: set<nat>,
                          ops: seq<RegistryOp>, later: set<nat>)
    requires OneToOne(s.sessions)
    requires ScopeFor(s, Some(token), Some(tty), within) == Ok(Session(token))
    ensures var s' := Run(Apply(s, DoResolve(Some(token), Some(tty), within)), ops);
            ScopeFor(s', None, Some(tty), later) == Err(AgentTty)
  {
    var seen := Apply(s, DoResolve(Some(token), Some(tty), within));
    RunKeeps(seen, ops);
  }

  /** The call presents a registered token from inside the tree of the process that registered it. */
  predicate IsVerified(m: Sessions, token: Option<nat>, within: set<nat>) {
    token.Some? && token.value in m && m[token.value].root in within
  }

  /**
   A caller gets a session's scope exactly when it presents the token of a registration in whose
   process tree it is, and a terminal's exactly when it presents none on a terminal no verified
   session was seen on; otherwise it is told which of these failed.
   */
  lemma ResolveAnswers(s: RegistryState, token: Option<nat>, tty: Option<string>, within: set<nat>)
    ensures var answer := ScopeFor(s, token, tty, within);
            && (answer.Ok? && answer.value.Session? <==> IsVerified(s.sessions, token, within))
            && (answer.Ok? && answer.value.Session? ==> token == Some(answer.value.token))
            && (answer.Ok? && answer.value.Tty? <==> token.None? && tty.Some? && tty.value !in s.agentTtys)
            && (answer.Ok? && answer.value.Tty? ==> answer.value == Tty(tty.value, s.bootId))
            && (answer == Err(UnknownToken) <==> token.Some? && token.value !in s.sessions)
            && (answer == Err(ForeignCaller) <==>
                token.Some? && token.value in s.sessions && s.sessions[token.value].root !in within)
            && (answer == Err(AgentTty) <==> token.None? && tty.Some? && tty.value in s.agentTtys)
            && (answer == Err(NoScope) <==> token.None? && tty.None?)
  {
  }

  /** Operation `i` resolved a verified session on this terminal. */
  ghost predicate SeenAt(s: RegistryState, ops: seq<RegistryOp>, i: nat, tty: string) {
    && i < |ops| && ops[i].DoResolve? && ops[i].tty == Some(tty)
    && IsVerified(Run(s, ops[..i]).sessions, ops[i].token, ops[i].within)
  }

  /** A terminal is known as an agent's exactly when it was, or a verified session has been seen on it since. */
  lemma {:induction false} AgentTtyIff(s: RegistryState, ops: seq<RegistryOp>, tty: string)
    ensures tty in Run(s, ops).agentTtys <==> tty in s.agentTtys || exists i: nat :: SeenAt(s, ops, i, tty)
  {
    if ops != [] {
      var n := |ops| - 1;
      var before := ops[..n];
      AgentTtyIff(s, before, tty);
      assert ops[..n] == before;
      forall i: nat | i < n
        ensures SeenAt(s, ops, i, tty) <==> SeenAt(s, before, i, tty)
      {
        assert before[..i] == ops[..i];
      }
      assert tty in Run(s, ops).agentTtys <==> tty in Run(s, before).agentTtys || SeenAt(s, ops, n, tty);
      if i: nat :| SeenAt(s, before, i, tty) { assert SeenAt(s, ops, i, tty); }
      if i: nat :| SeenAt(s, ops, i, tty) { assert i < n ==> SeenAt(s, before, i, tty); }
    }
  }

  /**
   A registration is refused exactly when its token belongs to another session; the same session's
   changes nothing; any other binds the token as asked and displaces exactly that session's others.
   */
  lemma RegisterAnswers(m: Sessions, r: Registration, t: nat)
    ensures var (m', answer) := Register(m, r);
            && (answer.Err? <==> r.token in m && m[r.token].session != r.session)
            && (answer.Err? ==> answer.error == BadRequest)
            && (r.token in m ==> m' == m && (answer.Ok? ==> answer.value == {}))
            && (r.token !in m ==>
                  && (t in m' <==> t == r.token || (t in m && m[t].session != r.session))
                  && (t in m' ==> m'[t] == if t == r.token then r else m[t])
                  && answer.Ok? && (t in answer.value <==> t in m && m[t].session == r.session))
  {
  }

  /** Unregistering takes exactly that session's registrations, and answers their tokens. */
  lemma UnregisterAnswers(m: Sessions, session: string, t: nat)
    ensures var (m', revoked) := Unregister(m, session);
            && (t in m' <==> t in m && m[t].session != session) && (t in m' ==> m'[t] == m[t])
            && (t in revoked <==> t in m && m[t].session == session)
  {
  }

  /**
   Scope resolution does not depend on the order sessions are listed in: two
   lists holding the same registrations stand for the same map, so the first
   match is the only match.
   */
  lemma ResolveIgnoresOrder(a: seq<Registration>, b: seq<Registration>, agentTtys: set<string>, bootId: string,
                            token: Option<nat>, tty: Option<string>, within: set<nat>)
    requires Distinct(a, TokenOf()) && Distinct(b, TokenOf())
    requires forall r :: r in a <==> r in b
    ensures Resolve(Index(a, TokenOf()), agentTtys, bootId, token, tty, within) ==
            Resolve(Index(b, TokenOf()), agentTtys, bootId, token, tty, within)
  {
    OrderIsIrrelevant(a, b, TokenOf());
  }

  /** The list-backed registry the broker runs. */
  class Registry {
    var sessions: seq<Registration>
    var agentTtys: seq<string>
    const bootId: string

    ghost predicate Valid()
      reads this
    {
      Distinct(sessions, TokenOf()) && OneToOne(Contents())
    }

    ghost function Contents(): Sessions
      reads this
    {
      Index(sessions, TokenOf())
    }

    ghost function View(): RegistryState
      reads this
    {
      RegistryState(Contents(), (set t | t in agentTtys), bootId)
    }

    constructor (bootId: string)
      ensures Valid() && View() == RegistryState(map[], {}, bootId)
    {
      sessions, agentTtys, this.bootId := [], [], bootId;
    }

    method RegisterSession(r: Registration) returns (displaced: Result<set<nat>, ErrCode>)
      requires Valid()
      modifies this
      ensures Valid()
      ensures View() == Apply(old(View()), DoRegister(r))
      ensures displaced == Register(old(Contents()), r).1
    {
      Found(sessions, TokenOf(), r.token);
      var same := FindFirst(sessions, HasKey(TokenOf(), r.token));
      StepKeeps(View(), DoRegister(r));
      if same.Some? {
        return if sessions[same.value].session == r.session then Ok({}) else Err(BadRequest);
      }
      var tokens := Bound(r.session);
      displaced := Ok(tokens);
      Filtered(sessions, TokenOf(), NotSession(r.session));
      sessions := Filter(sessions, NotSession(r.session));
      Appended(sessions, TokenOf(), r);
      sessions := sessions + [r];
    }

    method UnregisterSession(session: string) returns (revoked: set<nat>)
      requires Valid()
      modifies this
      ensures Valid()
      ensures View() == Apply(old(View()), DoUnregister(session))
      ensures revoked == Unregister(old(Contents()), session).1
    {
      StepKeeps(View(), DoUnregister(session));
      revoked := Bound(session);
      Filtered(sessions, TokenOf(), NotSession(session));
      sessions := Filter(sessions, NotSession(session));
    }

    /** The tokens bound to a session. */
    method Bound(session: string) returns (tokens: set<nat>)
      requires Valid()
      ensures tokens == TokensOf(Contents(), session)
    {
      var entries := Filter(sessions, IsSession(session));
      tokens := set r | r in entries :: r.token;
      forall t | t in tokens ensures t in TokensOf(Contents(), session) {
        var r :| r in entries && r.token == t;
        var i :| 0 <= i < |sessions| && sessions[i] == r;
        At(sessions, TokenOf(), i);
      }
      forall t | t in TokensOf(Contents(), session) ensures t in tokens {
        var i := Position(sessions, TokenOf(), t);
        assert sessions[i] in entries;
      }
    }

    method ResolveScope(token: Option<nat>, tty: Option<string>, within: set<nat>)
      returns (scope: Result<Scope, ErrCode>)
      requires Valid()
      modifies this`agentTtys
      ensures Valid()
      ensures View() == Apply(old(View()), DoResolve(token, tty, within))
      ensures scope == ScopeFor(old(View()), token, tty, within)
    {
      match token
      case Some(t) =>
        Found(sessions, TokenOf(), t);
        var i := FindFirst(sessions, HasKey(TokenOf(), t));
        if i.None? {
          return Err(UnknownToken);
        }
        if sessions[i.value].root !in within {
          return Err(ForeignCaller);
        }
        if tty.Some? && tty.value !in agentTtys {
          agentTtys := agentTtys + [tty.value];
        }
        scope := Ok(Session(t));
      case None =>
        match tty
        case Some(name) =>
          scope := if name in agentTtys then Err(AgentTty) else Ok(Tty(name, bootId));
        case None =>
          scope := Err(NoScope);
    }
  }
}
