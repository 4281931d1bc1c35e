/**
 Two runs in which something outlives the session it was made for, whose token is
 registered again by another process: a decrypt, installed for the new registration,
 and a caller, who collects what was decrypted for it.
 */
module SessionWitness {
  import opened Base
  import opened Runs
  import opened Keyed
  import opened Scopes
  import opened Requests
  import opened Broker
  import Secrets = SecretGrants
  import Sessions = SessionRegistry

  const TOKEN: nat := 7
  const KEY := "K"
  const SESSION := "s"

  function FirstRoot(): Sessions.Registration { Sessions.Registration(TOKEN, SESSION, 1) }

  function SecondRoot(): Sessions.Registration { Sessions.Registration(TOKEN, SESSION, 2) }

  function Settings(): Config { Config(SECOND, SECOND, SECOND, 0, 1, Always) }

  function Limits(): QueueLimits { QueueLimits(0, SECOND, 1) }

  function Ask(state: RequestState, generation: nat): Request {
    Request(1, Scope.Session(TOKEN), KEY, state, generation, 0, None)
  }

  /** A queue that has seen one request. */
  function OneAsk(state: RequestState, generation: nat, inflight: Option<nat>): QueueModel {
    QueueModel(map[1 := Ask(state, generation)], Limits(), 2, generation, inflight, None)
  }

  function TheJob(): Job { Job(1, Scope.Session(TOKEN), KEY, 1, 0, None) }

  function Quiet(sessions: Sessions.Sessions, queue: QueueModel, worker: Worker, clients: map<nat, Client>): State {
    State(Settings(), 0, 0, queue, map[], Sessions.RegistryState(sessions, {}, "boot"), map[], [], None,
          worker, clients,
          History([], [], [], []))
  }

  function Caller(phase: Phase): map<nat, Client> { map[0 := Client(Get, KEY, None, 0, phase)] }

  lemma AsksOnce()
    ensures Enqueue(Empty(Limits()), Scope.Session(TOKEN), KEY, 0, None) == (OneAsk(Pending, 0, None), Ok(1))
  {
    var q := Empty(Limits());
    assert !IsCapability(KEY);
    assert SameAskIds(q, Scope.Session(TOKEN), KEY) == {};
    assert CountedIds(q, Scope.Session(TOKEN), false) == {};
  }

  lemma PicksIt()
    ensures Prune(SweepTimeouts(OneAsk(Pending, 0, None), 0), 0) == OneAsk(Pending, 0, None)
    ensures NextReady(OneAsk(Pending, 0, None), 0) == Some(1)
    ensures MarkDecrypting(OneAsk(Pending, 0, None), 1, 0) == (OneAsk(Decrypting, 1, Some(1)), Some(1))
    ensures OverdueIds(OneAsk(Pending, 0, None), 0) == {}
  {
    var q := OneAsk(Pending, 0, None);
    assert OverdueIds(q, 0) == {};
    assert SweepTimeouts(q, 0).requests == q.requests;
    assert SweepTimeouts(q, 0) == q;
    assert Restrict(q.requests, Retains(q.limits, 0)) == q.requests;
    LeastIs(PendingIds(q), 1);
    var marked := Ask(Decrypting, 1);
    assert q.requests[1 := marked] == map[1 := marked];
  }

  function Opening(): seq<Step> {
    [Register(FirstRoot()), Start(0, Get, KEY, None), Resolve(0, Some(TOKEN), None, {1})]
  }

  /** A session registers and a caller of its process gets its scope. */
  lemma Opens() returns (run: Run<State, Step>)
    ensures IsRun(run) && run.steps == Opening()
    ensures EndOf(run)
            == Quiet(map[TOKEN := FirstRoot()], Empty(Limits()), Idle, Caller(Scoped(Scope.Session(TOKEN))))
  {
    var sessions, queue := map[TOKEN := FirstRoot()], Empty(Limits());
    run := Run([Quiet(map[], queue, Idle, map[])], []);
    run := Then(run, Initial, Next, Register(FirstRoot()), Quiet(sessions, queue, Idle, map[]));
    run := Then(run, Initial, Next, Start(0, Get, KEY, None), Quiet(sessions, queue, Idle, Caller(Starting)));
    run := Then(run, Initial, Next, Resolve(0, Some(TOKEN), None, {1}),
                Quiet(sessions, queue, Idle, Caller(Scoped(Scope.Session(TOKEN)))));
  }

  function Asking(): seq<Step> { Opening() + [Enter(0, 0, 0, false, true)] }

  /** The caller asks for a key. */
  lemma Asks() returns (run: Run<State, Step>)
    ensures IsRun(run) && run.steps == Asking()
    ensures EndOf(run) == Quiet(map[TOKEN := FirstRoot()], OneAsk(Pending, 0, None), Idle,
                                Caller(Waiting(Scope.Session(TOKEN), 1, SECOND)))
  {
    run := Opens();
    AsksOnce();
    run := Then(run, Initial, Next, Enter(0, 0, 0, false, true),
                Quiet(map[TOKEN := FirstRoot()], OneAsk(Pending, 0, None), Idle,
                      Caller(Waiting(Scope.Session(TOKEN), 1, SECOND))));
  }

  function Waiter(): map<nat, Client> { Caller(Waiting(Scope.Session(TOKEN), 1, SECOND)) }

  lemma PickStarts(sessions: Sessions.Sessions, clients: map<nat, Client>)
    ensures Next(Quiet(sessions, OneAsk(Pending, 0, None), Idle, clients), Pick(0, {}),
                 Quiet(sessions, OneAsk(Decrypting, 1, Some(1)), Running(TheJob(), 0), clients))
  {
    PicksIt();
    var s := Quiet(sessions, OneAsk(Pending, 0, None), Idle, clients);
    assert Restrict(Restrict(s.grants, Secrets.LiveAt(0)), Secrets.OnPresentTty({})) == map[];
  }

  /** Its decrypt starts. */
  lemma Decrypts() returns (run: Run<State, Step>)
    ensures IsRun(run) && run.steps == Asking() + [Pick(0, {})]
    ensures EndOf(run)
            == Quiet(map[TOKEN := FirstRoot()], OneAsk(Decrypting, 1, Some(1)), Running(TheJob(), 0), Waiter())
  {
    run := Asks();
    PickStarts(map[TOKEN := FirstRoot()], Waiter());
    run := Then(run, Initial, Next, Pick(0, {}),
                Quiet(map[TOKEN := FirstRoot()], OneAsk(Decrypting, 1, Some(1)), Running(TheJob(), 0), Waiter()));
  }

  lemma FirstGoes(queue: QueueModel, worker: Worker, clients: map<nat, Client>)
    ensures Next(Quiet(map[TOKEN := FirstRoot()], queue, worker, clients), Unregister(SESSION),
                 Quiet(map[], queue, worker, clients))
  {
    assert Restrict(map[TOKEN := FirstRoot()], Sessions.NotSession(SESSION)) == map[];
  }

  lemma SecondComes(queue: QueueModel, worker: Worker, clients: map<nat, Client>)
    ensures Next(Quiet(map[], queue, worker, clients), Register(SecondRoot()),
                 Quiet(map[TOKEN := SecondRoot()], queue, worker, clients))
  {
    var none: Sessions.Sessions := map[];
    assert Restrict(none, Sessions.NotSession(SESSION)) == none;
  }

  /** The session goes, and its token comes back from another process, while the decrypt runs. */
  lemma Rebinds() returns (run: Run<State, Step>)
    ensures IsRun(run) && run.steps == Asking() + [Pick(0, {}), Unregister(SESSION), Register(SecondRoot())]
    ensures EndOf(run)
            == Quiet(map[TOKEN := SecondRoot()], OneAsk(Decrypting, 1, Some(1)), Running(TheJob(), 0), Waiter())
  {
    run := Decrypts();
    var queue, worker := OneAsk(Decrypting, 1, Some(1)), Running(TheJob(), 0);
    FirstGoes(queue, worker, Waiter());
    SecondComes(queue, worker, Waiter());
    run := Then(run, Initial, Next, Unregister(SESSION), Quiet(map[], queue, worker, Waiter()));
    run := Then(run, Initial, Next, Register(SecondRoot()), Quiet(map[TOKEN := SecondRoot()], queue, worker, Waiter()));
  }

  /** The only caller ever resolved is inside the first process's tree. */
  function Story(): seq<Step> {
    Asking() + [Pick(0, {}), Unregister(SESSION), Register(SecondRoot()),
                DecryptReturns(0, Some(Read())), Finish(0, 0, 0, true)]
  }

  function Read(): Plain { Plain([42], Secrets.Origin("K.env", 0)) }

  /**
   The value decrypted for the first process is installed under the second: the
   finish asks only whether the token has some live registration.
   */
  lemma GrantOutlivesItsSession() returns (run: Run<State, Step>)
    ensures IsRun(run)
    ensures var s := EndOf(run);
            && (Scope.Session(TOKEN), KEY) in s.grants && s.grants[(Scope.Session(TOKEN), KEY)].value == Read().value
            && TOKEN in s.registry.sessions && s.registry.sessions[TOKEN].root == 2
    ensures run.steps == Story()
  {
    run := Rebinds();
    var s := EndOf(run);
    var returned := s.(worker := Returned(TheJob(), Some(Read())),
                       history := s.history.(decrypts := [Decrypt(TheJob(), 0, 0, Some(Read()))]));
    run := Then(run, Initial, Next, DecryptReturns(0, Some(Read())), returned);
    run := Then(run, Initial, Next, Finish(0, 0, 0, true), OnFinish(returned, 0, 0, 0, true));
  }

  // ---- A caller who collects after its session ----

  function Both(first: Phase, second: Phase): map<nat, Client> {
    map[0 := Client(Get, KEY, None, 0, first), 1 := Client(Get, KEY, None, 0, second)]
  }

  function InScope(): Phase { Scoped(Scope.Session(TOKEN)) }

  /** With the first process's caller resolved, its session goes and the token comes back from another process. */
  lemma Changes() returns (run: Run<State, Step>)
    ensures IsRun(run) && run.steps == Opening() + [Unregister(SESSION), Register(SecondRoot())]
    ensures EndOf(run) == Quiet(map[TOKEN := SecondRoot()], Empty(Limits()), Idle, Caller(InScope()))
  {
    run := Opens();
    FirstGoes(Empty(Limits()), Idle, Caller(InScope()));
    SecondComes(Empty(Limits()), Idle, Caller(InScope()));
    run := Then(run, Initial, Next, Unregister(SESSION), Quiet(map[], Empty(Limits()), Idle, Caller(InScope())));
    run := Then(run, Initial, Next, Register(SecondRoot()),
                Quiet(map[TOKEN := SecondRoot()], Empty(Limits()), Idle, Caller(InScope())));
  }

  function Changing(): seq<Step> {
    Opening() + [Unregister(SESSION), Register(SecondRoot()), Start(1, Get, KEY, None),
                 Resolve(1, Some(TOKEN), None, {2})]
  }

  /** A caller of the second process gets the same scope. */
  lemma Joins() returns (run: Run<State, Step>)
    ensures IsRun(run) && run.steps == Changing()
    ensures EndOf(run) == Quiet(map[TOKEN := SecondRoot()], Empty(Limits()), Idle, Both(InScope(), InScope()))
  {
    var sessions := map[TOKEN := SecondRoot()];
    run := Changes();
    run := Then(run, Initial, Next, Start(1, Get, KEY, None),
                Quiet(sessions, Empty(Limits()), Idle, Both(InScope(), Starting)));
    run := Then(run, Initial, Next, Resolve(1, Some(TOKEN), None, {2}),
                Quiet(sessions, Empty(Limits()), Idle, Both(InScope(), InScope())));
  }

  function Pair(): map<nat, Client> { Both(InScope(), Waiting(Scope.Session(TOKEN), 1, SECOND)) }

  lemma SecondEnters(sessions: Sessions.Sessions)
    ensures Next(Quiet(sessions, Empty(Limits()), Idle, Both(InScope(), InScope())), Enter(1, 0, 0, false, true),
                 Quiet(sessions, OneAsk(Pending, 0, None), Idle, Pair()))
  {
    AsksOnce();
  }

  /** The second caller asks, and its decrypt starts. */
  lemma SecondAsks() returns (run: Run<State, Step>)
    ensures IsRun(run) && run.steps == Changing() + [Enter(1, 0, 0, false, true), Pick(0, {})]
    ensures EndOf(run)
            == Quiet(map[TOKEN := SecondRoot()], OneAsk(Decrypting, 1, Some(1)), Running(TheJob(), 0), Pair())
  {
    var sessions := map[TOKEN := SecondRoot()];
    run := Joins();
    SecondEnters(sessions);
    PickStarts(sessions, Pair());
    run := Then(run, Initial, Next, Enter(1, 0, 0, false, true),
                Quiet(sessions, OneAsk(Pending, 0, None), Idle, Pair()));
    run := Then(run, Initial, Next, Pick(0, {}),
                Quiet(sessions, OneAsk(Decrypting, 1, Some(1)), Running(TheJob(), 0), Pair()));
  }

  function TheGrant(): Secrets.Grant {
    Secrets.Grant(Scope.Session(TOKEN), KEY, Read().value, Read().origin, 0, SECOND)
  }

  /** Its value is installed, for the second process. */
  lemma SecondFinishes() returns (run: Run<State, Step>)
    ensures IsRun(run)
    ensures run.steps == Changing() + [Enter(1, 0, 0, false, true), Pick(0, {}), DecryptReturns(0, Some(Read())),
                                       Finish(0, 0, 0, true)]
    ensures EndOf(run).grants == map[(Scope.Session(TOKEN), KEY) := TheGrant()]
    ensures EndOf(run).clients == Pair() && EndOf(run).clock == 0 && EndOf(run).history.releases == []
    ensures EndOf(run).registry.sessions == map[TOKEN := SecondRoot()]
  {
    run := SecondAsks();
    var s := EndOf(run);
    var returned := s.(worker := Returned(TheJob(), Some(Read())),
                       history := s.history.(decrypts := [Decrypt(TheJob(), 0, 0, Some(Read()))]));
    run := Then(run, Initial, Next, DecryptReturns(0, Some(Read())), returned);
    run := Then(run, Initial, Next, Finish(0, 0, 0, true), OnFinish(returned, 0, 0, 0, true));
  }

  function Collecting(): seq<Step> {
    Changing() + [Enter(1, 0, 0, false, true), Pick(0, {}), DecryptReturns(0, Some(Read())), Finish(0, 0, 0, true),
                  Enter(0, 0, 0, true, true), Collect(0, 0)]
  }

  /**
   The caller resolved inside the first process's tree collects the value decrypted for
   the second: neither its entry nor its collection looks at the registration again.
   */
  lemma CollectedFromTheNextSession() returns (run: Run<State, Step>)
    ensures IsRun(run) && run.steps == Collecting()
    ensures var s := EndOf(run);
            && |s.history.releases| == 1 && s.history.releases[0].value == Read().value
            && TOKEN in s.registry.sessions && s.registry.sessions[TOKEN].root == 2
  {
    run := SecondFinishes();
    var s := EndOf(run);
    var approved := s.(clients := s.clients[0 := s.clients[0].(phase := Approved(Scope.Session(TOKEN), None))]);
    run := Then(run, Initial, Next, Enter(0, 0, 0, true, true), approved);
    run := Then(run, Initial, Next, Collect(0, 0), OnCollect(approved, 0, 0));
  }
}
