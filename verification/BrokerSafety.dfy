/**
 Safety of the approval core over every run: where released bytes come from,
 that a raced decrypt installs nothing, that each touch starts one decrypt, and
 that each redeemed receipt was paid for by its own touch.
 */
module BrokerSafety {
  import opened Base
  import opened Keyed
  import opened Scopes
  import opened Requests
  import opened Broker
  import opened BrokerQueue
  import Secrets = SecretGrants
  import Sessions = SessionRegistry
  import Receipts

  // ---- Grants ----

  /** A completed decrypt that could have produced this grant in this lock epoch. */
  predicate Produced(d: Decrypt, g: Secrets.Grant, lockEpoch: nat, config: Config) {
    && d.job.scope == g.scope && d.job.key == g.key
    && d.job.lockEpoch == lockEpoch
    && d.outcome == Some(Plain(g.value, g.origin))
    && d.ended <= g.created
    && g.ttl == EffectiveTtl(d.job.requestedTtl, config)
  }

  ghost predicate Backed(g: Secrets.Grant, decrypts: seq<Decrypt>, lockEpoch: nat, config: Config) {
    exists i :: 0 <= i < |decrypts| && Produced(decrypts[i], g, lockEpoch, config)
  }

  /** Every grant was decrypted in this epoch, for its own scope and key, and its session is still registered. */
  ghost predicate GrantsInv(grants: Secrets.Table, sessions: Sessions.Sessions, decrypts: seq<Decrypt>,
                            lockEpoch: nat, config: Config, clock: nat)
  {
    forall k :: k in grants ==>
                  && (grants[k].scope, grants[k].key) == k
                  && grants[k].created <= clock
                  && Backed(grants[k], decrypts, lockEpoch, config)
                  && (k.0.Session? ==> k.0.token in sessions)
  }

  ghost predicate SubTable(fewer: Secrets.Table, grants: Secrets.Table) {
    forall k :: k in fewer ==> k in grants && fewer[k] == grants[k]
  }

  lemma BackedGrows(g: Secrets.Grant, decrypts: seq<Decrypt>, more: seq<Decrypt>, lockEpoch: nat, config: Config)
    requires Backed(g, decrypts, lockEpoch, config)
    ensures Backed(g, decrypts + more, lockEpoch, config)
  {
    var i :| 0 <= i < |decrypts| && Produced(decrypts[i], g, lockEpoch, config);
    assert (decrypts + more)[i] == decrypts[i];
  }

  /** Revoking grants, and running more decrypts, keeps the rest backed. */
  lemma FewerGrantsKept(grants: Secrets.Table, fewer: Secrets.Table, sessions: Sessions.Sessions,
                        decrypts: seq<Decrypt>, more: seq<Decrypt>, lockEpoch: nat, config: Config, clock: nat,
                        now: nat)
    requires GrantsInv(grants, sessions, decrypts, lockEpoch, config, clock)
    requires SubTable(fewer, grants) && clock <= now
    ensures GrantsInv(fewer, sessions, decrypts + more, lockEpoch, config, now)
  {
    forall k | k in fewer ensures Backed(fewer[k], decrypts + more, lockEpoch, config) {
      BackedGrows(fewer[k], decrypts, more, lockEpoch, config);
    }
  }

  // ---- Clients waiting for approval ----

  /** No decrypt of this request was started before this epoch. */
  ghost predicate NoOlder(decrypts: seq<Decrypt>, w: Worker, id: nat, epoch: nat) {
    && (forall i :: 0 <= i < |decrypts| && decrypts[i].job.id == id ==> epoch <= decrypts[i].job.lockEpoch)
    && (!w.Idle? && w.job.id == id ==> epoch <= w.job.lockEpoch)
  }

  function RequestOf(c: Client): Option<nat> {
    match c.phase
    case Waiting(_, id, _) => Some(id)
    case Approved(_, requestId) => requestId
    case _ => None
  }

  ghost predicate ClientOk(c: Client, q: QueueModel, w: Worker, decrypts: seq<Decrypt>, lockEpoch: nat) {
    && KeyFits(c.kind, c.key)
    && c.epochBefore <= lockEpoch
    && (RequestOf(c).Some? ==> RequestOf(c).value < q.nextId)
    && (RequestOf(c).Some? && c.kind.Authorize? ==> NoOlder(decrypts, w, RequestOf(c).value, c.epochBefore))
    && (c.phase.Waiting? && c.phase.id in q.requests ==>
          q.requests[c.phase.id].scope == c.phase.scope && q.requests[c.phase.id].key == c.key)
    && (c.phase.Approved? ==>
          if c.phase.requestId.Some? then Proven(decrypts, c.phase.requestId.value, c.phase.scope, c.key)
          else !c.kind.Authorize?)
  }

  ghost predicate ClientsInv(clients: map<nat, Client>, q: QueueModel, w: Worker, decrypts: seq<Decrypt>,
                             lockEpoch: nat) {
    forall c :: c in clients ==> ClientOk(clients[c], q, w, decrypts, lockEpoch)
  }

  /** Work moves on: a decrypt returns, the worker rests, or a job starts in the current epoch. */
  ghost predicate WorkGrows(w: Worker, w': Worker, more: seq<Decrypt>, lockEpoch: nat) {
    && (forall i :: 0 <= i < |more| ==> !w.Idle? && more[i].job == w.job)
    && (w'.Idle? || (!w.Idle? && w'.job == w.job) || w'.job.lockEpoch == lockEpoch)
  }

  lemma ClientKept(c: Client, q: QueueModel, q': QueueModel, w: Worker, w': Worker,
                   decrypts: seq<Decrypt>, more: seq<Decrypt>, lockEpoch: nat, lockEpoch': nat)
    requires ClientOk(c, q, w, decrypts, lockEpoch)
    requires Evolves(q, q') && WorkGrows(w, w', more, lockEpoch) && lockEpoch <= lockEpoch'
    ensures ClientOk(c, q', w', decrypts + more, lockEpoch')
  {
    if c.phase.Approved? && c.phase.requestId.Some? {
      ProvenGrows(decrypts, more, c.phase.requestId.value, c.phase.scope, c.key);
    }
    if c.phase.Waiting? && c.phase.id in q'.requests {
      assert c.phase.id in q.requests;
      assert RequestEvolves(q.requests[c.phase.id], q'.requests[c.phase.id]);
    }
  }

  lemma ClientsKept(clients: map<nat, Client>, q: QueueModel, q': QueueModel, w: Worker, w': Worker,
                    decrypts: seq<Decrypt>, more: seq<Decrypt>, lockEpoch: nat, lockEpoch': nat)
    requires ClientsInv(clients, q, w, decrypts, lockEpoch)
    requires Evolves(q, q') && WorkGrows(w, w', more, lockEpoch) && lockEpoch <= lockEpoch'
    ensures ClientsInv(clients, q', w', decrypts + more, lockEpoch')
  {
    forall c | c in clients ensures ClientOk(clients[c], q', w', decrypts + more, lockEpoch') {
      ClientKept(clients[c], q, q', w, w', decrypts, more, lockEpoch, lockEpoch');
    }
  }

  /** Authorizations never share a request, and none waits on a request that already minted. */
  ghost predicate SeparateRequests(clients: map<nat, Client>, mints: seq<MintRecord>) {
    && (forall a, b :: a in clients && b in clients && a != b
                       && clients[a].kind.Authorize? && clients[b].kind.Authorize? && RequestOf(clients[a]).Some?
                       ==> RequestOf(clients[a]) != RequestOf(clients[b]))
    && (forall a, j :: a in clients && 0 <= j < |mints|
                       && clients[a].kind.Authorize? && RequestOf(clients[a]).Some?
                       ==> mints[j].requestId != RequestOf(clients[a]).value)
  }

  // ---- Receipts ----

  /** The touch that paid for a receipt: its own request, its own capability key, its own epoch. */
  predicate Paid(d: Decrypt, m: MintRecord) {
    d.job.id == m.requestId && d.job.key == CapKey(m.cap) && d.job.lockEpoch == m.epoch && d.outcome.Some?
  }

  ghost predicate HasTouch(m: MintRecord, decrypts: seq<Decrypt>) {
    exists i :: 0 <= i < |decrypts| && Paid(decrypts[i], m)
  }

  ghost predicate MintsInv(mints: seq<MintRecord>, decrypts: seq<Decrypt>) {
    && (forall j :: 0 <= j < |mints| ==> HasTouch(mints[j], decrypts))
    && (forall i, j :: 0 <= i < j < |mints| ==> mints[i].requestId != mints[j].requestId)
  }

  lemma MintsGrow(mints: seq<MintRecord>, decrypts: seq<Decrypt>, more: seq<Decrypt>)
    requires MintsInv(mints, decrypts)
    ensures MintsInv(mints, decrypts + more)
  {
    forall j | 0 <= j < |mints| ensures HasTouch(mints[j], decrypts + more) {
      var i :| 0 <= i < |decrypts| && Paid(decrypts[i], mints[j]);
      assert (decrypts + more)[i] == decrypts[i];
    }
  }

  predicate MintedAs(m: MintRecord, id: Receipts.Id, cap: string, epoch: nat, at: nat) {
    m.id == id && m.cap == cap && m.epoch == epoch && m.at == at
  }

  ghost predicate WasMinted(mints: seq<MintRecord>, id: Receipts.Id, cap: string, epoch: nat, at: nat) {
    exists j :: 0 <= j < |mints| && MintedAs(mints[j], id, cap, epoch, at)
  }

  ghost predicate ReceiptsInv(receipts: Receipts.Outstanding, mints: seq<MintRecord>, lockEpoch: nat) {
    forall id :: id in receipts ==>
                   receipts[id].id == id && WasMinted(mints, id, receipts[id].cap, lockEpoch, receipts[id].minted)
  }

  ghost predicate RedeemBacked(r: RedeemRecord, mints: seq<MintRecord>) {
    exists at :: WasMinted(mints, r.id, r.cap, r.epoch, at) && Elapsed(at, r.at) < Receipts.RECEIPT_TTL
  }

  function TimesMinted(mints: seq<MintRecord>, id: Receipts.Id, cap: string, epoch: nat): nat {
    if mints == [] then 0
    else
      var m := mints[|mints| - 1];
      TimesMinted(mints[..|mints| - 1], id, cap, epoch)
      + if m.id == id && m.cap == cap && m.epoch == epoch then 1 else 0
  }

  function TimesRedeemed(redeems: seq<RedeemRecord>, id: Receipts.Id, cap: string, epoch: nat): nat {
    if redeems == [] then 0
    else
      var r := redeems[|redeems| - 1];
      TimesRedeemed(redeems[..|redeems| - 1], id, cap, epoch)
      + if r.id == id && r.cap == cap && r.epoch == epoch then 1 else 0
  }

  predicate Outstanding(receipts: Receipts.Outstanding, lockEpoch: nat, id: Receipts.Id, cap: string, epoch: nat) {
    id in receipts && receipts[id].cap == cap && epoch == lockEpoch
  }

  /** Each redemption, and each receipt still outstanding, has a mint of its own. */
  predicate Balanced(receipts: Receipts.Outstanding, mints: seq<MintRecord>, redeems: seq<RedeemRecord>, lockEpoch: nat,
                     id: Receipts.Id, cap: string, epoch: nat)
  {
    TimesRedeemed(redeems, id, cap, epoch) + (if Outstanding(receipts, lockEpoch, id, cap, epoch) then 1 else 0)
    <= TimesMinted(mints, id, cap, epoch)
  }

  ghost predicate RedeemsInv(receipts: Receipts.Outstanding, mints: seq<MintRecord>, redeems: seq<RedeemRecord>,
                             lockEpoch: nat) {
    && (forall j :: 0 <= j < |redeems| ==> RedeemBacked(redeems[j], mints))
    && (forall id, cap, epoch :: Balanced(receipts, mints, redeems, lockEpoch, id, cap, epoch))
  }

  /** Fewer receipts, or a later epoch with none, owe no more mints. */
  lemma FewerReceiptsBalance(receipts: Receipts.Outstanding, fewer: Receipts.Outstanding, mints: seq<MintRecord>,
                             redeems: seq<RedeemRecord>, lockEpoch: nat, lockEpoch': nat)
    requires RedeemsInv(receipts, mints, redeems, lockEpoch)
    requires forall id :: id in fewer ==> id in receipts && fewer[id] == receipts[id] && lockEpoch' == lockEpoch
    ensures RedeemsInv(fewer, mints, redeems, lockEpoch')
  {
    forall id, cap, epoch
      ensures Balanced(fewer, mints, redeems, lockEpoch', id, cap, epoch)
    {
      assert Balanced(receipts, mints, redeems, lockEpoch, id, cap, epoch);
    }
  }

  // ---- Releases ----

  /** Bytes handed out came from a decrypt for that scope and key, in that epoch, within its lifetime. */
  predicate ReleasedFrom(r: Release, d: Decrypt, config: Config) {
    && d.job.scope == r.scope && d.job.key == r.key
    && d.job.lockEpoch == r.epoch
    && d.outcome.Some? && d.outcome.value.value == r.value
    && d.ended <= r.created <= r.at
    && r.at - r.created < EffectiveTtl(d.job.requestedTtl, config)
  }

  ghost predicate HasSource(r: Release, decrypts: seq<Decrypt>, config: Config) {
    exists i :: 0 <= i < |decrypts| && ReleasedFrom(r, decrypts[i], config)
  }

  ghost predicate ReleasesInv(releases: seq<Release>, decrypts: seq<Decrypt>, config: Config) {
    forall j :: 0 <= j < |releases| ==> HasSource(releases[j], decrypts, config) && !IsCapability(releases[j].key)
  }

  lemma ReleasesGrow(releases: seq<Release>, decrypts: seq<Decrypt>, more: seq<Decrypt>, config: Config)
    requires ReleasesInv(releases, decrypts, config)
    ensures ReleasesInv(releases, decrypts + more, config)
  {
    forall j | 0 <= j < |releases| ensures HasSource(releases[j], decrypts + more, config) {
      var i :| 0 <= i < |decrypts| && ReleasedFrom(releases[j], decrypts[i], config);
      assert (decrypts + more)[i] == decrypts[i];
    }
  }

  // ---- The whole invariant ----

  ghost predicate Inv(s: State) {
    var h := s.history;
    && s.queue.limits.cooldown == s.config.cooldown
    && Sessions.OneToOne(s.registry.sessions)
    && WorkInv(s.queue, s.worker, h.decrypts, s.lockEpoch)
    && Spaced(s.queue.lastFinished, s.worker, h.decrypts, s.clock, s.config.cooldown)
    && GrantsInv(s.grants, s.registry.sessions, h.decrypts, s.lockEpoch, s.config, s.clock)
    && ClientsInv(s.clients, s.queue, s.worker, h.decrypts, s.lockEpoch)
    && SeparateRequests(s.clients, h.mints)
    && MintsInv(h.mints, h.decrypts)
    && ReceiptsInv(s.receipts, h.mints, s.lockEpoch)
    && RedeemsInv(s.receipts, h.mints, h.redeems, s.lockEpoch)
    && ReleasesInv(h.releases, h.decrypts, s.config)
  }

  lemma InitialInv(s: State)
    requires Initial(s)
    ensures Inv(s)
  {
    ReachableQueue(s.queue.limits, []);
  }

  lemma NoMore(decrypts: seq<Decrypt>)
    ensures decrypts + [] == decrypts
  {
  }

  /** A queue change that is not the worker's, with everything else left alone. */
  lemma QuietStepInv(s: State, s': State, now: nat)
    requires Inv(s) && s.clock <= now
    requires Quiet(s.queue, s'.queue, now) && QueueInv(s'.queue) && OneInFlight(s'.queue)
    requires s' == s.(clock := now, queue := s'.queue, active := s'.active)
    ensures Inv(s')
  {
    var h := s.history;
    NoMore(h.decrypts);
    QuietKeepsWork(s.queue, s'.queue, s.worker, h.decrypts, s.lockEpoch, now);
    FinishedLaterKeepsSpacing(s.queue.lastFinished, s'.queue.lastFinished, s.worker, h.decrypts, s.clock, now,
                              s.config.cooldown);
    FewerGrantsKept(s.grants, s.grants, s.registry.sessions, h.decrypts, [], s.lockEpoch, s.config, s.clock, now);
    ClientsKept(s.clients, s.queue, s'.queue, s.worker, s.worker, h.decrypts, [], s.lockEpoch, s.lockEpoch);
  }

  /** Revoking grants and sweeping receipts, with everything else left alone. */
  lemma FewerStepInv(s: State, s': State)
    requires Inv(s)
    requires SubTable(s'.grants, s.grants)
    requires forall id :: id in s'.receipts ==> id in s.receipts && s'.receipts[id] == s.receipts[id]
    requires s' == s.(grants := s'.grants, receipts := s'.receipts, capabilityGrants := s'.capabilityGrants)
    ensures Inv(s')
  {
    NoMore(s.history.decrypts);
    FewerReceiptsBalance(s.receipts, s'.receipts, s.history.mints, s.history.redeems, s.lockEpoch, s.lockEpoch);
    FewerGrantsKept(s.grants, s'.grants, s.registry.sessions, s.history.decrypts, [], s.lockEpoch, s.config, s.clock,
                    s.clock);
  }

  lemma DropClientInv(s: State, c: nat)
    requires Inv(s)
    ensures Inv(s.(clients := s.clients - {c}))
  {
  }

  lemma HousekeepInv(s: State, now: nat, present: set<string>)
    requires Inv(s) && s.clock <= now
    ensures Inv(Housekeep(s, now, present))
  {
    var swept := SweepTimeouts(s.queue, now);
    var kept := Housekeep(s, now, present);
    SweepIsQuiet(s.queue, now);
    PruneIsQuiet(swept, now);
    QuietTransitive(s.queue, swept, kept.queue, now);
    var mid := s.(clock := now, queue := kept.queue, active := kept.active);
    QuietStepInv(s, mid, now);
    Receipts.SweepShrinks(s.receipts, now);
    FewerStepInv(mid, kept);
  }

  /** Starting the decrypt of a request that is ready. */
  lemma StartDecryptInv(s: State, id: nat, now: nat)
    requires Inv(s) && s.worker.Idle? && s.clock == now && NextReady(s.queue, now) == Some(id)
    ensures id in s.queue.requests && MarkDecrypting(s.queue, id, now).1.Some?
    ensures var (queue, generation) := MarkDecrypting(s.queue, id, now);
            var r := s.queue.requests[id];
            Inv(s.(queue := queue,
                worker := Running(Job(id, r.scope, r.key, generation.value, s.lockEpoch, r.requestedTtl), now)))
  {
    assert id in PendingIds(s.queue);
    var h := s.history;
    var (queue, generation) := MarkDecrypting(s.queue, id, now);
    var r := s.queue.requests[id];
    var w := Running(Job(id, r.scope, r.key, generation.value, s.lockEpoch, r.requestedTtl), now);
    MarkKeepsWork(s.queue, h.decrypts, s.lockEpoch, id, now);
    MarkWinds(s.queue, id, now);
    NoMore(h.decrypts);
    StartKeepsSpacing(s.queue.lastFinished, w.job, h.decrypts, s.queue.limits, now);
    ClientsKept(s.clients, s.queue, queue, s.worker, w, h.decrypts, [], s.lockEpoch, s.lockEpoch);
  }

  lemma PickInv(s: State, now: nat, present: set<string>)
    requires Inv(s) && s.worker.Idle? && s.clock <= now
    ensures Inv(OnPick(s, now, present))
  {
    var kept := Housekeep(s, now, present);
    HousekeepInv(s, now, present);
    var next := NextReady(kept.queue, now);
    if next.Some? {
      var id := next.value;
      ReadyIsMarked(kept.queue, id, now);
      var (queue, generation) := MarkDecrypting(kept.queue, id, now);
      var r := kept.queue.requests[id];
      var job := Job(id, r.scope, r.key, generation.value, s.lockEpoch, r.requestedTtl);
      assert OnPick(s, now, present) == kept.(queue := queue, worker := Running(job, now));
      assert Inv(kept.(queue := queue, worker := Running(job, now))) by { StartDecryptInv(kept, id, now); }
    }
  }

  lemma ReadyIsMarked(q: QueueModel, id: nat, now: nat)
    requires NextReady(q, now) == Some(id)
    ensures id in q.requests && MarkDecrypting(q, id, now).1.Some?
    ensures var r, marked := q.requests[id], MarkDecrypting(q, id, now).0.requests;
            && id in marked && marked[id].scope == r.scope && marked[id].key == r.key
            && marked[id].requestedTtl == r.requestedTtl
  {
    assert id in PendingIds(q);
  }

  lemma ReturnInv(s: State, now: nat, outcome: Option<Plain>)
    requires Inv(s) && s.worker.Running? && s.clock <= now
    ensures Inv(OnReturn(s, now, outcome))
  {
    var h := s.history;
    var d := Decrypt(s.worker.job, s.worker.started, now, outcome);
    var s' := OnReturn(s, now, outcome);
    ReturnKeepsWork(s.queue, s.worker, h.decrypts, s.lockEpoch, d);
    FewerGrantsKept(s.grants, s.grants, s.registry.sessions, h.decrypts, [d], s.lockEpoch, s.config, s.clock, now);
    ClientsKept(s.clients, s.queue, s.queue, s.worker, s'.worker, h.decrypts, [d], s.lockEpoch, s.lockEpoch);
    MintsGrow(h.mints, h.decrypts, [d]);
    ReleasesGrow(h.releases, h.decrypts, [d], s.config);
  }

  /**
   A returned decrypt installs its grant exactly when, at that moment, its
   request is still decrypting, no lock has intervened, its terminal or session
   process is there, and its session, if it has one, is still registered.
   */
  lemma InstallsIff(s: State, denyAt: nat, completeAt: nat, alive: bool)
    requires WorkInv(s.queue, s.worker, s.history.decrypts, s.lockEpoch) && s.worker.Returned?
    ensures Completed(s, denyAt, completeAt, alive).1 <==>
            && s.worker.job.id in s.queue.requests
            && s.queue.requests[s.worker.job.id].state.Decrypting?
            && s.lockEpoch == s.worker.job.lockEpoch
            && alive && (s.worker.job.scope.Session? ==> s.worker.job.scope.token in s.registry.sessions)
  {
  }

  lemma FinishSpacing(lastFinished: Option<nat>, w: Worker, decrypts: seq<Decrypt>, clock: nat, at: nat, now: nat,
                      cooldown: nat)
    requires Spaced(lastFinished, w, decrypts, clock, cooldown) && clock <= at <= now
    ensures Spaced(Some(at), Idle, decrypts, now, cooldown)
  {
  }

  /** Inserting the value of the decrypt that just returned. */
  lemma InstallKeepsGrants(s: State, g: Secrets.Grant, now: nat)
    requires Inv(s) && s.worker.Returned? && s.clock <= now
    requires s.worker.job.lockEpoch == s.lockEpoch && ScopeLives(s, s.worker.job.scope, true)
    requires g.created == now && s.worker.outcome == Some(Plain(g.value, g.origin))
    requires g.scope == s.worker.job.scope && g.key == s.worker.job.key
    requires g.ttl == EffectiveTtl(s.worker.job.requestedTtl, s.config)
    ensures GrantsInv(s.grants[(g.scope, g.key) := g], s.registry.sessions, s.history.decrypts, s.lockEpoch,
                      s.config, now)
  {
    var decrypts := s.history.decrypts;
    assert Produced(decrypts[|decrypts| - 1], g, s.lockEpoch, s.config);
  }

  /** The worker rests: the queue it leaves behind, and the grants it may have installed. */
  lemma RestInv(s: State, s': State, at: nat, now: nat)
    requires Inv(s) && s.worker.Returned? && s.clock <= at <= now
    requires WorkInv(s'.queue, Idle, s.history.decrypts, s.lockEpoch) && Evolves(s.queue, s'.queue)
    requires s'.queue.lastFinished == Some(at)
    requires GrantsInv(s'.grants, s.registry.sessions, s.history.decrypts, s.lockEpoch, s.config, now)
    requires s' == s.(clock := now, worker := Idle, active := s'.active, queue := s'.queue, grants := s'.grants)
    ensures Inv(s')
  {
    var h := s.history;
    NoMore(h.decrypts);
    FinishSpacing(s.queue.lastFinished, s.worker, h.decrypts, s.clock, at, now, s.config.cooldown);
    ClientsKept(s.clients, s.queue, s'.queue, s.worker, Idle, h.decrypts, [], s.lockEpoch, s.lockEpoch);
  }

  /** The queue side of a returned value: deny what a lock or a vanished scope ended, then complete. */
  lemma CompletedWork(s: State, denyAt: nat, completeAt: nat, alive: bool)
    requires Inv(s) && s.worker.Returned? && s.worker.outcome.Some?
    ensures var queue := Completed(s, denyAt, completeAt, alive).0;
            && WorkInv(queue, Idle, s.history.decrypts, s.lockEpoch)
            && Evolves(s.queue, queue)
            && queue.lastFinished == Some(completeAt)
  {
    var h, job := s.history, s.worker.job;
    var denied := if s.lockEpoch != job.lockEpoch || !ScopeLives(s, job.scope, alive)
      then End(s.queue, job.id, RequestState.Denied, denyAt).0 else s.queue;
    EndIsQuiet(s.queue, job.id, RequestState.Denied, denyAt);
    QuietKeepsWork(s.queue, denied, s.worker, h.decrypts, s.lockEpoch, denyAt);
    CompleteKeepsWork(denied, s.worker, h.decrypts, s.lockEpoch, completeAt);
    CompleteWinds(denied, job.id, job.generation, completeAt);
    EvolvesTransitive(s.queue, denied, Complete(denied, job.id, job.generation, completeAt).0);
  }

  lemma FinishInv(s: State, denyAt: nat, completeAt: nat, insertAt: nat, alive: bool)
    requires Inv(s) && s.worker.Returned? && s.clock <= denyAt <= completeAt <= insertAt
    ensures Inv(OnFinish(s, denyAt, completeAt, insertAt, alive))
  {
    var h, job := s.history, s.worker.job;
    var s' := OnFinish(s, denyAt, completeAt, insertAt, alive);
    NoMore(h.decrypts);
    FewerGrantsKept(s.grants, s.grants, s.registry.sessions, h.decrypts, [], s.lockEpoch, s.config, s.clock, insertAt);
    if s.worker.outcome.Some? {
      CompletedWork(s, denyAt, completeAt, alive);
      InstallsIff(s, denyAt, completeAt, alive);
      if Completed(s, denyAt, completeAt, alive).1 {
        InstallKeepsGrants(s, s'.grants[(job.scope, job.key)], insertAt);
      }
    } else {
      FailKeepsWork(s.queue, s.worker, h.decrypts, s.lockEpoch, completeAt);
      FailWinds(s.queue, job.id, completeAt);
    }
    RestInv(s, s', completeAt, insertAt);
  }

  /** Replacing one client by another that fits, taking no request another authorization has. */
  lemma SetClientInv(s: State, c: nat, client: Client)
    requires Inv(s)
    requires ClientOk(client, s.queue, s.worker, s.history.decrypts, s.lockEpoch)
    requires client.kind.Authorize? && RequestOf(client).Some? ==>
               && (forall a :: a in s.clients && a != c && s.clients[a].kind.Authorize? ==>
                                 RequestOf(s.clients[a]) != RequestOf(client))
               && (forall j :: 0 <= j < |s.history.mints| ==> s.history.mints[j].requestId != RequestOf(client).value)
    ensures Inv(s.(clients := s.clients[c := client]))
  {
  }

  lemma TickInv(s: State, now: nat)
    requires Inv(s) && s.clock <= now
    ensures Inv(s.(clock := now))
  {
    NoMore(s.history.decrypts);
    FewerGrantsKept(s.grants, s.grants, s.registry.sessions, s.history.decrypts, [], s.lockEpoch, s.config, s.clock,
                    now);
    FinishedLaterKeepsSpacing(s.queue.lastFinished, s.queue.lastFinished, s.worker, s.history.decrypts, s.clock, now,
                              s.config.cooldown);
  }

  lemma RegistryInv(s: State, op: Sessions.RegistryOp, revoked: set<nat>)
    requires Inv(s)
    requires forall t :: t in s.registry.sessions && t !in Sessions.Apply(s.registry, op).sessions ==> t in revoked
    ensures Inv(s.(registry := Sessions.Apply(s.registry, op),
                   grants := Restrict(s.grants, Secrets.NotHeldBy(revoked))))
  {
    Sessions.StepKeeps(s.registry, op);
  }

  lemma ResolveInv(s: State, c: nat, token: Option<nat>, tty: Option<string>, within: set<nat>)
    requires Inv(s) && c in s.clients && s.clients[c].phase.Starting?
    ensures Inv(OnResolve(s, c, token, tty, within))
  {
    var op := Sessions.DoResolve(token, tty, within);
    Sessions.StepKeeps(s.registry, op);
    var learned := s.(registry := Sessions.Apply(s.registry, op));
    assert Inv(learned);
    match Sessions.ScopeFor(s.registry, token, tty, within)
    case Ok(scope) => SetClientInv(learned, c, s.clients[c].(phase := Scoped(scope)));
    case Err(_) => DropClientInv(learned, c);
  }

  lemma RegisterInv(s: State, r: Sessions.Registration)
    requires Inv(s)
    ensures Inv(OnRegister(s, r))
  {
    var displaced := Sessions.Register(s.registry.sessions, r).1;
    if displaced.Ok? {
      RegistryInv(s, Sessions.DoRegister(r), displaced.value);
    }
  }

  lemma UnregisterInv(s: State, session: string)
    requires Inv(s)
    ensures Inv(OnUnregister(s, session))
  {
    RegistryInv(s, Sessions.DoUnregister(session), Sessions.Unregister(s.registry.sessions, session).1);
  }

  /** A waiter whose deadline passed ends its own request. */
  lemma TimeoutInv(s: State, id: nat, now: nat)
    requires Inv(s) && s.clock <= now
    ensures Inv(s.(clock := now, queue := End(s.queue, id, TimedOut, now).0, active := KillActive(s.active, id)))
  {
    EndIsQuiet(s.queue, id, TimedOut, now);
    QuietStepInv(s, s.(clock := now, queue := End(s.queue, id, TimedOut, now).0, active := KillActive(s.active, id)),
                 now);
  }

  /** A waiter learns that its request was granted. */
  lemma ApprovedOk(s: State, c: nat)
    requires Inv(s) && c in s.clients && s.clients[c].phase.Waiting?
    requires s.clients[c].phase.id in s.queue.requests && s.queue.requests[s.clients[c].phase.id].state.Granted?
    ensures var approved := Approved(s.clients[c].phase.scope, Some(s.clients[c].phase.id));
            Inv(s.(clients := s.clients[c := s.clients[c].(phase := approved)]))
  {
    var client := s.clients[c];
    SetClientInv(s, c, client.(phase := Approved(client.phase.scope, Some(client.phase.id))));
  }

  lemma PollInv(s: State, c: nat, now: nat)
    requires Inv(s) && c in s.clients && s.clients[c].phase.Waiting? && s.clock <= now
    ensures Inv(OnPoll(s, c, now))
  {
    var id := s.clients[c].phase.id;
    TickInv(s, now);
    var ticked := s.(clock := now);
    if id !in s.queue.requests {
      DropClientInv(ticked, c);
    } else if s.queue.requests[id].state.Granted? {
      ApprovedOk(ticked, c);
    } else if !Active(s.queue.requests[id].state) {
      DropClientInv(ticked, c);
    } else {
      TimeoutInv(s, id, now);
      DropClientInv(s.(clock := now, queue := End(s.queue, id, TimedOut, now).0, active := KillActive(s.active, id)),
                    c);
    }
  }

  lemma DenyInv(s: State, id: nat, now: nat)
    requires Inv(s) && s.clock <= now
    ensures Inv(OnDeny(s, id, now))
  {
    EndIsQuiet(s.queue, id, RequestState.Denied, now);
    QuietStepInv(s, OnDeny(s, id, now), now);
  }

  /** Advancing the epoch over emptied tables. */
  lemma EpochInv(s: State)
    requires Inv(s)
    ensures Inv(s.(grants := map[], receipts := map[], capabilityGrants := [], lockEpoch := s.lockEpoch + 1))
  {
    NoMore(s.history.decrypts);
    FewerReceiptsBalance(s.receipts, map[], s.history.mints, s.history.redeems, s.lockEpoch, s.lockEpoch + 1);
    ClientsKept(s.clients, s.queue, s.queue, s.worker, s.worker, s.history.decrypts, [], s.lockEpoch, s.lockEpoch + 1);
  }

  lemma LockInv(s: State, now: nat)
    requires Inv(s) && s.clock <= now
    ensures Inv(OnLock(s, now))
  {
    var queue := if s.active.Some? then End(s.queue, s.active.value, RequestState.Denied, now).0 else s.queue;
    if s.active.Some? {
      EndIsQuiet(s.queue, s.active.value, RequestState.Denied, now);
    }
    var denied := s.(clock := now, queue := queue, active := None);
    QuietStepInv(s, denied, now);
    EpochInv(denied);
  }

  /** What a GET hands out is what a backed, live grant holds. */
  lemma ReleaseSource(s: State, scope: Scope, key: string, g: Secrets.Grant, now: nat)
    requires GrantsInv(s.grants, s.registry.sessions, s.history.decrypts, s.lockEpoch, s.config, s.clock)
             && s.clock <= now
    requires Secrets.Lookup(s.grants, scope, key, now) == Some(g)
    ensures HasSource(Release(scope, key, g.value, g.created, now, s.lockEpoch), s.history.decrypts, s.config)
  {
    var r := Release(scope, key, g.value, g.created, now, s.lockEpoch);
    var i :| 0 <= i < |s.history.decrypts| && Produced(s.history.decrypts[i], g, s.lockEpoch, s.config);
    assert ReleasedFrom(r, s.history.decrypts[i], s.config);
  }

  lemma CollectInv(s: State, c: nat, now: nat)
    requires Inv(s) && c in s.clients && s.clients[c].phase.Approved? && !s.clients[c].kind.Authorize? && s.clock <= now
    ensures Inv(OnCollect(s, c, now))
  {
    var client := s.clients[c];
    var found := Secrets.Lookup(s.grants, client.phase.scope, client.key, now);
    if found.Some? && client.kind.Get? {
      ReleaseSource(s, client.phase.scope, client.key, found.value, now);
    }
    TickInv(s, now);
    DropClientInv(s.(clock := now), c);
  }

  // ---- Entering the queue ----

  /** The id an access waits on: its own ask, and for a capability a brand new request. */
  lemma EnqueuedAsk(q: QueueModel, scope: Scope, key: string, now: nat, ttl: Option<nat>)
    requires WellKeyed(q) && Enqueue(q, scope, key, now, ttl).1.Ok?
    ensures var (q', result) := Enqueue(q, scope, key, now, ttl);
            && result.value in q'.requests
            && q'.requests[result.value].scope == scope && q'.requests[result.value].key == key
            && result.value < q'.nextId
            && (IsCapability(key) ==> result.value == q.nextId)
  {
  }

  /** A request id not yet issued is unknown to every decrypt, every waiter and every receipt. */
  lemma FreshId(s: State)
    requires Inv(s)
    ensures NoOlder(s.history.decrypts, s.worker, s.queue.nextId, s.lockEpoch)
    ensures forall a :: a in s.clients ==> RequestOf(s.clients[a]) != Some(s.queue.nextId)
    ensures forall j :: 0 <= j < |s.history.mints| ==> s.history.mints[j].requestId != s.queue.nextId
  {
    forall a | a in s.clients ensures RequestOf(s.clients[a]) != Some(s.queue.nextId) {
      assert ClientOk(s.clients[a], s.queue, s.worker, s.history.decrypts, s.lockEpoch);
    }
    forall j | 0 <= j < |s.history.mints| ensures s.history.mints[j].requestId != s.queue.nextId {
      assert HasTouch(s.history.mints[j], s.history.decrypts);
    }
  }

  lemma CapKeyIsCapability(cap: string)
    ensures IsCapability(CapKey(cap))
  {
  }

  /** The queue and the waiter after a join, each fit for the invariant. */
  lemma JoinedWaiter(s: State, c: nat, now: nat)
    requires Inv(s) && c in s.clients && s.clients[c].phase.Scoped?
    requires Enqueue(s.queue, s.clients[c].phase.scope, s.clients[c].key, now, s.clients[c].ttl).1.Ok?
    ensures var client := s.clients[c];
            var scope := client.phase.scope;
            var joined := Enqueue(s.queue, scope, client.key, now, client.ttl);
            var waiter := client.(phase := Waiting(scope, joined.1.value, now + s.config.requestTtl));
            && ClientOk(waiter, joined.0, s.worker, s.history.decrypts, s.lockEpoch)
            && (client.kind.Authorize? ==> joined.1.value == s.queue.nextId)
  {
    var client := s.clients[c];
    EnqueuedAsk(s.queue, client.phase.scope, client.key, now, client.ttl);
    FreshId(s);
    if client.kind.Authorize? {
      CapKeyIsCapability(client.kind.cap);
    }
  }

  lemma AddWaiterInv(s: State, c: nat, queue: QueueModel, waiter: Client)
    requires Inv(s) && Inv(s.(queue := queue))
    requires ClientOk(waiter, queue, s.worker, s.history.decrypts, s.lockEpoch)
    requires waiter.kind.Authorize? ==> RequestOf(waiter) == Some(s.queue.nextId)
    ensures Inv(s.(queue := queue, clients := s.clients[c := waiter]))
  {
    FreshId(s);
    SetClientInv(s.(queue := queue), c, waiter);
  }

  lemma NewWaiterInv(s: State, c: nat, now: nat, waiter: Client)
    requires Inv(s) && c in s.clients && s.clients[c].phase.Scoped? && s.clock == now
    requires Enqueue(s.queue, s.clients[c].phase.scope, s.clients[c].key, now, s.clients[c].ttl).1.Ok?
    requires waiter == s.clients[c].(phase := Waiting(s.clients[c].phase.scope,
               Enqueue(s.queue, s.clients[c].phase.scope, s.clients[c].key, now, s.clients[c].ttl).1.value,
               now + s.config.requestTtl))
    ensures Inv(s.(queue := Enqueue(s.queue, s.clients[c].phase.scope, s.clients[c].key, now, s.clients[c].ttl).0,
                   clients := s.clients[c := waiter]))
  {
    var client := s.clients[c];
    JoinedWaiter(s, c, now);
    JoinedInv(s, client.phase.scope, client.key, now, client.ttl);
    AddWaiterInv(s, c, Enqueue(s.queue, client.phase.scope, client.key, now, client.ttl).0, waiter);
  }

  lemma Accepted(s: State, c: nat, now: nat, queue: QueueModel, id: nat)
    requires c in s.clients && s.clients[c].phase.Scoped?
    requires Enqueue(s.queue, s.clients[c].phase.scope, s.clients[c].key, now, s.clients[c].ttl) == (queue, Ok(id))
    ensures var waiter := s.clients[c].(phase := Waiting(s.clients[c].phase.scope, id, now + s.config.requestTtl));
            JoinQueue(s, c, now) == s.(queue := queue, clients := s.clients[c := waiter])
  {
  }

  /** Queueing for a touch, with the table already cleared of the caller's stale grant. */
  lemma JoinQueueInv(s: State, c: nat, now: nat)
    requires Inv(s) && c in s.clients && s.clients[c].phase.Scoped? && s.clock == now
    ensures Inv(JoinQueue(s, c, now))
  {
    var client := s.clients[c];
    var (queue, id) := Enqueue(s.queue, client.phase.scope, client.key, now, client.ttl);
    if id.Ok? {
      Accepted(s, c, now, queue, id.value);
      NewWaiterInv(s, c, now, client.(phase := Waiting(client.phase.scope, id.value, now + s.config.requestTtl)));
    } else {
      DropClientInv(s, c);
    }
  }

  lemma JoinedInv(s: State, scope: Scope, key: string, now: nat, ttl: Option<nat>)
    requires Inv(s) && s.clock == now
    ensures Inv(s.(queue := Enqueue(s.queue, scope, key, now, ttl).0))
  {
    EnqueueIsQuiet(s.queue, scope, key, now, ttl);
    QuietStepInv(s, s.(queue := Enqueue(s.queue, scope, key, now, ttl).0), now);
  }

  lemma RevokeInv(s: State, k: (Scope, string))
    requires Inv(s)
    ensures Inv(s.(grants := s.grants - {k}))
  {
    FewerStepInv(s, s.(grants := s.grants - {k}));
  }

  /** An access whose grant, if it had one, was revoked. */
  lemma RevokedEnterInv(s: State, c: nat, now: nat, gone: bool, located: bool)
    requires Inv(s) && c in s.clients && s.clients[c].phase.Scoped? && s.clock <= now
    ensures var k := (s.clients[c].phase.scope, s.clients[c].key);
            var revoked := s.(clock := now, grants := if gone then s.grants - {k} else s.grants);
            Inv(if located then JoinQueue(revoked, c, now) else revoked.(clients := s.clients - {c}))
  {
    var k := (s.clients[c].phase.scope, s.clients[c].key);
    var ticked := s.(clock := now);
    TickInv(s, now);
    RevokeInv(ticked, k);
    var revoked := ticked.(grants := if gone then s.grants - {k} else s.grants);
    if located {
      JoinQueueInv(revoked, c, now);
    } else {
      DropClientInv(revoked, c);
    }
  }

  lemma EnterInv(s: State, c: nat, lookupAt: nat, now: nat, sameFile: bool, located: bool)
    requires Inv(s) && c in s.clients && s.clients[c].phase.Scoped? && s.clock <= lookupAt <= now
    ensures Inv(OnEnter(s, c, lookupAt, now, sameFile, located))
  {
    var client := s.clients[c];
    var found := Secrets.Lookup(s.grants, client.phase.scope, client.key, lookupAt);
    if found.Some? && sameFile && !client.kind.Authorize? {
      TickInv(s, now);
      SetClientInv(s.(clock := now), c, client.(phase := Approved(client.phase.scope, None)));
    } else {
      RevokedEnterInv(s, c, now, found.Some?, located);
    }
  }

  // ---- Receipts ----

  lemma MintedGrows(mints: seq<MintRecord>, m: MintRecord, id: Receipts.Id, cap: string, epoch: nat, at: nat)
    requires WasMinted(mints, id, cap, epoch, at)
    ensures WasMinted(mints + [m], id, cap, epoch, at)
  {
    var j :| 0 <= j < |mints| && MintedAs(mints[j], id, cap, epoch, at);
    assert (mints + [m])[j] == mints[j];
  }

  lemma MintKeepsReceipts(receipts: Receipts.Outstanding, mints: seq<MintRecord>, redeems: seq<RedeemRecord>,
                          m: MintRecord, lockEpoch: nat, draws: seq<Receipts.Id>)
    requires ReceiptsInv(receipts, mints, lockEpoch) && RedeemsInv(receipts, mints, redeems, lockEpoch)
    requires Receipts.Mint(receipts, m.cap, m.at, draws).1 == Receipts.Minted(m.id) && m.epoch == lockEpoch
    ensures ReceiptsInv(Receipts.Mint(receipts, m.cap, m.at, draws).0, mints + [m], lockEpoch)
    ensures RedeemsInv(Receipts.Mint(receipts, m.cap, m.at, draws).0, mints + [m], redeems, lockEpoch)
  {
    var receipts' := Receipts.Mint(receipts, m.cap, m.at, draws).0;
    Receipts.SweepShrinks(receipts, m.at);
    forall id | id in receipts'
      ensures receipts'[id].id == id && WasMinted(mints + [m], id, receipts'[id].cap, lockEpoch, receipts'[id].minted)
    {
      if id == m.id {
        assert MintedAs((mints + [m])[|mints|], id, m.cap, lockEpoch, m.at);
      } else {
        MintedGrows(mints, m, id, receipts[id].cap, lockEpoch, receipts[id].minted);
      }
    }
    forall j | 0 <= j < |redeems| ensures RedeemBacked(redeems[j], mints + [m]) {
      var r := redeems[j];
      var at :| WasMinted(mints, r.id, r.cap, r.epoch, at) && Elapsed(at, r.at) < Receipts.RECEIPT_TTL;
      MintedGrows(mints, m, r.id, r.cap, r.epoch, at);
    }
    MintBalances(receipts, mints, redeems, m, lockEpoch, draws);
  }

  /** A mint draws an id that is not outstanding, so it owes exactly the receipt it adds. */
  lemma MintBalances(receipts: Receipts.Outstanding, mints: seq<MintRecord>, redeems: seq<RedeemRecord>,
                     m: MintRecord, lockEpoch: nat, draws: seq<Receipts.Id>)
    requires RedeemsInv(receipts, mints, redeems, lockEpoch)
    requires Receipts.Mint(receipts, m.cap, m.at, draws).1 == Receipts.Minted(m.id) && m.epoch == lockEpoch
    ensures forall id, cap, epoch ::
              Balanced(Receipts.Mint(receipts, m.cap, m.at, draws).0, mints + [m], redeems, lockEpoch, id, cap, epoch)
  {
    var after := Receipts.Mint(receipts, m.cap, m.at, draws).0;
    var longer := mints + [m];
    Receipts.SweepShrinks(receipts, m.at);
    assert longer[..|mints|] == mints;
    forall id, cap, epoch
      ensures Balanced(after, longer, redeems, lockEpoch, id, cap, epoch)
    {
      assert Balanced(receipts, mints, redeems, lockEpoch, id, cap, epoch);
    }
  }

  /** The approved request of an authorization is a touch for its own capability, in the epoch it began in. */
  lemma AuthorizationPaid(s: State, c: nat, m: MintRecord)
    requires Inv(s) && c in s.clients && s.clients[c].kind.Authorize? && s.clients[c].phase.Approved?
    requires s.clients[c].phase.requestId == Some(m.requestId)
    requires m.cap == s.clients[c].kind.cap && m.epoch == s.lockEpoch == s.clients[c].epochBefore
    ensures HasTouch(m, s.history.decrypts)
  {
    var client, decrypts := s.clients[c], s.history.decrypts;
    assert ClientOk(client, s.queue, s.worker, decrypts, s.lockEpoch);
    var i :| 0 <= i < |decrypts| && decrypts[i].job.id == m.requestId && decrypts[i].job.scope == client.phase.scope
             && decrypts[i].job.key == client.key && decrypts[i].outcome.Some?;
    assert Paid(decrypts[i], m);
  }

  lemma LeaveInv(s: State, c: nat, now: nat)
    requires Inv(s) && s.clock <= now
    ensures Inv(s.(clock := now, clients := s.clients - {c}))
  {
    TickInv(s, now);
    DropClientInv(s.(clock := now), c);
  }

  lemma MintInv(s: State, c: nat, now: nat, draws: seq<Receipts.Id>)
    requires Inv(s) && c in s.clients && s.clients[c].phase.Approved? && s.clients[c].kind.Authorize? && s.clock <= now
    ensures Inv(OnMint(s, c, now, draws))
  {
    var client := s.clients[c];
    if client.phase.requestId.None? || s.lockEpoch != client.epochBefore {
      LeaveInv(s, c, now);
    } else if Receipts.Mint(s.receipts, client.kind.cap, now, draws).1.Minted? {
      TickInv(s, now);
      MintedInv(s.(clock := now), c, now, draws);
    } else {
      LeaveInv(s, c, now);
      UnmintedInv(s.(clock := now, clients := s.clients - {c}), client.kind.cap, now, draws);
    }
  }

  lemma MintedInv(s: State, c: nat, now: nat, draws: seq<Receipts.Id>)
    requires Inv(s) && c in s.clients && s.clients[c].phase.Approved? && s.clients[c].kind.Authorize?
    requires s.clients[c].phase.requestId.Some? && s.lockEpoch == s.clients[c].epochBefore
    requires Receipts.Mint(s.receipts, s.clients[c].kind.cap, now, draws).1.Minted?
    ensures var minted := Receipts.Mint(s.receipts, s.clients[c].kind.cap, now, draws);
            var m := MintRecord(minted.1.id, s.clients[c].kind.cap, s.clients[c].phase.requestId.value, s.lockEpoch,
                                now);
            Inv(s.(clients := s.clients - {c}, receipts := minted.0,
                   history := s.history.(mints := s.history.mints + [m])))
  {
    var minted := Receipts.Mint(s.receipts, s.clients[c].kind.cap, now, draws);
    var m := MintRecord(minted.1.id, s.clients[c].kind.cap, s.clients[c].phase.requestId.value, s.lockEpoch, now);
    AuthorizationPaid(s, c, m);
    MintKeepsReceipts(s.receipts, s.history.mints, s.history.redeems, m, s.lockEpoch, draws);
    DropClientInv(s, c);
    MintRecordedInv(s, s.(clients := s.clients - {c}), c, m, minted.0);
  }

  lemma UnmintedInv(s: State, cap: string, now: nat, draws: seq<Receipts.Id>)
    requires Inv(s) && !Receipts.Mint(s.receipts, cap, now, draws).1.Minted?
    ensures Inv(s.(receipts := Receipts.Mint(s.receipts, cap, now, draws).0))
  {
    Receipts.SweepShrinks(s.receipts, now);
    FewerStepInv(s, s.(receipts := Receipts.Mint(s.receipts, cap, now, draws).0));
  }

  lemma MintRecordedInv(s: State, done: State, c: nat, m: MintRecord, receipts: Receipts.Outstanding)
    requires Inv(s) && Inv(done) && c in s.clients && done.clients == s.clients - {c} && done.history == s.history
    requires s.clients[c].kind.Authorize? && RequestOf(s.clients[c]) == Some(m.requestId)
    requires HasTouch(m, s.history.decrypts)
    requires ReceiptsInv(receipts, s.history.mints + [m], done.lockEpoch)
    requires RedeemsInv(receipts, s.history.mints + [m], s.history.redeems, done.lockEpoch)
    ensures Inv(done.(receipts := receipts, history := done.history.(mints := done.history.mints + [m])))
  {
  }

  /** A redemption spends exactly the receipt it takes out. */
  lemma RedeemBalances(receipts: Receipts.Outstanding, mints: seq<MintRecord>, redeems: seq<RedeemRecord>,
                       lockEpoch: nat, presented: Option<Receipts.Id>, cap: string, now: nat, r: RedeemRecord)
    requires RedeemsInv(receipts, mints, redeems, lockEpoch)
    requires Receipts.Redeem(receipts, presented, cap, now).1 == Some(r.id) && r.cap == cap && r.epoch == lockEpoch
    ensures forall id, c, epoch ::
              Balanced(Receipts.Redeem(receipts, presented, cap, now).0, mints, redeems + [r], lockEpoch, id, c, epoch)
  {
    var after := Receipts.Redeem(receipts, presented, cap, now).0;
    var longer := redeems + [r];
    assert longer[..|redeems|] == redeems;
    forall id, c, epoch
      ensures Balanced(after, mints, longer, lockEpoch, id, c, epoch)
    {
      assert Balanced(receipts, mints, redeems, lockEpoch, id, c, epoch);
    }
  }

  /** A redeemed receipt leaves the table and is recorded against its mint. */
  lemma RedeemKeepsReceipts(receipts: Receipts.Outstanding, mints: seq<MintRecord>, redeems: seq<RedeemRecord>,
                            lockEpoch: nat, presented: Option<Receipts.Id>, cap: string, now: nat)
    requires ReceiptsInv(receipts, mints, lockEpoch) && RedeemsInv(receipts, mints, redeems, lockEpoch)
    ensures var redeemed := Receipts.Redeem(receipts, presented, cap, now);
            && ReceiptsInv(redeemed.0, mints, lockEpoch)
            && RedeemsInv(redeemed.0, mints,
                          if redeemed.1.Some?
                          then redeems + [RedeemRecord(redeemed.1.value, cap, lockEpoch, now)] else redeems,
                          lockEpoch)
  {
    var redeemed := Receipts.Redeem(receipts, presented, cap, now);
    Receipts.SweepShrinks(receipts, now);
    if redeemed.1.Some? {
      var id := redeemed.1.value;
      var r := RedeemRecord(id, cap, lockEpoch, now);
      assert WasMinted(mints, id, cap, lockEpoch, receipts[id].minted);
      assert RedeemBacked(r, mints);
      RedeemBalances(receipts, mints, redeems, lockEpoch, presented, cap, now, r);
    } else {
      FewerReceiptsBalance(receipts, redeemed.0, mints, redeems, lockEpoch, lockEpoch);
    }
  }

  lemma RedeemInv(s: State, presented: Option<Receipts.Id>, cap: string, now: nat)
    requires Inv(s) && s.clock <= now
    ensures Inv(OnRedeem(s, presented, cap, now))
  {
    TickInv(s, now);
    RedeemKeepsReceipts(s.receipts, s.history.mints, s.history.redeems, s.lockEpoch, presented, cap, now);
  }
}
