/**
 Live plaintext grants: one value per (scope, key), each with its own lifetime.

 Expiry is lazy: a lookup ignores an entry past its lifetime, and the worker's
 sweep removes it whenever it gets round to it. The main result is that the
 sweep is unobservable.
 */
module SecretGrants {
  import opened Base
  import opened Keyed
  import opened Runs
  import opened Scopes

  /** Which file a value was decrypted from, and that file's identity then. */
  datatype Origin = Origin(source: string, identity: nat)

  datatype Grant = Grant(scope: Scope, key: string, value: seq<nat>, origin: Origin, created: nat, ttl: nat)

  type Table = map<(Scope, string), Grant>

  predicate Live(g: Grant, now: nat) { Elapsed(g.created, now) < g.ttl }

  function KeyOf(): Grant -> (Scope, string) { (g: Grant) => (g.scope, g.key) }

  function NotIn(scope: Scope): Grant -> bool { (g: Grant) => g.scope != scope }

  function NotHeldBy(tokens: set<nat>): Grant -> bool {
    (g: Grant) => g.scope.Session? ==> g.scope.token !in tokens
  }

  function OnPresentTty(present: set<string>): Grant -> bool {
    (g: Grant) => g.scope.Tty? ==> g.scope.tty in present
  }

  function LiveAt(now: nat): Grant -> bool { (g: Grant) => Live(g, now) }

  /** What a lookup answers, on the map the table stands for. */
  ghost function Lookup(t: Table, scope: Scope, key: string, now: nat): Option<Grant> {
    if (scope, key) in t && Live(t[(scope, key)], now) then Some(t[(scope, key)]) else None
  }

  /** Whole seconds left, by the source's `checked_sub`: an entry exactly at its lifetime answers zero. */
  ghost function RemainingSecs(t: Table, scope: Scope, key: string, now: nat): Option<nat> {
    if (scope, key) in t && Elapsed(t[(scope, key)].created, now) <= t[(scope, key)].ttl then
      Some((t[(scope, key)].ttl - Elapsed(t[(scope, key)].created, now)) / SECOND)
    else None
  }

  /** The list-backed table the broker runs. */
  class GrantTable {
    var grants: seq<Grant>

    ghost predicate Valid()
      reads this
    {
      Distinct(grants, KeyOf())
    }

    ghost function Contents(): Table
      reads this
    {
      Index(grants, KeyOf())
    }

    constructor ()
      ensures Valid() && Contents() == map[]
    {
      grants := [];
    }

    method LookupGrant(scope: Scope, key: string, now: nat) returns (found: Option<Grant>)
      requires Valid()
      ensures found == Lookup(Contents(), scope, key, now)
    {
      var wanted := (g: Grant) => g.scope == scope && g.key == key && Live(g, now);
      var i := FindFirst(grants, wanted);
      if i.Some? {
        At(grants, KeyOf(), i.value);
        found := Some(grants[i.value]);
      } else {
        found := None;
        if (scope, key) in Contents() {
          var j := Position(grants, KeyOf(), (scope, key));
          assert !wanted(grants[j]);
        }
      }
    }

    method Remaining(scope: Scope, key: string, now: nat) returns (secs: Option<nat>)
      requires Valid()
      ensures secs == RemainingSecs(Contents(), scope, key, now)
    {
      Found(grants, KeyOf(), (scope, key));
      var i := FindFirst(grants, HasKey(KeyOf(), (scope, key)));
      if i.Some? && Elapsed(grants[i.value].created, now) <= grants[i.value].ttl {
        secs := Some((grants[i.value].ttl - Elapsed(grants[i.value].created, now)) / SECOND);
      } else {
        secs := None;
      }
    }

    method Insert(g: Grant)
      requires Valid()
      modifies this
      ensures Valid()
      ensures Contents() == old(Contents())[(g.scope, g.key) := g]
    {
      Revoke(g.scope, g.key);
      Appended(grants, KeyOf(), g);
      grants := grants + [g];
    }

    method Revoke(scope: Scope, key: string)
      requires Valid()
      modifies this
      ensures Valid()
      ensures Contents() == old(Contents()) - {(scope, key)}
    {
      RemovedKey(grants, KeyOf(), (scope, key));
      grants := Filter(grants, LacksKey(KeyOf(), (scope, key)));
    }

    method RevokeScope(scope: Scope)
      requires Valid()
      modifies this
      ensures Valid()
      ensures Contents() == Restrict(old(Contents()), NotIn(scope))
    {
      Filtered(grants, KeyOf(), NotIn(scope));
      grants := Filter(grants, NotIn(scope));
    }

    method RevokeTokens(tokens: set<nat>)
      requires Valid()
      modifies this
      ensures Valid()
      ensures Contents() == Restrict(old(Contents()), NotHeldBy(tokens))
    {
      Filtered(grants, KeyOf(), NotHeldBy(tokens));
      grants := Filter(grants, NotHeldBy(tokens));
    }

    method RevokeExpired(now: nat) returns (removed: nat)
      requires Valid()
      modifies this
      ensures Valid()
      ensures Contents() == Restrict(old(Contents()), LiveAt(now))
      ensures removed == |old(Contents())| - |Contents()|
    {
      Filtered(grants, KeyOf(), LiveAt(now));
      IndexSize(grants, KeyOf());
      IndexSize(Filter(grants, LiveAt(now)), KeyOf());
      var before := |grants|;
      grants := Filter(grants, LiveAt(now));
      removed := before - |grants|;
    }

    method RevokeAll()
      modifies this
      ensures Valid() && Contents() == map[]
    {
      grants := [];
    }

    method RevokeMissingTtys(present: set<string>)
      requires Valid()
      modifies this
      ensures Valid()
      ensures Contents() == Restrict(old(Contents()), OnPresentTty(present))
    {
      Filtered(grants, KeyOf(), OnPresentTty(present));
      grants := Filter(grants, OnPresentTty(present));
    }

    method IsEmpty() returns (empty: bool)
      requires Valid()
      ensures empty <==> Contents() == map[]
    {
      IndexSize(grants, KeyOf());
      empty := grants == [];
    }
  }

  // ---- Lazy expiry refines eager expiry ----

  datatype TableOp =
    | DoInsert(grant: Grant)
    | DoRevoke(scope: Scope, key: string)
    | DoRevokeScope(scope: Scope)
    | DoRevokeTokens(tokens: set<nat>)
    | DoRevokeAll
    | DoRevokeMissing(present: set<string>)
    | DoSweep(at: nat)
    | DoLookup(scope: Scope, key: string, at: nat)

  ghost function Apply(t: Table, op: TableOp): Table {
    match op
    case DoInsert(g) => t[(g.scope, g.key) := g]
    case DoRevoke(scope, key) => t - {(scope, key)}
    case DoRevokeScope(scope) => Restrict(t, NotIn(scope))
    case DoRevokeTokens(tokens) => Restrict(t, NotHeldBy(tokens))
    case DoRevokeAll => map[]
    case DoRevokeMissing(present) => Restrict(t, OnPresentTty(present))
    case DoSweep(now) => Restrict(t, LiveAt(now))
    case DoLookup(_, _, _) => t
  }

  /** The answers a run gives, one per lookup, in order. */
  ghost function Answers(t: Table, ops: seq<TableOp>): seq<Option<Grant>>
    decreases |ops|
  {
    if ops == [] then []
    else
      var rest := Answers(Apply(t, ops[0]), ops[1..]);
      if ops[0].DoLookup? then [Lookup(t, ops[0].scope, ops[0].key, ops[0].at)] + rest else rest
  }

  function WithoutSweeps(ops: seq<TableOp>): seq<TableOp> {
    if ops == [] then []
    else if ops[0].DoSweep? then WithoutSweeps(ops[1..])
    else [ops[0]] + WithoutSweeps(ops[1..])
  }

  /** No lookup or sweep reads the clock earlier than one before it. */
  predicate ClockMonotone(ops: seq<TableOp>, now: nat) {
    if ops == [] then true
    else if ops[0].DoSweep? || ops[0].DoLookup? then now <= ops[0].at && ClockMonotone(ops[1..], ops[0].at)
    else ClockMonotone(ops[1..], now)
  }

  /** Two tables no lookup at or after `now` can tell apart. */
  ghost predicate SameLive(a: Table, b: Table, now: nat) {
    forall k :: (k in a && Live(a[k], now) <==> k in b && Live(b[k], now))
                && (k in a && Live(a[k], now) ==> a[k] == b[k])
  }

  lemma SameLiveStep(a: Table, b: Table, op: TableOp, now: nat)
    requires SameLive(a, b, now) && !op.DoSweep?
    ensures SameLive(Apply(a, op), Apply(b, op), now)
  {
  }

  /**
   Inserting expiry sweeps anywhere into a run, at any times the clock allows,
   changes no lookup: the run without them gives the same answers.
   */
  lemma {:induction false} SweepsAreUnobservable(a: Table, b: Table, ops: seq<TableOp>, now: nat)
    requires SameLive(a, b, now) && ClockMonotone(ops, now)
    ensures Answers(a, ops) == Answers(b, WithoutSweeps(ops))
    decreases |ops|
  {
    if ops != [] {
      var op := ops[0];
      match op
      case DoSweep(at) =>
        assert SameLive(Apply(a, op), b, at);
        SweepsAreUnobservable(Apply(a, op), b, ops[1..], at);
      case DoLookup(scope, key, at) =>
        assert WithoutSweeps(ops)[1..] == WithoutSweeps(ops[1..]);
        assert SameLive(a, b, at);
        SweepsAreUnobservable(a, b, ops[1..], at);
      case _ =>
        assert WithoutSweeps(ops)[1..] == WithoutSweeps(ops[1..]);
        SameLiveStep(a, b, op, now);
        SweepsAreUnobservable(Apply(a, op), Apply(b, op), ops[1..], now);
    }
  }

  /**
   The reported lifetime disagrees with lookup at exactly one instant: an entry
   whose age equals its lifetime still reports zero seconds, though lookup
   refuses it. Everywhere else the two agree on whether a grant is live.
   */
  lemma RemainingAgreesWithLookup(t: Table, scope: Scope, key: string, now: nat)
    ensures (RemainingSecs(t, scope, key, now).Some? <==> Lookup(t, scope, key, now).Some?) <==>
            !((scope, key) in t && Elapsed(t[(scope, key)].created, now) == t[(scope, key)].ttl)
  {
  }

  /** What is reported is the whole seconds that are left, and nothing once the lifetime has passed. */
  lemma RemainingIs(t: Table, scope: Scope, key: string, now: nat, secs: nat)
    ensures RemainingSecs(t, scope, key, now) == Some(secs) <==>
            && (scope, key) in t
            && var age := if now < t[(scope, key)].created then 0 else now - t[(scope, key)].created;
            age + secs * SECOND <= t[(scope, key)].ttl < age + (secs + 1) * SECOND
  {
  }

  /** Such an instant is reachable, and a sweep then changes the report. */
  lemma RemainingSeesTheSweep()
    ensures exists t: Table, now ::
              RemainingSecs(t, Session(0), "K", now) == Some(0)
              && RemainingSecs(Apply(t, TableOp.DoSweep(now)), Session(0), "K", now) == None
              && Lookup(t, Session(0), "K", now) == None
  {
    var g := Grant(Session(0), "K", [], Origin("", 0), 0, 5);
    var t: Table := map[(Session(0), "K") := g];
    assert RemainingSecs(t, Session(0), "K", 5) == Some(0);
    assert RemainingSecs(Apply(t, TableOp.DoSweep(5)), Session(0), "K", 5) == None;
  }

  // ---- Exactly what a lookup answers ----

  ghost predicate Initial(t: Table) { t == map[] }

  ghost predicate Next(t: Table, op: TableOp, t': Table) { t' == Apply(t, op) }

  ghost predicate IsRun(run: Run<Table, TableOp>) { IsRunOf(run, Initial, Next) }

  /** The grant's lifetime, from its creation, is not over. */
  predicate IsYoung(g: Grant, now: nat) { if now < g.created then g.ttl > 0 else now < g.created + g.ttl }

  /** The operation replaces or takes away this grant. */
  predicate TakesAway(op: TableOp, g: Grant) {
    match op
    case DoInsert(other) => other.scope == g.scope && other.key == g.key
    case DoRevoke(scope, key) => scope == g.scope && key == g.key
    case DoRevokeScope(scope) => scope == g.scope
    case DoRevokeTokens(tokens) => g.scope.Session? && g.scope.token in tokens
    case DoRevokeAll => true
    case DoRevokeMissing(present) => g.scope.Tty? && g.scope.tty !in present
    case DoSweep(at) => !IsYoung(g, at)
    case DoLookup(_, _, _) => false
  }

  predicate Stores(t: Table, g: Grant) { (g.scope, g.key) in t && t[(g.scope, g.key)] == g }

  ghost predicate IsKeyed(t: Table) { forall k :: k in t ==> (t[k].scope, t[k].key) == k }

  lemma StoredAfter(t: Table, op: TableOp, g: Grant)
    requires IsKeyed(t)
    ensures IsKeyed(Apply(t, op))
    ensures Stores(Apply(t, op), g) <==> op == DoInsert(g) || (Stores(t, g) && !TakesAway(op, g))
  {
  }

  /** Operation `i` inserted the grant, and none since has replaced or taken it away. */
  ghost predicate StoredSince(run: Run<Table, TableOp>, i: nat, k: nat, g: Grant)
    requires k < |run.states| == |run.steps| + 1
  {
    i < k && run.steps[i] == DoInsert(g) && forall n :: i < n < k ==> !TakesAway(run.steps[n], g)
  }

  lemma {:induction false} StoredIff(run: Run<Table, TableOp>, k: nat, g: Grant)
    requires IsRun(run) && k < |run.states|
    ensures IsKeyed(run.states[k])
    ensures Stores(run.states[k], g) <==> exists i: nat :: StoredSince(run, i, k, g)
  {
    if k > 0 {
      StoredIff(run, k - 1, g);
      assert StepAt(run, Next, k - 1);
      StoredAfter(run.states[k - 1], run.steps[k - 1], g);
      if run.steps[k - 1] == DoInsert(g) {
        assert StoredSince(run, k - 1, k, g);
      } else if Stores(run.states[k], g) {
        var i: nat :| StoredSince(run, i, k - 1, g);
        assert StoredSince(run, i, k, g);
      }
      if i: nat :| StoredSince(run, i, k, g) {
        assert i < k - 1 ==> StoredSince(run, i, k - 1, g);
      }
    }
  }

  /**
   Over every run, a lookup answers a grant exactly when that grant was inserted for its scope and
   key, nothing since has replaced, revoked or swept it, and its lifetime is not over.
   */
  lemma LookupAnswersIff(run: Run<Table, TableOp>, k: nat, scope: Scope, key: string, now: nat, g: Grant)
    requires IsRun(run) && k < |run.states|
    ensures Lookup(run.states[k], scope, key, now) == Some(g) <==>
            g.scope == scope && g.key == key && IsYoung(g, now) && exists i: nat :: StoredSince(run, i, k, g)
  {
    StoredIff(run, k, g);
  }
}
