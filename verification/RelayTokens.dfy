/**
 The laptop's mirror of the devbox's relay tokens: a bounded list of tokens with
 deadlines, renewed by deliveries over the grant feed. Times are nanoseconds of
 one clock.
 */
module RelayTokens {
  import opened Base
  import opened Keyed
  import opened Runs
  import Hex

  type Token = seq<Hex.Byte>

  datatype Entry = Entry(token: Token, deadline: nat)

  const MAX_LIVE_TOKENS: nat := 64
  const LEASE: nat := 5 * 60 * SECOND
  const LONGEST_TTL: nat := 12 * 60 * 60 * SECOND

  function TokenOf(): Entry -> Token { (e: Entry) => e.token }

  function LiveAt(now: nat): Entry -> bool { (e: Entry) => e.deadline > now }

  /** The deadline a delivery at `now` earns: the wire's ttl, clamped, and never past one lease. */
  function MirrorDeadline(ttl: nat, now: nat): (deadline: nat)
    ensures now <= deadline <= now + ttl && deadline <= now + LEASE
    ensures ttl <= LEASE ==> deadline == now + ttl
    ensures ttl > LEASE ==> deadline == now + LEASE
  {
    now + Min(Min(ttl, LONGEST_TTL), LEASE)
  }

  /** The entries an insertion keeps, before it makes room. */
  function Others(entries: seq<Entry>, token: Token, now: nat): seq<Entry> {
    Filter(Filter(entries, LiveAt(now)), LacksKey(TokenOf(), token))
  }

  function Inserted(entries: seq<Entry>, token: Token, deadline: nat, now: nat): seq<Entry> {
    var others := Others(entries, token, now);
    (if |others| == MAX_LIVE_TOKENS then others[1..] else others) + [Entry(token, deadline)]
  }

  predicate Accepts(entries: seq<Entry>, presented: Token, now: nat) {
    exists e :: e in entries && e.deadline > now && e.token == presented
  }

  // ---- Runs ----

  datatype Op = Deliver(token: Token, ttl: nat, at: nat) | Ask(token: Token, at: nat) | Reap(at: nat)

  function Apply(entries: seq<Entry>, op: Op): seq<Entry> {
    match op
    case Deliver(token, ttl, at) => Inserted(entries, token, MirrorDeadline(ttl, at), at)
    case Ask(_, at) => Filter(entries, LiveAt(at))
    case Reap(at) => Filter(entries, LiveAt(at))
  }

  ghost predicate Initial(entries: seq<Entry>) { entries == [] }

  ghost predicate Next(entries: seq<Entry>, op: Op, entries': seq<Entry>) { entries' == Apply(entries, op) }

  /** A run: the tables it passes through, and the operations between them. */
  type Trace = Run<seq<Entry>, Op>

  ghost predicate IsRun(run: Trace) { IsRunOf(run, Initial, Next) }

  /** The latest delivery of a token among the first `n` operations. */
  function Latest(ops: seq<Op>, n: nat, token: Token): (r: Option<nat>)
    requires n <= |ops|
    ensures r.Some? ==> r.value < n && ops[r.value].Deliver? && ops[r.value].token == token
  {
    if n == 0 then None
    else if ops[n - 1].Deliver? && ops[n - 1].token == token then Some(n - 1)
    else Latest(ops, n - 1, token)
  }

  function Earned(op: Op): Entry
    requires op.Deliver?
  {
    Entry(op.token, MirrorDeadline(op.ttl, op.at))
  }

  ghost predicate TableInv(entries: seq<Entry>) {
    Distinct(entries, TokenOf()) && |entries| <= MAX_LIVE_TOKENS
  }

  lemma OthersAre(entries: seq<Entry>, token: Token, now: nat)
    requires Distinct(entries, TokenOf())
    ensures Distinct(Others(entries, token, now), TokenOf()) && |Others(entries, token, now)| <= |entries|
    ensures forall e :: e in Others(entries, token, now) <==> e in entries && e.deadline > now && e.token != token
  {
    Filtered(entries, TokenOf(), LiveAt(now));
    Filtered(Filter(entries, LiveAt(now)), TokenOf(), LacksKey(TokenOf(), token));
  }

  lemma InsertedKeeps(entries: seq<Entry>, token: Token, deadline: nat, now: nat)
    requires TableInv(entries)
    ensures TableInv(Inserted(entries, token, deadline, now))
    ensures forall e :: e in Inserted(entries, token, deadline, now) ==>
                          e == Entry(token, deadline) || e in Others(entries, token, now)
    ensures Entry(token, deadline) in Inserted(entries, token, deadline, now)
  {
    OthersAre(entries, token, now);
    var others := Others(entries, token, now);
    assert forall i :: 0 <= i < |others| ==> others[i] in others && others[i].token != token;
  }

  /** A token just delivered is accepted, unless its ttl is zero. */
  lemma InsertedAccepts(entries: seq<Entry>, token: Token, ttl: nat, now: nat)
    requires TableInv(entries)
    ensures Accepts(Inserted(entries, token, MirrorDeadline(ttl, now), now), token, now) <==> ttl > 0
  {
    var deadline := MirrorDeadline(ttl, now);
    InsertedKeeps(entries, token, deadline, now);
    OthersAre(entries, token, now);
    assert Entry(token, deadline) in Inserted(entries, token, deadline, now);
  }

  /** Room is made at the cost of a live entry only when sixty-four others are live; expired ones never count. */
  lemma EvictsOnlyWhenFull(entries: seq<Entry>, token: Token, deadline: nat, now: nat, e: Entry)
    requires TableInv(entries) && e in entries && e.deadline > now && e.token != token
    ensures e !in Inserted(entries, token, deadline, now) <==>
            |Others(entries, token, now)| == MAX_LIVE_TOKENS && e == Others(entries, token, now)[0]
  {
    OthersAre(entries, token, now);
    var others := Others(entries, token, now);
    var i :| 0 <= i < |others| && others[i] == e;
    var kept := if |others| == MAX_LIVE_TOKENS then others[1..] else others;
    if |others| == MAX_LIVE_TOKENS && i > 0 {
      assert kept[i - 1] == e;
    }
  }

  /** The entry of its token's latest delivery. */
  predicate IsLatest(ops: seq<Op>, n: nat, e: Entry)
    requires n <= |ops|
  {
    Latest(ops, n, e.token).Some? && Earned(ops[Latest(ops, n, e.token).value]) == e
  }

  /** A sound table: its invariant, and every entry its token's latest delivery's. */
  ghost predicate IsSound(ops: seq<Op>, n: nat, entries: seq<Entry>)
    requires n <= |ops|
  {
    TableInv(entries) && forall e :: e in entries ==> IsLatest(ops, n, e)
  }

  lemma {:induction false} DeliverIsLatest(ops: seq<Op>, n: nat, before: seq<Entry>)
    requires n < |ops| && ops[n].Deliver? && IsSound(ops, n, before)
    ensures IsSound(ops, n + 1, Apply(before, ops[n]))
  {
    var op := ops[n];
    InsertedKeeps(before, op.token, MirrorDeadline(op.ttl, op.at), op.at);
    OthersAre(before, op.token, op.at);
    forall e | e in Apply(before, op)
      ensures IsLatest(ops, n + 1, e)
    {
      if e != Earned(op) { assert e in before && IsLatest(ops, n, e); }
    }
  }

  lemma {:induction false} RestIsLatest(ops: seq<Op>, n: nat, before: seq<Entry>)
    requires n < |ops| && !ops[n].Deliver? && IsSound(ops, n, before)
    ensures IsSound(ops, n + 1, Apply(before, ops[n]))
  {
    Filtered(before, TokenOf(), LiveAt(ops[n].at));
  }

  lemma {:induction false} StaysSound(run: Trace, n: nat)
    requires IsRun(run) && n < |run.steps| && IsSound(run.steps, n, run.states[n])
    ensures IsSound(run.steps, n + 1, run.states[n + 1])
  {
    assert StepAt(run, Next, n);
    if run.steps[n].Deliver? {
      DeliverIsLatest(run.steps, n, run.states[n]);
    } else {
      RestIsLatest(run.steps, n, run.states[n]);
    }
  }

  /** In every run tokens stay distinct and at most sixty-four, each with its latest delivery's deadline. */
  lemma {:induction false} EntriesAreLatest(run: Trace, n: nat)
    requires IsRun(run) && n <= |run.steps|
    ensures TableInv(run.states[n])
    ensures forall e :: e in run.states[n] ==> IsLatest(run.steps, n, e)
  {
    if n > 0 {
      EntriesAreLatest(run, n - 1);
      assert IsSound(run.steps, n - 1, run.states[n - 1]);
      StaysSound(run, n - 1);
    }
  }

  /** Bounded staleness: an accepted token was delivered, and less than its ttl and one lease ago. */
  lemma {:induction false} AcceptedWasDelivered(run: Trace, n: nat, token: Token, now: nat)
    requires IsRun(run) && n <= |run.steps| && Accepts(run.states[n], token, now)
    ensures Latest(run.steps, n, token).Some?
    ensures var op := run.steps[Latest(run.steps, n, token).value]; now < op.at + Min(op.ttl, LEASE)
  {
    EntriesAreLatest(run, n);
    var e :| e in run.states[n] && e.deadline > now && e.token == token;
    assert IsLatest(run.steps, n, e);
  }

  // ---- The table is in order of latest delivery ----

  ghost function Rank(ops: seq<Op>, n: nat, e: Entry): int
    requires n <= |ops|
  {
    if Latest(ops, n, e.token).Some? then Latest(ops, n, e.token).value else -1
  }

  ghost predicate Older(ops: seq<Op>, n: nat, a: Entry, b: Entry)
    requires n <= |ops|
  {
    Rank(ops, n, a) < Rank(ops, n, b)
  }

  ghost predicate InOrder(ops: seq<Op>, n: nat, entries: seq<Entry>)
    requires n <= |ops|
  {
    forall i, j :: 0 <= i < j < |entries| ==> Older(ops, n, entries[i], entries[j])
  }

  lemma {:induction false} FilterKeepsOrder(ops: seq<Op>, n: nat, entries: seq<Entry>, keep: Entry -> bool)
    requires n <= |ops| && InOrder(ops, n, entries)
    ensures InOrder(ops, n, Filter(entries, keep))
  {
    if entries != [] {
      var rest, last := entries[..|entries| - 1], entries[|entries| - 1];
      FilterKeepsOrder(ops, n, rest, keep);
      forall i | 0 <= i < |Filter(rest, keep)|
        ensures Older(ops, n, Filter(rest, keep)[i], last)
      {
        assert Filter(rest, keep)[i] in rest;
        var j :| 0 <= j < |rest| && rest[j] == Filter(rest, keep)[i];
        assert Older(ops, n, entries[j], last);
      }
    }
  }

  lemma {:induction false} OthersInOrder(ops: seq<Op>, n: nat, entries: seq<Entry>, token: Token, now: nat)
    requires n <= |ops| && InOrder(ops, n, entries)
    ensures InOrder(ops, n, Others(entries, token, now))
  {
    FilterKeepsOrder(ops, n, entries, LiveAt(now));
    FilterKeepsOrder(ops, n, Filter(entries, LiveAt(now)), LacksKey(TokenOf(), token));
  }

  lemma {:induction false} TableInOrder(run: Trace, n: nat)
    requires IsRun(run) && n <= |run.steps|
    ensures InOrder(run.steps, n, run.states[n])
  {
    if n > 0 {
      var before, op := run.states[n - 1], run.steps[n - 1];
      TableInOrder(run, n - 1);
      EntriesAreLatest(run, n - 1);
      assert StepAt(run, Next, n - 1);
      if op.Deliver? {
        OthersInOrder(run.steps, n - 1, before, op.token, op.at);
        OthersAre(before, op.token, op.at);
        NewestGoesLast(run.steps, n, Others(before, op.token, op.at));
      } else {
        FilterKeepsOrder(run.steps, n - 1, before, LiveAt(op.at));
        SameRanks(run.steps, n, Filter(before, LiveAt(op.at)));
      }
    }
  }

  /** Ranks of tokens other than the one delivered do not change. */
  lemma {:induction false} SameRanks(ops: seq<Op>, n: nat, entries: seq<Entry>)
    requires 0 < n <= |ops| && InOrder(ops, n - 1, entries)
    requires ops[n - 1].Deliver? ==> forall e :: e in entries ==> e.token != ops[n - 1].token
    ensures InOrder(ops, n, entries)
  {
    forall i, j | 0 <= i < j < |entries|
      ensures Older(ops, n, entries[i], entries[j])
    {
      assert Older(ops, n - 1, entries[i], entries[j]);
      assert entries[i] in entries && entries[j] in entries;
    }
  }

  lemma {:induction false} NewestGoesLast(ops: seq<Op>, n: nat, others: seq<Entry>)
    requires 0 < n <= |ops| && ops[n - 1].Deliver? && InOrder(ops, n - 1, others)
    requires forall e :: e in others ==> e.token != ops[n - 1].token
    ensures InOrder(ops, n, (if |others| == MAX_LIVE_TOKENS then others[1..] else others) + [Earned(ops[n - 1])])
  {
    SameRanks(ops, n, others);
    var kept := if |others| == MAX_LIVE_TOKENS then others[1..] else others;
    var table := kept + [Earned(ops[n - 1])];
    forall i, j | 0 <= i < j < |table|
      ensures Older(ops, n, table[i], table[j])
    {
      var shift := |others| - |kept|;
      assert table[i] == others[i + shift] && others[i + shift] in others;
      if j < |kept| {
        assert table[j] == others[j + shift];
      }
    }
  }

  // ---- A live token is missing only if it was crowded out ----

  /** Delivery `j` is the latest of its token so far. */
  predicate Newest(ops: seq<Op>, n: nat, j: nat)
    requires n <= |ops|
  {
    j < n && ops[j].Deliver? && Latest(ops, n, ops[j].token) == Some(j)
  }

  /** Operation `m` swept expired entries at a time before the deadline delivery `j` earned. */
  predicate Outlives(ops: seq<Op>, j: nat, m: nat)
    requires j < |ops| && m < |ops| && ops[j].Deliver?
  {
    Earned(ops[j]).deadline > ops[m].at
  }

  /**
   No operation since delivery `j` swept its entry. An operation reads the clock before
   it takes the lock, so their times need not follow their order, and an entry an earlier
   operation finds expired may be live for a later one.
   */
  ghost predicate Unswept(ops: seq<Op>, j: nat, n: nat)
    requires j < n <= |ops| && ops[j].Deliver?
  {
    forall m :: j < m < n ==> Outlives(ops, j, m)
  }

  /** If delivery `j` came after this entry's and was not swept, its entry is in the table too. */
  ghost predicate KeepsLater(run: Trace, n: nat, e: Entry, j: nat)
    requires IsRun(run) && n <= |run.steps|
  {
    e in run.states[n] && Rank(run.steps, n, e) < j && Newest(run.steps, n, j) ==>
      Unswept(run.steps, j, n) ==> Earned(run.steps[j]) in run.states[n]
  }

  /** Behind every entry, every token delivered later and not swept is in the table. */
  ghost predicate Complete(run: Trace, n: nat)
    requires IsRun(run) && n <= |run.steps|
  {
    forall e, j: nat :: KeepsLater(run, n, e, j)
  }

  /** Eviction takes the oldest entry, so it never takes one delivered after an entry that stays. */
  lemma {:induction false} DeliverKeepsLater(run: Trace, n: nat, e: Entry, j: nat)
    requires IsRun(run) && n < |run.steps| && run.steps[n].Deliver? && Complete(run, n)
    requires TableInv(run.states[n]) && InOrder(run.steps, n, run.states[n])
    ensures KeepsLater(run, n + 1, e, j)
  {
    var before, op := run.states[n], run.steps[n];
    assert StepAt(run, Next, n);
    InsertedKeeps(before, op.token, MirrorDeadline(op.ttl, op.at), op.at);
    if j < n && e in run.states[n + 1] && Rank(run.steps, n + 1, e) < j && Newest(run.steps, n + 1, j)
       && Unswept(run.steps, j, n + 1) {
      var x, others := Earned(run.steps[j]), Others(before, op.token, op.at);
      OthersAre(before, op.token, op.at);
      assert Newest(run.steps, n, j) && e in others && e in before && Outlives(run.steps, j, n);
      assert KeepsLater(run, n, e, j);
      assert x in before && x in others;
      EvictsOnlyWhenFull(before, op.token, MirrorDeadline(op.ttl, op.at), op.at, x);
      OthersInOrder(run.steps, n, before, op.token, op.at);
      var p :| 0 <= p < |others| && others[p] == e;
      assert p > 0 ==> Older(run.steps, n, others[0], others[p]);
    }
  }

  lemma {:induction false} RestKeepsLater(run: Trace, n: nat, e: Entry, j: nat)
    requires IsRun(run) && n < |run.steps| && !run.steps[n].Deliver? && Complete(run, n)
    ensures KeepsLater(run, n + 1, e, j)
  {
    assert StepAt(run, Next, n);
    assert KeepsLater(run, n, e, j);
    if j < n && run.steps[j].Deliver? && Unswept(run.steps, j, n + 1) {
      assert Outlives(run.steps, j, n) && Unswept(run.steps, j, n);
    }
  }

  lemma {:induction false} CompleteStep(run: Trace, n: nat)
    requires IsRun(run) && n < |run.steps| && Complete(run, n)
    requires TableInv(run.states[n]) && InOrder(run.steps, n, run.states[n])
    ensures Complete(run, n + 1)
  {
    var m := n + 1;
    forall e, j: nat
      ensures KeepsLater(run, m, e, j)
    {
      if run.steps[n].Deliver? {
        DeliverKeepsLater(run, n, e, j);
      } else {
        RestKeepsLater(run, n, e, j);
      }
    }
  }

  lemma {:induction false} TableIsComplete(run: Trace, n: nat)
    requires IsRun(run) && n <= |run.steps|
    ensures Complete(run, n)
  {
    if n > 0 {
      TableIsComplete(run, n - 1);
      EntriesAreLatest(run, n - 1);
      TableInOrder(run, n - 1);
      CompleteStep(run, n - 1);
    }
  }

  /** Past an operation that does not deliver its token, what is left was there before and was not swept. */
  lemma {:induction false} LeftWasThere(run: Trace, n: nat, e: Entry)
    requires IsRun(run) && n < |run.steps| && e in run.states[n + 1]
    requires run.steps[n].Deliver? ==> run.steps[n].token != e.token
    ensures e in run.states[n] && e.deadline > run.steps[n].at
  {
    EntriesAreLatest(run, n);
    assert StepAt(run, Next, n);
    if run.steps[n].Deliver? {
      InsertedKeeps(run.states[n], run.steps[n].token, MirrorDeadline(run.steps[n].ttl, run.steps[n].at),
                    run.steps[n].at);
      OthersAre(run.states[n], run.steps[n].token, run.steps[n].at);
    }
  }

  lemma {:induction false} PresentIsUnswept(run: Trace, n: nat, i: nat)
    requires IsRun(run) && n <= |run.steps| && Newest(run.steps, n, i) && Earned(run.steps[i]) in run.states[n]
    ensures Unswept(run.steps, i, n)
    decreases n
  {
    if i < n - 1 {
      LeftWasThere(run, n - 1, Earned(run.steps[i]));
      PresentIsUnswept(run, n - 1, i);
      assert Outlives(run.steps, i, n - 1);
    }
  }

  // ---- Exactly when a token is accepted ----

  /**
   The deliveries since `i` that delivery `k` finds in the table, each the latest of its
   own token and not swept, other than of the token `k` delivers.
   */
  ghost function Younger(ops: seq<Op>, i: nat, k: nat): set<nat>
    requires k < |ops| && ops[k].Deliver?
  {
    set j | i < j < k && Newest(ops, k, j) && Unswept(ops, j, k + 1) && ops[j].token != ops[k].token
  }

  /** Delivery `k` finds sixty-three others younger than delivery `i`. */
  ghost predicate CrowdedOutBy(ops: seq<Op>, i: nat, k: nat)
    requires k < |ops|
  {
    ops[k].Deliver? && |Younger(ops, i, k)| >= MAX_LIVE_TOKENS - 1
  }

  /** The ranks of a stretch of entries. */
  ghost function RanksOf(ops: seq<Op>, n: nat, entries: seq<Entry>, lo: nat, hi: nat): set<int>
    requires n <= |ops| && lo <= hi <= |entries|
  {
    if lo == hi then {} else RanksOf(ops, n, entries, lo, hi - 1) + {Rank(ops, n, entries[hi - 1])}
  }

  ghost predicate RankIn(ops: seq<Op>, n: nat, entries: seq<Entry>, lo: nat, hi: nat, r: int)
    requires n <= |ops| && lo <= hi <= |entries|
  {
    exists q :: lo <= q < hi && Rank(ops, n, entries[q]) == r
  }

  lemma {:induction false} RanksAre(ops: seq<Op>, n: nat, entries: seq<Entry>, lo: nat, hi: nat, r: int)
    requires n <= |ops| && lo <= hi <= |entries|
    ensures r in RanksOf(ops, n, entries, lo, hi) <==> RankIn(ops, n, entries, lo, hi, r)
    decreases hi
  {
    if lo < hi {
      RanksAre(ops, n, entries, lo, hi - 1, r);
      if r == Rank(ops, n, entries[hi - 1]) {
        assert RankIn(ops, n, entries, lo, hi, r);
      } else if RankIn(ops, n, entries, lo, hi - 1, r) {
        var q :| lo <= q < hi - 1 && Rank(ops, n, entries[q]) == r;
        assert RankIn(ops, n, entries, lo, hi, r);
      }
    }
  }

  lemma {:induction false} RanksCount(ops: seq<Op>, n: nat, entries: seq<Entry>, lo: nat, hi: nat)
    requires n <= |ops| && lo <= hi <= |entries| && InOrder(ops, n, entries)
    ensures |RanksOf(ops, n, entries, lo, hi)| == hi - lo
    decreases hi
  {
    if lo < hi {
      RanksCount(ops, n, entries, lo, hi - 1);
      RanksAre(ops, n, entries, lo, hi - 1, Rank(ops, n, entries[hi - 1]));
      forall q | lo <= q < hi - 1
        ensures Rank(ops, n, entries[q]) != Rank(ops, n, entries[hi - 1])
      {
        assert Older(ops, n, entries[q], entries[hi - 1]);
      }
    }
  }

  lemma {:induction false} BehindIsYounger(run: Trace, k: nat, i: nat, others: seq<Entry>, p: nat, q: nat)
    requires IsRun(run) && k < |run.steps| && run.steps[k].Deliver? && InOrder(run.steps, k, others)
    requires p < q < |others| && Rank(run.steps, k, others[p]) == i && others[q] in run.states[k]
    requires IsLatest(run.steps, k, others[q]) && others[q].deadline > run.steps[k].at
    requires others[q].token != run.steps[k].token
    ensures Rank(run.steps, k, others[q]) in Younger(run.steps, i, k)
  {
    var j: nat := Rank(run.steps, k, others[q]);
    assert Older(run.steps, k, others[p], others[q]);
    PresentIsUnswept(run, k, j);
    assert Outlives(run.steps, j, k);
  }

  lemma {:induction false} YoungerIsBehind(run: Trace, k: nat, i: nat, others: seq<Entry>, p: nat, j: nat)
    returns (q: nat)
    requires IsRun(run) && k < |run.steps| && run.steps[k].Deliver? && Complete(run, k)
    requires InOrder(run.steps, k, others)
    requires forall e :: e in others <==>
             e in run.states[k] && e.deadline > run.steps[k].at && e.token != run.steps[k].token
    requires p < |others| && Rank(run.steps, k, others[p]) == i && j in Younger(run.steps, i, k)
    ensures p < q < |others| && Rank(run.steps, k, others[q]) == j
  {
    var e := Earned(run.steps[j]);
    assert others[p] in others && Outlives(run.steps, j, k) && Unswept(run.steps, j, k);
    assert KeepsLater(run, k, others[p], j);
    assert e in others;
    q :| 0 <= q < |others| && others[q] == e;
    var order := Older(run.steps, k, others[q], others[p]);
  }

  /** What stands behind an entry among the others is exactly what was delivered since and not swept. */
  lemma {:induction false} BehindAreYounger(run: Trace, k: nat, i: nat, others: seq<Entry>, p: nat)
    requires IsRun(run) && k < |run.steps| && run.steps[k].Deliver? && Complete(run, k)
    requires InOrder(run.steps, k, others)
    requires forall e :: e in others <==>
             e in run.states[k] && e.deadline > run.steps[k].at && e.token != run.steps[k].token
    requires forall q :: 0 <= q < |others| ==> IsLatest(run.steps, k, others[q])
    requires p < |others| && Rank(run.steps, k, others[p]) == i
    ensures RanksOf(run.steps, k, others, p + 1, |others|) == Younger(run.steps, i, k)
  {
    forall r
      ensures r in RanksOf(run.steps, k, others, p + 1, |others|) <==> r in Younger(run.steps, i, k)
    {
      RanksAre(run.steps, k, others, p + 1, |others|, r);
      if RankIn(run.steps, k, others, p + 1, |others|, r) {
        var q :| p + 1 <= q < |others| && Rank(run.steps, k, others[q]) == r;
        assert others[q] in others;
        BehindIsYounger(run, k, i, others, p, q);
      }
      if r in Younger(run.steps, i, k) {
        var q := YoungerIsBehind(run, k, i, others, p, r);
        assert RankIn(run.steps, k, others, p + 1, |others|, r);
      }
    }
  }

  /** What a delivery finds: the other live entries, in order, each its token's latest. */
  lemma {:induction false} OthersFound(run: Trace, k: nat)
    requires IsRun(run) && k < |run.steps| && run.steps[k].Deliver?
    ensures TableInv(run.states[k]) && Complete(run, k)
    ensures var others := Others(run.states[k], run.steps[k].token, run.steps[k].at);
            && InOrder(run.steps, k, others) && |others| <= MAX_LIVE_TOKENS
            && (forall e :: e in others <==>
                              e in run.states[k] && e.deadline > run.steps[k].at && e.token != run.steps[k].token)
            && (forall q :: 0 <= q < |others| ==> IsLatest(run.steps, k, others[q]))
  {
    var before, op := run.states[k], run.steps[k];
    EntriesAreLatest(run, k);
    TableInOrder(run, k);
    TableIsComplete(run, k);
    OthersAre(before, op.token, op.at);
    OthersInOrder(run.steps, k, before, op.token, op.at);
    var others := Others(before, op.token, op.at);
    assert forall q :: 0 <= q < |others| ==> others[q] in others;
  }

  /** The place of an entry among the others leaves exactly the younger ones behind it. */
  lemma {:induction false} PlaceCounts(run: Trace, k: nat, i: nat, others: seq<Entry>, p: nat)
    requires IsRun(run) && k < |run.steps| && run.steps[k].Deliver?
    requires others == Others(run.states[k], run.steps[k].token, run.steps[k].at)
    requires p < |others| && Rank(run.steps, k, others[p]) == i
    ensures |Younger(run.steps, i, k)| == |others| - p - 1 && |others| <= MAX_LIVE_TOKENS
  {
    OthersFound(run, k);
    BehindAreYounger(run, k, i, others, p);
    RanksCount(run.steps, k, others, p + 1, |others|);
  }

  /** A delivery evicts a live entry exactly when sixty-three others were delivered since it and not swept. */
  lemma {:induction false} EvictsIffCrowded(run: Trace, k: nat, i: nat)
    requires IsRun(run) && k < |run.steps| && run.steps[k].Deliver?
    requires Newest(run.steps, k, i) && run.steps[i].token != run.steps[k].token
    requires Earned(run.steps[i]) in run.states[k] && Earned(run.steps[i]).deadline > run.steps[k].at
    ensures Earned(run.steps[i]) in run.states[k + 1] <==> !CrowdedOutBy(run.steps, i, k)
  {
    var op, e := run.steps[k], Earned(run.steps[i]);
    var others := Others(run.states[k], op.token, op.at);
    OthersFound(run, k);
    var p :| 0 <= p < |others| && others[p] == e;
    PlaceCounts(run, k, i, others, p);
    assert |others| > 0 && e == others[0] <==> p == 0 by {
      if p > 0 { assert Older(run.steps, k, others[0], others[p]); }
    }
    EvictsOnlyWhenFull(run.states[k], op.token, MirrorDeadline(op.ttl, op.at), op.at, e);
    assert StepAt(run, Next, k);
  }

  /** One operation, other than a delivery of it, leaves an entry exactly if it neither sweeps nor crowds it out. */
  lemma {:induction false} StaysIff(run: Trace, i: nat, n: nat)
    requires IsRun(run) && n < |run.steps| && Newest(run.steps, n, i)
    requires run.steps[n].Deliver? ==> run.steps[n].token != run.steps[i].token
    ensures Earned(run.steps[i]) in run.states[n + 1] <==>
            Earned(run.steps[i]) in run.states[n] && Outlives(run.steps, i, n) && !CrowdedOutBy(run.steps, i, n)
  {
    var e := Earned(run.steps[i]);
    if e in run.states[n + 1] { LeftWasThere(run, n, e); }
    if e in run.states[n] && Outlives(run.steps, i, n) {
      if run.steps[n].Deliver? {
        EvictsIffCrowded(run, n, i);
      } else {
        assert StepAt(run, Next, n);
      }
    }
  }

  lemma {:induction false} DeliveredIsIn(run: Trace, n: nat)
    requires IsRun(run) && n < |run.steps| && run.steps[n].Deliver?
    ensures Earned(run.steps[n]) in run.states[n + 1]
  {
    EntriesAreLatest(run, n);
    assert StepAt(run, Next, n);
    InsertedKeeps(run.states[n], run.steps[n].token, MirrorDeadline(run.steps[n].ttl, run.steps[n].at),
                  run.steps[n].at);
  }

  /** Until its token is delivered again, an entry is there unless some operation swept or crowded it out. */
  lemma {:induction false} PresentIff(run: Trace, i: nat, n: nat)
    requires IsRun(run) && n <= |run.steps| && Newest(run.steps, n, i)
    ensures Earned(run.steps[i]) in run.states[n] <==>
            Unswept(run.steps, i, n) && forall k :: i < k < n ==> !CrowdedOutBy(run.steps, i, k)
    decreases n
  {
    if n == i + 1 {
      DeliveredIsIn(run, i);
    } else {
      PresentIff(run, i, n - 1);
      StaysIff(run, i, n - 1);
      assert Unswept(run.steps, i, n) <==> Unswept(run.steps, i, n - 1) && Outlives(run.steps, i, n - 1);
    }
  }

  /**
   The mirror accepts a token exactly while its latest delivery is live, no operation
   since then swept it and no delivery since then found sixty-three younger others.
   */
  lemma {:induction false} AcceptsIff(run: Trace, n: nat, token: Token, now: nat)
    requires IsRun(run) && n <= |run.steps|
    ensures Accepts(run.states[n], token, now) <==>
            && Latest(run.steps, n, token).Some?
            && Earned(run.steps[Latest(run.steps, n, token).value]).deadline > now
            && Unswept(run.steps, Latest(run.steps, n, token).value, n)
            && var i := Latest(run.steps, n, token).value; forall k :: i < k < n ==> !CrowdedOutBy(run.steps, i, k)
  {
    EntriesAreLatest(run, n);
    var latest := Latest(run.steps, n, token);
    if latest.Some? {
      PresentIff(run, latest.value, n);
      var e := Earned(run.steps[latest.value]);
      assert forall x :: x in run.states[n] && x.token == token ==> IsLatest(run.steps, n, x) && x == e;
    } else {
      assert forall x :: x in run.states[n] && x.token == token ==> IsLatest(run.steps, n, x);
    }
  }

  // ---- Deliveries of a snapshot ----

  /** A live grant on the devbox, as the feed sees it. */
  datatype Grant = Grant(token: Token, deadline: nat)

  datatype Renewal = Renewal(token: Token, secs: nat)

  function RemainingSecs(deadline: nat, now: nat): nat { Max(Elapsed(now, deadline) / SECOND, 1) }

  /** `snapshot_live`: every unexpired grant with its whole seconds left, at least one. */
  function SnapshotLive(grants: seq<Grant>, now: nat): (r: seq<Renewal>)
    ensures |r| <= |grants|
    ensures forall x :: x in r <==>
            exists g :: g in grants && g.deadline > now && x == Renewal(g.token, RemainingSecs(g.deadline, now))
  {
    if grants == [] then []
    else
      var rest := SnapshotLive(grants[..|grants| - 1], now);
      var g := grants[|grants| - 1];
      assert grants == grants[..|grants| - 1] + [g];
      if g.deadline > now then rest + [Renewal(g.token, RemainingSecs(g.deadline, now))] else rest
  }

  /** The feed announces the whole seconds a live grant has left, and one for less than that. */
  lemma AnnouncedIs(deadline: nat, now: nat, secs: nat)
    requires now < deadline
    ensures RemainingSecs(deadline, now) == secs <==>
            || (secs >= 1 && now + secs * SECOND <= deadline < now + (secs + 1) * SECOND)
            || (secs == 1 && deadline < now + SECOND)
  {
  }

  /** The mirror outlives the grant by no more than the delivery took, plus a second of rounding. */
  lemma MirrorOutlivesByDelay(deadline: nat, snapshot: nat, delivered: nat)
    requires snapshot < deadline && snapshot <= delivered
    ensures MirrorDeadline(RemainingSecs(deadline, snapshot) * SECOND, delivered)
            <= deadline + (delivered - snapshot) + SECOND
  {
  }

  /**
   End to end: a token accepted at `now`, last delivered from a snapshot, belonged to a
   grant that ended only that long ago.
   */
  lemma {:induction false} AcceptedGrantIsRecent(run: Trace, n: nat, token: Token, now: nat, i: nat, grants: seq<Grant>,
                                                 snapshot: nat)
    returns (g: Grant)
    requires IsRun(run) && n <= |run.steps| && Accepts(run.states[n], token, now)
    requires Latest(run.steps, n, token) == Some(i) && run.steps[i].at >= snapshot
    requires exists secs: nat :: Renewal(token, secs) in SnapshotLive(grants, snapshot)
                                 && run.steps[i].ttl == secs * SECOND
    ensures g in grants && g.token == token && g.deadline > snapshot
    ensures now < g.deadline + (run.steps[i].at - snapshot) + SECOND
  {
    AcceptedWasDelivered(run, n, token, now);
    var secs: nat :| Renewal(token, secs) in SnapshotLive(grants, snapshot) && run.steps[i].ttl == secs * SECOND;
    g :| g in grants && g.deadline > snapshot
         && Renewal(token, secs) == Renewal(g.token, RemainingSecs(g.deadline, snapshot));
    MirrorOutlivesByDelay(g.deadline, snapshot, run.steps[i].at);
  }

  // ---- The list itself ----

  class Mirror {
    var entries: seq<Entry>

    ghost predicate Valid()
      reads this
    {
      TableInv(entries)
    }

    constructor ()
      ensures Valid() && entries == []
    {
      entries := [];
    }

    method Insert(token: Token, ttl: nat, now: nat)
      requires Valid()
      modifies this`entries
      ensures Valid() && entries == Apply(old(entries), Deliver(token, ttl, now))
      ensures Accepts(entries, token, now) <==> ttl > 0
    {
      ghost var before := entries;
      var deadline := now + Min(Min(ttl, LONGEST_TTL), LEASE);
      InsertedKeeps(before, token, deadline, now);
      InsertedAccepts(before, token, ttl, now);
      var others := Filter(Filter(entries, LiveAt(now)), LacksKey(TokenOf(), token));
      assert others == Others(before, token, now);
      if |others| == MAX_LIVE_TOKENS {
        others := others[1..];
      }
      entries := others + [Entry(token, deadline)];
      assert entries == Inserted(before, token, deadline, now);
    }

    /** Every entry is compared: the scan never stops early. */
    method AcceptsAt(presented: Token, now: nat) returns (accepted: bool)
      requires Valid()
      modifies this`entries
      ensures Valid() && entries == Apply(old(entries), Ask(presented, now))
      ensures accepted == Accepts(old(entries), presented, now)
    {
      Filtered(entries, TokenOf(), LiveAt(now));
      entries := Filter(entries, LiveAt(now));
      accepted := false;
      var i := 0;
      while i < |entries|
        invariant i <= |entries|
        invariant accepted <==> exists j :: 0 <= j < i && entries[j].token == presented
      {
        accepted := accepted || entries[i].token == presented;
        i := i + 1;
      }
      if accepted {
        var j :| 0 <= j < |entries| && entries[j].token == presented;
        assert entries[j] in entries;
      }
    }

    method ReapExpired(now: nat)
      requires Valid()
      modifies this`entries
      ensures Valid() && entries == Apply(old(entries), Reap(now))
      ensures forall e :: e in entries <==> e in old(entries) && e.deadline > now
    {
      Filtered(entries, TokenOf(), LiveAt(now));
      entries := Filter(entries, LiveAt(now));
    }

    /** When the reaper must wake next: the earliest deadline, if there is one. */
    method NextDeadline() returns (next: Option<nat>)
      ensures next.None? <==> entries == []
      ensures next.Some? ==> (exists e :: e in entries && e.deadline == next.value)
                             && forall e :: e in entries ==> next.value <= e.deadline
    {
      next := None;
      var i := 0;
      while i < |entries|
        invariant i <= |entries|
        invariant next.None? <==> i == 0
        invariant next.Some? ==> (exists j :: 0 <= j < i && entries[j].deadline == next.value)
                                 && forall j :: 0 <= j < i ==> next.value <= entries[j].deadline
      {
        if next.None? || entries[i].deadline < next.value {
          next := Some(entries[i].deadline);
        }
        i := i + 1;
      }
      if next.Some? {
        var j :| 0 <= j < |entries| && entries[j].deadline == next.value;
        assert entries[j] in entries;
      }
    }
  }
}
