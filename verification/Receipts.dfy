/**
 Single-use attestation receipts for capability authorizations: minted after a
 touch ceremony, redeemable once, within a minute, and never across a clear.
 */
module Receipts {
  import opened Base
  import opened Hex
  import opened Keyed

  const RECEIPT_LEN: nat := 32
  const RECEIPT_TTL: nat := 60 * SECOND
  const MAX_RECEIPTS: nat := 32

  type Id = seq<Byte>

  datatype Entry = Entry(id: Id, cap: string, minted: nat)

  type Outstanding = map<Id, Entry>

  function IdOf(): Entry -> Id { (e: Entry) => e.id }

  function Fresh(now: nat): Entry -> bool { (e: Entry) => Elapsed(e.minted, now) < RECEIPT_TTL }

  // ---- Operations, on the map from id to receipt ----

  ghost function Sweep(m: Outstanding, now: nat): Outstanding { Restrict(m, Fresh(now)) }

  datatype MintResult = Minted(id: Id) | TableFull | NoEntropy

  /** The first draw that no outstanding receipt already has. */
  ghost function FirstUnused(m: Outstanding, draws: seq<Id>): Option<Id> {
    if draws == [] then None
    else if draws[0] !in m then Some(draws[0])
    else FirstUnused(m, draws[1..])
  }

  ghost function Mint(m: Outstanding, cap: string, now: nat, draws: seq<Id>): (Outstanding, MintResult) {
    var live := Sweep(m, now);
    if |live| >= MAX_RECEIPTS then (live, TableFull)
    else
      match FirstUnused(live, draws)
      case None => (live, NoEntropy)
      case Some(id) => (live[id := Entry(id, cap, now)], Minted(id))
  }

  /** `presented` is the decoded receipt, or nothing when the text is not one. */
  ghost function Redeem(m: Outstanding, presented: Option<Id>, cap: string, now: nat): (Outstanding, Option<Id>) {
    var live := Sweep(m, now);
    match presented
    case None => (live, None)
    case Some(id) =>
      if id in live && live[id].cap == cap then (live - {id}, Some(id)) else (live, None)
  }

  // ---- Every run ----

  datatype ReceiptOp =
    | DoMint(cap: string, at: nat, draws: seq<Id>)
    | DoRedeem(presented: Option<Id>, cap: string, at: nat)
    | DoSweep(at: nat)
    | DoClear

  datatype Outcome = MintedId(id: Id) | RedeemedId(id: Id) | Nothing

  ghost function Apply(m: Outstanding, op: ReceiptOp): (Outstanding, Outcome) {
    match op
    case DoMint(cap, now, draws) =>
      var (m', r) := Mint(m, cap, now, draws);
      (m', if r.Minted? then MintedId(r.id) else Nothing)
    case DoRedeem(presented, cap, now) =>
      var (m', r) := Redeem(m, presented, cap, now);
      (m', if r.Some? then RedeemedId(r.value) else Nothing)
    case DoSweep(now) => (Sweep(m, now), Nothing)
    case DoClear => (map[], Nothing)
  }

  /** A run that begins empty: the tables it passes through, and what each operation answered. */
  datatype Trace = Trace(tables: seq<Outstanding>, ops: seq<ReceiptOp>, outcomes: seq<Outcome>)

  ghost predicate StepAt(t: Trace, k: nat)
    requires k < |t.ops| && |t.tables| == |t.ops| + 1 && |t.outcomes| == |t.ops|
  {
    Apply(t.tables[k], t.ops[k]) == (t.tables[k + 1], t.outcomes[k])
  }

  ghost predicate IsRun(t: Trace) {
    && |t.tables| == |t.ops| + 1 && |t.outcomes| == |t.ops|
    && t.tables[0] == map[]
    && forall k :: 0 <= k < |t.ops| ==> StepAt(t, k)
  }

  /** Operation `i` minted this receipt, and nothing since has cleared the table or redeemed it. */
  ghost predicate MintedBy(t: Trace, i: nat, n: nat, e: Entry)
    requires IsRun(t) && n <= |t.ops|
  {
    && i < n
    && t.outcomes[i] == MintedId(e.id)
    && t.ops[i].DoMint? && t.ops[i].cap == e.cap && t.ops[i].at == e.minted
    && (forall k :: i < k < n ==> !t.ops[k].DoClear? && t.outcomes[k] != RedeemedId(e.id))
  }

  ghost predicate HasMint(t: Trace, n: nat, e: Entry)
    requires IsRun(t) && n <= |t.ops|
  {
    exists i: nat :: MintedBy(t, i, n, e)
  }

  lemma SweepShrinks(m: Outstanding, now: nat)
    ensures |Sweep(m, now)| <= |m|
    ensures forall id :: id in Sweep(m, now) ==> id in m && Sweep(m, now)[id] == m[id]
  {
    assert Sweep(m, now).Keys <= m.Keys;
    SubsetCardinality(Sweep(m, now).Keys, m.Keys);
  }

  /** One operation: what can be in the table afterwards, and how many. */
  lemma AccountedStep(m: Outstanding, op: ReceiptOp)
    requires |m| <= MAX_RECEIPTS
    ensures |Apply(m, op).0| <= MAX_RECEIPTS
    ensures forall id :: id in Apply(m, op).0 ==>
                           if Apply(m, op).1 == MintedId(id) then
                             op.DoMint? && Apply(m, op).0[id] == Entry(id, op.cap, op.at)
                           else
                             id in m && Apply(m, op).0[id] == m[id] && !op.DoClear? && Apply(m, op).1 != RedeemedId(id)
  {
    match op
    case DoMint(cap, now, draws) => SweepShrinks(m, now);
    case DoRedeem(_, _, now) => SweepShrinks(m, now);
    case DoSweep(now) => SweepShrinks(m, now);
    case DoClear =>
  }

  /** At most 32 receipts are outstanding, in every run. */
  lemma {:induction false} OutstandingBounded(t: Trace, n: nat)
    requires IsRun(t) && n <= |t.ops|
    ensures |t.tables[n]| <= MAX_RECEIPTS
  {
    if n > 0 {
      OutstandingBounded(t, n - 1);
      assert StepAt(t, n - 1);
      AccountedStep(t.tables[n - 1], t.ops[n - 1]);
    }
  }

  /** An outstanding receipt is accounted for by one mint, in every run. */
  lemma {:induction false} EveryReceiptAccounted(t: Trace, n: nat, id: Id)
    requires IsRun(t) && n <= |t.ops| && id in t.tables[n]
    ensures t.tables[n][id].id == id && HasMint(t, n, t.tables[n][id])
  {
    var k := n - 1;
    assert StepAt(t, k);
    OutstandingBounded(t, k);
    AccountedStep(t.tables[k], t.ops[k]);
    if t.outcomes[k] == MintedId(id) {
      assert MintedBy(t, k, n, t.tables[n][id]);
    } else {
      EveryReceiptAccounted(t, k, id);
      var i: nat :| MintedBy(t, i, k, t.tables[k][id]);
      assert MintedBy(t, i, n, t.tables[n][id]);
    }
  }

  /**
   In every run, a redemption is backed by one earlier mint of that very id for
   that very capability, less than the lifetime before it, with no clear and no
   other redemption of the id in between.
   */
  lemma RedemptionIsBacked(t: Trace, j: nat)
    requires IsRun(t) && j < |t.ops| && t.outcomes[j].RedeemedId?
    ensures t.ops[j].DoRedeem?
    ensures exists i: nat, e :: MintedBy(t, i, j, e) && e.id == t.outcomes[j].id && e.cap == t.ops[j].cap
                                && Elapsed(e.minted, t.ops[j].at) < RECEIPT_TTL
  {
    var id := t.outcomes[j].id;
    assert StepAt(t, j);
    RedeemedWasLive(t.tables[j], t.ops[j]);
    EveryReceiptAccounted(t, j, id);
    var i: nat :| MintedBy(t, i, j, t.tables[j][id]);
  }

  lemma RedeemedWasLive(m: Outstanding, op: ReceiptOp)
    requires Apply(m, op).1.RedeemedId?
    ensures var id := Apply(m, op).1.id;
            op.DoRedeem? && id in m && m[id].cap == op.cap && Elapsed(m[id].minted, op.at) < RECEIPT_TTL
  {
  }

  function Count(outcomes: seq<Outcome>, wanted: Outcome): nat {
    if outcomes == [] then 0
    else Count(outcomes[..|outcomes| - 1], wanted) + if outcomes[|outcomes| - 1] == wanted then 1 else 0
  }

  /** No id is ever redeemed, or outstanding, more often than it was minted. */
  lemma {:induction false} RedeemedAtMostMinted(t: Trace, n: nat, id: Id)
    requires IsRun(t) && n <= |t.ops|
    ensures Count(t.outcomes[..n], RedeemedId(id)) + (if id in t.tables[n] then 1 else 0) <=
            Count(t.outcomes[..n], MintedId(id))
  {
    if n > 0 {
      RedeemedAtMostMinted(t, n - 1, id);
      OutstandingBounded(t, n - 1);
      assert StepAt(t, n - 1);
      CountStep(t.tables[n - 1], t.ops[n - 1], id);
      assert t.outcomes[..n][..n - 1] == t.outcomes[..n - 1];
    }
  }

  lemma CountStep(m: Outstanding, op: ReceiptOp, id: Id)
    requires |m| <= MAX_RECEIPTS
    ensures (if Apply(m, op).1 == RedeemedId(id) then 1 else 0) + (if id in Apply(m, op).0 then 1 else 0) <=
            (if id in m then 1 else 0) + (if Apply(m, op).1 == MintedId(id) then 1 else 0)
  {
    AccountedStep(m, op);
    if Apply(m, op).1 == RedeemedId(id) {
      RedeemedWasLive(m, op);
      assert id !in Apply(m, op).0;
    }
  }

  /** The receipt is there and its minute is not over. */
  predicate IsLive(m: Outstanding, id: Id, now: nat) { id in m && now < m[id].minted + 60 * SECOND }

  /** The draw is usable and no earlier one was. */
  predicate IsFirstUnused(m: Outstanding, draws: seq<Id>, k: nat, now: nat) {
    k < |draws| && !IsLive(m, draws[k], now) && forall i :: 0 <= i < k ==> IsLive(m, draws[i], now)
  }

  lemma {:induction false} FirstUnusedIs(m: Outstanding, draws: seq<Id>)
    ensures FirstUnused(m, draws).None? <==> forall i :: 0 <= i < |draws| ==> draws[i] in m
    ensures FirstUnused(m, draws).Some? ==>
              exists k :: 0 <= k < |draws| && draws[k] == FirstUnused(m, draws).value && draws[k] !in m
                          && forall i :: 0 <= i < k ==> draws[i] in m
  {
    if draws != [] {
      FirstUnusedIs(m, draws[1..]);
      assert forall i :: 1 <= i < |draws| ==> draws[i] == draws[1..][i - 1];
      if draws[0] in m && FirstUnused(m, draws[1..]).Some? {
        var k :| 0 <= k < |draws| - 1 && draws[1..][k] == FirstUnused(m, draws[1..]).value && draws[1..][k] !in m
                 && forall i :: 0 <= i < k ==> draws[1..][i] in m;
        assert draws[k + 1] == FirstUnused(m, draws).value;
      }
    }
  }

  /**
   A mint is refused exactly when thirty-two receipts are live, or when every draw names a live
   one; else it adds the first other draw. Either way no live receipt is lost.
   */
  lemma MintAnswers(m: Outstanding, cap: string, now: nat, draws: seq<Id>)
    ensures var (m', answer) := Mint(m, cap, now, draws);
            && (answer.TableFull? <==> |set id | id in m && IsLive(m, id, now)| >= 32)
            && (answer.NoEntropy? ==> forall i :: 0 <= i < |draws| ==> IsLive(m, draws[i], now))
            && (answer.Minted? ==> exists k: nat :: IsFirstUnused(m, draws, k, now) && draws[k] == answer.id)
            && (forall id :: id in m' <==> IsLive(m, id, now) || answer == Minted(id))
            && (forall id :: id in m' ==> m'[id] == if answer == Minted(id) then Entry(id, cap, now) else m[id])
  {
    var live := Sweep(m, now);
    assert forall id :: id in live <==> IsLive(m, id, now);
    assert live.Keys == set id | id in m && IsLive(m, id, now);
    FirstUnusedIs(live, draws);
    if |live| < MAX_RECEIPTS && FirstUnused(live, draws).Some? {
      var k :| 0 <= k < |draws| && draws[k] == FirstUnused(live, draws).value && draws[k] !in live
               && forall i :: 0 <= i < k ==> draws[i] in live;
      assert IsFirstUnused(m, draws, k, now);
    }
  }

  /**
   A redeem is answered exactly when it names a live receipt of its own
   capability, which it takes. Any other, a wrong capability included, leaves
   every live receipt as it was; and none takes a receipt but its own.
   */
  lemma RedeemTakesOnlyItsOwn(m: Outstanding, presented: Option<Id>, cap: string, now: nat)
    ensures var (m', answer) := Redeem(m, presented, cap, now);
            && (answer.Some? <==> presented.Some? && IsLive(m, presented.value, now) && m[presented.value].cap == cap)
            && (answer.Some? ==> answer == presented)
            && (forall id :: id in m' <==> IsLive(m, id, now) && answer != Some(id))
            && (forall id :: id in m' ==> m'[id] == m[id])
  {
  }

  // ---- The list-backed table the broker runs ----

  /**
   Move to the candidate position or stay, without a branch: the mask is all
   ones or zero. Positions in a full table fit one byte-wide word.
   */
  method MaskedMove(position: nat, candidate: nat, take: bool) returns (moved: nat)
    requires position <= MAX_RECEIPTS && candidate <= MAX_RECEIPTS
    ensures moved == if take then candidate else position
  {
    var p, c := position as bv8, candidate as bv8;
    var bit: bv8 := if take then 1 else 0;
    var mask: bv8 := 0 - bit;
    var word := (p & !mask) | (c & mask);
    MaskSelects(p, c);
    WordHolds(if take then candidate else position);
    moved := word as nat;
  }

  lemma MaskSelects(p: bv8, c: bv8)
    ensures (p & !(0 - 1)) | (c & (0 - 1)) == c
    ensures (p & !(0 - 0)) | (c & (0 - 0)) == p
  {
  }

  lemma WordHolds(k: nat)
    requires k <= MAX_RECEIPTS
    ensures (k as bv8) as nat == k
  {
  }

  class ReceiptTable {
    var entries: seq<Entry>

    ghost predicate Valid()
      reads this
    {
      Distinct(entries, IdOf()) && |entries| <= MAX_RECEIPTS
    }

    ghost function Contents(): Outstanding
      reads this
    {
      Index(entries, IdOf())
    }

    constructor ()
      ensures Valid() && Contents() == map[]
    {
      entries := [];
    }

    method SweepExpired(now: nat)
      requires Valid()
      modifies this
      ensures Valid()
      ensures Contents() == Sweep(old(Contents()), now)
    {
      Filtered(entries, IdOf(), Fresh(now));
      entries := Filter(entries, Fresh(now));
    }

    method Clear()
      modifies this
      ensures Valid() && Contents() == map[]
    {
      entries := [];
    }

    method MintReceipt(cap: string, now: nat, draws: seq<Id>) returns (result: MintResult)
      requires Valid()
      modifies this
      ensures Valid()
      ensures (Contents(), result) == Mint(old(Contents()), cap, now, draws)
    {
      SweepExpired(now);
      IndexSize(entries, IdOf());
      if |entries| >= MAX_RECEIPTS {
        return TableFull;
      }
      ghost var live := Contents();
      var k := 0;
      while k < |draws|
        invariant 0 <= k <= |draws|
        invariant Valid() && Contents() == live && |entries| < MAX_RECEIPTS
        invariant FirstUnused(live, draws) == FirstUnused(live, draws[k..])
      {
        Found(entries, IdOf(), draws[k]);
        var duplicate := FindFirst(entries, HasKey(IdOf(), draws[k]));
        if duplicate.None? {
          var e := Entry(draws[k], cap, now);
          Appended(entries, IdOf(), e);
          entries := entries + [e];
          return Minted(draws[k]);
        }
        assert draws[k..][1..] == draws[k + 1..];
        k := k + 1;
      }
      result := NoEntropy;
    }

    /**
     Scan every entry without branching on what was found: a mask decides, at
     each entry, whether the position moves. Selects what a plain linear
     search would.
     */
    method MaskedScan(presented: Id) returns (position: nat, found: bool)
      requires Valid()
      ensures found <==> FindFirst(entries, HasKey(IdOf(), presented)).Some?
      ensures found ==> position == FindFirst(entries, HasKey(IdOf(), presented)).value
    {
      position, found := 0, false;
      for i := 0 to |entries|
        invariant position <= MAX_RECEIPTS
        invariant !found ==> forall j :: 0 <= j < i ==> entries[j].id != presented
        invariant found ==> position < i && entries[position].id == presented
        invariant found ==> forall j :: 0 <= j < position ==> entries[j].id != presented
      {
        var matches := entries[i].id == presented;
        position := MaskedMove(position, i, matches && !found);
        found := found || matches;
      }
    }

    method RedeemReceipt(receiptHex: string, expectedCap: string, now: nat) returns (redeemed: Option<string>)
      requires Valid()
      modifies this
      ensures Valid()
      ensures Contents() == Redeem(old(Contents()), Decoded(receiptHex, RECEIPT_LEN), expectedCap, now).0
      ensures var found := Redeem(old(Contents()), Decoded(receiptHex, RECEIPT_LEN), expectedCap, now).1;
              redeemed == if found.Some? then Some(expectedCap) else None
    {
      SweepExpired(now);
      var presented := DecodeExact(receiptHex, RECEIPT_LEN);
      if presented.None? {
        return None;
      }
      Found(entries, IdOf(), presented.value);
      var position, found := MaskedScan(presented.value);
      if found && entries[position].cap == expectedCap {
        redeemed := Some(entries[position].cap);
        SwapRemoved(entries, position);
        entries := SwapRemove(entries, position);
      } else {
        redeemed := None;
      }
    }
  }

  /** `swap_remove`: the last entry takes the removed one's place. */
  function SwapRemove(s: seq<Entry>, i: nat): seq<Entry>
    requires i < |s|
  {
    s[i := s[|s| - 1]][..|s| - 1]
  }

  lemma SwapMembers(s: seq<Entry>, i: nat)
    requires Distinct(s, IdOf()) && i < |s|
    ensures Distinct(SwapRemove(s, i), IdOf())
    ensures forall e :: e in SwapRemove(s, i) <==> e in s && e.id != s[i].id
  {
    var t, n := SwapRemove(s, i), |s| - 1;
    assert forall j :: 0 <= j < n ==> t[j] == if j == i then s[n] else s[j];
    forall e | e in s && e.id != s[i].id ensures e in t {
      var j :| 0 <= j < |s| && s[j] == e;
      assert if j == n then t[i] == e else t[j] == e;
    }
    forall e | e in t ensures e in s && e.id != s[i].id {
      var j :| 0 <= j < |t| && t[j] == e;
      assert e == if j == i then s[n] else s[j];
    }
  }

  lemma SwapRemoved(s: seq<Entry>, i: nat)
    requires Distinct(s, IdOf()) && i < |s|
    ensures Distinct(SwapRemove(s, i), IdOf())
    ensures Index(SwapRemove(s, i), IdOf()) == Index(s, IdOf()) - {s[i].id}
  {
    var kept := Filter(s, LacksKey(IdOf(), s[i].id));
    RemovedKey(s, IdOf(), s[i].id);
    SwapMembers(s, i);
    OrderIsIrrelevant(SwapRemove(s, i), kept, IdOf());
  }
}
