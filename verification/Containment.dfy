/**
 Process containment: the shared parent walk, anchors derived for a caller, and
 which callers an anchor contains. The process table is fixed during a call.
 */
module Containment {
  import opened Base

  // ---- The walk ----

  datatype Step = Match | Continue(parent: nat) | Stop

  /** The walk bounded by its cap alone. */
  function Capped(visit: nat -> Step, start: nat, hops: nat): bool
    decreases hops
  {
    hops > 0 &&
    match visit(start)
    case Match => true
    case Stop => false
    case Continue(parent) => Capped(visit, parent, hops - 1)
  }

  /** The process `k` parents up, if the walk gets that far. */
  function Node(visit: nat -> Step, start: nat, k: nat): Option<nat> {
    if k == 0 then Some(start)
    else
      var below := Node(visit, start, k - 1);
      if below.Some? && visit(below.value).Continue? then Some(visit(below.value).parent) else None
  }

  ghost predicate MatchesAt(visit: nat -> Step, start: nat, k: nat) {
    Node(visit, start, k).Some? && visit(Node(visit, start, k).value).Match?
  }

  lemma {:induction false} NodeFromParent(visit: nat -> Step, start: nat, k: nat)
    requires visit(start).Continue?
    ensures Node(visit, start, k + 1) == Node(visit, visit(start).parent, k)
  {
    if k > 0 { NodeFromParent(visit, start, k - 1); }
  }

  lemma {:induction false} NodePast(visit: nat -> Step, start: nat, k: nat)
    requires !visit(start).Continue? && k > 0
    ensures Node(visit, start, k).None?
  {
    if k > 1 { NodePast(visit, start, k - 1); }
  }

  /** The capped walk is true exactly when a match is reached within that many visits. */
  lemma {:induction false} CappedIff(visit: nat -> Step, start: nat, hops: nat)
    ensures Capped(visit, start, hops) <==> exists k :: 0 <= k < hops && MatchesAt(visit, start, k)
    decreases hops
  {
    if hops > 0 {
      assert MatchesAt(visit, start, 0) <==> visit(start).Match?;
      if visit(start).Continue? {
        var parent := visit(start).parent;
        CappedIff(visit, parent, hops - 1);
        forall k | 0 <= k < hops - 1
          ensures MatchesAt(visit, start, k + 1) <==> MatchesAt(visit, parent, k)
        {
          NodeFromParent(visit, start, k);
        }
        if k :| 0 <= k < hops - 1 && MatchesAt(visit, parent, k) {
          assert MatchesAt(visit, start, k + 1);
        }
        if k :| 0 <= k < hops && MatchesAt(visit, start, k) {
          assert MatchesAt(visit, parent, k - 1);
        }
      } else {
        forall k | 0 < k < hops
          ensures !MatchesAt(visit, start, k)
        {
          NodePast(visit, start, k);
        }
      }
    }
  }

  /** The first `k` visits all continued. */
  ghost predicate Climbs(visit: nat -> Step, start: nat, k: nat) {
    forall i :: 0 <= i < k ==> Node(visit, start, i).Some? && visit(Node(visit, start, i).value).Continue?
  }

  /** A walk that meets a process again goes round for ever. */
  lemma {:induction false} CycleClimbs(visit: nat -> Step, start: nat, j: nat, k: nat, m: nat)
    requires j < k && Climbs(visit, start, k) && Node(visit, start, k) == Node(visit, start, j)
    ensures Climbs(visit, start, m)
    decreases m
  {
    if m > k {
      CycleClimbs(visit, start, j, k, m - 1);
      SamePeriod(visit, start, j, k, m - 1);
    }
  }

  lemma {:induction false} SamePeriod(visit: nat -> Step, start: nat, j: nat, k: nat, i: nat)
    requires j < k <= i && Climbs(visit, start, i) && Node(visit, start, k) == Node(visit, start, j)
    ensures Node(visit, start, i) == Node(visit, start, i - (k - j))
    ensures Node(visit, start, i).Some? && visit(Node(visit, start, i).value).Continue?
    decreases i
  {
    if i > k { SamePeriod(visit, start, j, k, i - 1); }
  }

  lemma CycleNeverMatches(visit: nat -> Step, start: nat, j: nat, k: nat, hops: nat)
    requires j < k && Climbs(visit, start, k) && Node(visit, start, k) == Node(visit, start, j)
    ensures !Capped(visit, start, hops)
  {
    CappedIff(visit, start, hops);
    CycleClimbs(visit, start, j, k, hops);
    forall i | 0 <= i < hops
      ensures !MatchesAt(visit, start, i)
    {
    }
  }

  lemma {:induction false} CappedAfter(visit: nat -> Step, start: nat, k: nat, hops: nat)
    requires k <= hops && Climbs(visit, start, k)
    ensures Node(visit, start, k).Some?
    ensures Capped(visit, start, hops) == Capped(visit, Node(visit, start, k).value, hops - k)
    decreases k
  {
    if k > 0 {
      CappedAfter(visit, start, k - 1, hops);
      assert visit(Node(visit, start, k - 1).value).Continue?;
    }
  }

  /** Detecting cycles changes no answer: the loop with its visited list answers what the cap alone would. */
  method Walk(start: nat, maxHops: nat, visit: nat -> Step) returns (found: bool)
    ensures found == Capped(visit, start, maxHops)
  {
    var current := start;
    var visited: seq<nat> := [];
    var hop := 0;
    while hop < maxHops
      invariant hop <= maxHops && |visited| == hop
      invariant Climbs(visit, start, hop) && Node(visit, start, hop) == Some(current)
      invariant forall i :: 0 <= i < hop ==> Node(visit, start, i) == Some(visited[i])
    {
      if current in visited {
        ghost var j :| 0 <= j < hop && visited[j] == current;
        CycleNeverMatches(visit, start, j, hop, maxHops);
        return false;
      }
      visited := visited + [current];
      CappedAfter(visit, start, hop, maxHops);
      match visit(current) {
        case Match => return true;
        case Stop => return false;
        case Continue(parent) => current := parent;
      }
      hop := hop + 1;
    }
    CappedAfter(visit, start, maxHops, maxHops);
    found := false;
  }

  // ---- Anchors ----

  const MAX_ANCESTRY_HOPS: nat := 12

  /** One process: the session its arguments name, if any, its parent and its start time. */
  datatype Process = Process(session: Option<string>, parent: nat, start: nat)

  datatype Anchor = Anchor(pid: nat, start: nat)

  /** What `contains_with` concludes about one process. */
  function Visit(table: map<nat, Process>, anchor: Anchor): nat -> Step {
    (pid: nat) =>
      if pid !in table then Stop
      else if pid == anchor.pid then (if table[pid].start == anchor.start then Match else Stop)
      else if table[pid].parent <= 1 then Stop
      else Continue(table[pid].parent)
  }

  predicate Contains(table: map<nat, Process>, anchor: Anchor, pid: nat) {
    Capped(Visit(table, anchor), pid, MAX_ANCESTRY_HOPS)
  }

  method ContainsWith(table: map<nat, Process>, anchor: Anchor, pid: nat) returns (inside: bool)
    ensures inside == Contains(table, anchor, pid)
  {
    inside := Walk(pid, MAX_ANCESTRY_HOPS, Visit(table, anchor));
  }

  /** The parent `k` up, by the process table alone; init's children have none. */
  function Ancestor(table: map<nat, Process>, pid: nat, k: nat): Option<nat> {
    if k == 0 then Some(pid)
    else
      var below := Ancestor(table, pid, k - 1);
      if below.Some? && below.value in table && table[below.value].parent > 1
      then Some(table[below.value].parent) else None
  }

  lemma {:induction false} NodeIsAncestor(table: map<nat, Process>, anchor: Anchor, pid: nat, k: nat)
    requires Node(Visit(table, anchor), pid, k).Some?
    ensures Ancestor(table, pid, k) == Node(Visit(table, anchor), pid, k)
  {
    if k > 0 { NodeIsAncestor(table, anchor, pid, k - 1); }
  }

  lemma {:induction false} AncestorIsNode(table: map<nat, Process>, anchor: Anchor, pid: nat, k: nat)
    requires Ancestor(table, pid, k).Some? && forall i: nat :: i < k ==> Ancestor(table, pid, i) != Some(anchor.pid)
    ensures Node(Visit(table, anchor), pid, k) == Ancestor(table, pid, k)
  {
    if k > 0 {
      AncestorIsNode(table, anchor, pid, k - 1);
      assert Ancestor(table, pid, k - 1) != Some(anchor.pid);
    }
  }

  /** The nearest of the ancestors that are the anchor's process. */
  lemma {:induction false} FirstAncestor(table: map<nat, Process>, anchor: Anchor, pid: nat, k: nat)
    returns (first: nat)
    requires Ancestor(table, pid, k) == Some(anchor.pid)
    ensures first <= k && Ancestor(table, pid, first) == Some(anchor.pid)
    ensures forall i: nat :: i < first ==> Ancestor(table, pid, i) != Some(anchor.pid)
  {
    first := k;
    if i: nat :| i < k && Ancestor(table, pid, i) == Some(anchor.pid) {
      first := FirstAncestor(table, anchor, pid, i);
    }
  }

  /**
   An anchor contains exactly the processes that have it, still the process that was started then, among
   themselves and their eleven nearest ancestors: a recycled pid contains nothing.
   */
  lemma ContainsIff(table: map<nat, Process>, anchor: Anchor, pid: nat)
    ensures Contains(table, anchor, pid) <==>
            && anchor.pid in table && table[anchor.pid].start == anchor.start
            && exists k: nat :: k < 12 && Ancestor(table, pid, k) == Some(anchor.pid)
  {
    var visit := Visit(table, anchor);
    CappedIff(visit, pid, MAX_ANCESTRY_HOPS);
    if k: nat :| k < MAX_ANCESTRY_HOPS && MatchesAt(visit, pid, k) {
      NodeIsAncestor(table, anchor, pid, k);
    }
    if k: nat :| k < 12 && Ancestor(table, pid, k) == Some(anchor.pid) {
      var first := FirstAncestor(table, anchor, pid, k);
      AncestorIsNode(table, anchor, pid, first);
      assert anchor.pid in table && table[anchor.pid].start == anchor.start ==> MatchesAt(visit, pid, first);
    }
  }

  /** The ancestor `k` up, as the derivation loop climbs: init and self-parented processes end it. */
  function Up(table: map<nat, Process>, pid: nat, k: nat): Option<nat> {
    if k == 0 then Some(pid)
    else
      var below := Up(table, pid, k - 1);
      if below.Some? && below.value in table && table[below.value].parent > 1
         && table[below.value].parent != below.value
      then Some(table[below.value].parent)
      else None
  }

  /** The ancestor `k` up names a session, and its executable is the session program. */
  predicate SessionAt(table: map<nat, Process>, verified: set<nat>, pid: nat, k: nat) {
    var up := Up(table, pid, k);
    up.Some? && up.value in table && table[up.value].session.Some? && up.value in verified
  }

  predicate Orphan(table: map<nat, Process>, pid: nat) {
    pid !in table || table[pid].parent <= 1 || table[pid].parent == pid || table[pid].parent !in table
  }

  /** `hop` parents above pid's parent is the nearest verified session within the cap; with none, the parent itself. */
  ghost predicate IsNearest(table: map<nat, Process>, verified: set<nat>, pid: nat, hop: nat)
    requires !Orphan(table, pid)
  {
    var parent := table[pid].parent;
    && hop < MAX_ANCESTRY_HOPS
    && (forall k :: 0 <= k < hop ==> !SessionAt(table, verified, parent, k))
    && (SessionAt(table, verified, parent, hop)
        || (hop == 0 && forall k :: 0 <= k < MAX_ANCESTRY_HOPS ==> !SessionAt(table, verified, parent, k)))
  }

  ghost predicate IsAnchor(table: map<nat, Process>, verified: set<nat>, pid: nat, anchor: Anchor, hop: nat)
    requires !Orphan(table, pid)
  {
    && IsNearest(table, verified, pid, hop)
    && Up(table, table[pid].parent, hop) == Some(anchor.pid)
    && anchor.pid in table && anchor.start == table[anchor.pid].start
  }

  lemma {:induction false} UpEnds(table: map<nat, Process>, pid: nat, k: nat, m: nat)
    requires Up(table, pid, k).None? && k <= m
    ensures Up(table, pid, m).None?
    decreases m
  {
    if k < m { UpEnds(table, pid, k, m - 1); }
  }

  /** When the climb ends at `hop`, no later ancestor exists to be a session. */
  lemma NoLaterSession(table: map<nat, Process>, verified: set<nat>, pid: nat, hop: nat)
    requires Up(table, pid, hop).Some? && (Up(table, pid, hop).value !in table || Up(table, pid, hop + 1).None?)
    requires forall k :: 0 <= k < hop ==> !SessionAt(table, verified, pid, k)
    requires Up(table, pid, hop).value in table ==> !SessionAt(table, verified, pid, hop)
    ensures forall k :: 0 <= k < MAX_ANCESTRY_HOPS ==> !SessionAt(table, verified, pid, k)
  {
    forall k | hop < k
      ensures !SessionAt(table, verified, pid, k)
    {
      UpEnds(table, pid, hop + 1, k);
    }
  }

  method AnchorFor(table: map<nat, Process>, verified: set<nat>, pid: nat) returns (r: Option<Anchor>, ghost hop: nat)
    ensures r.None? <==> Orphan(table, pid)
    ensures r.Some? ==> IsAnchor(table, verified, pid, r.value, hop)
  {
    hop := 0;
    if pid !in table { return None, 0; }
    var parent := table[pid].parent;
    if parent <= 1 || parent == pid { return None, 0; }
    var current := parent;
    var fallback: Option<Anchor> := None;
    var i := 0;
    while i < MAX_ANCESTRY_HOPS
      invariant i <= MAX_ANCESTRY_HOPS && Up(table, parent, i) == Some(current)
      invariant i > 0 ==> parent in table
      invariant fallback == if i > 0 then Some(Anchor(parent, table[parent].start)) else None
      invariant forall k :: 0 <= k < i ==> !SessionAt(table, verified, parent, k)
    {
      if current !in table {
        NoLaterSession(table, verified, parent, i);
        break;
      }
      var process := table[current];
      if current == parent { fallback := Some(Anchor(current, process.start)); }
      if process.session.Some? && current in verified { return Some(Anchor(current, process.start)), i; }
      if process.parent <= 1 || process.parent == current {
        NoLaterSession(table, verified, parent, i);
        break;
      }
      current := process.parent;
      i := i + 1;
    }
    r := fallback;
  }

  // ---- Anchors contain their callers ----

  /** A session nearer than the nearest cannot be the same process. */
  lemma NearestIsNew(table: map<nat, Process>, verified: set<nat>, pid: nat, anchor: Anchor, hop: nat, k: nat)
    requires !Orphan(table, pid) && IsAnchor(table, verified, pid, anchor, hop) && k < hop
    ensures Up(table, table[pid].parent, k) != Some(anchor.pid)
  {
    assert !SessionAt(table, verified, table[pid].parent, k);
    assert SessionAt(table, verified, table[pid].parent, hop);
  }

  lemma {:induction false} UpIsBelow(table: map<nat, Process>, pid: nat, k: nat, m: nat)
    requires Up(table, pid, m).Some? && k <= m
    ensures Up(table, pid, k).Some?
    decreases m
  {
    if k < m { UpIsBelow(table, pid, k, m - 1); }
  }

  /** The containment walk from the parent takes the derivation's own path. */
  lemma {:induction false} WalkFollowsUp(table: map<nat, Process>, verified: set<nat>, pid: nat, anchor: Anchor,
                                         hop: nat, k: nat)
    requires !Orphan(table, pid) && IsAnchor(table, verified, pid, anchor, hop) && k <= hop
    ensures Node(Visit(table, anchor), table[pid].parent, k) == Up(table, table[pid].parent, k)
    decreases k
  {
    if k > 0 {
      WalkFollowsUp(table, verified, pid, anchor, hop, k - 1);
      UpIsBelow(table, table[pid].parent, k, hop);
      NearestIsNew(table, verified, pid, anchor, hop, k - 1);
    }
  }

  lemma AnchorMatchesAt(table: map<nat, Process>, verified: set<nat>, pid: nat, anchor: Anchor, hop: nat)
    requires !Orphan(table, pid) && IsAnchor(table, verified, pid, anchor, hop)
    ensures MatchesAt(Visit(table, anchor), table[pid].parent, hop)
    ensures forall k :: 0 <= k < hop ==> !MatchesAt(Visit(table, anchor), table[pid].parent, k)
  {
    WalkFollowsUp(table, verified, pid, anchor, hop, hop);
    forall k | 0 <= k < hop
      ensures !MatchesAt(Visit(table, anchor), table[pid].parent, k)
    {
      WalkFollowsUp(table, verified, pid, anchor, hop, k);
      NearestIsNew(table, verified, pid, anchor, hop, k);
    }
  }

  /** An anchor always contains the caller's parent. */
  lemma AnchorContainsParent(table: map<nat, Process>, verified: set<nat>, pid: nat, anchor: Anchor, hop: nat)
    requires !Orphan(table, pid) && IsAnchor(table, verified, pid, anchor, hop)
    ensures Contains(table, anchor, table[pid].parent)
  {
    AnchorMatchesAt(table, verified, pid, anchor, hop);
    CappedIff(Visit(table, anchor), table[pid].parent, MAX_ANCESTRY_HOPS);
  }

  /**
   It contains the caller itself exactly when it is at most eleven hops up, or
   is the caller: the derivation climbs one hop further than the walk does.
   */
  lemma AnchorContainsCallerIff(table: map<nat, Process>, verified: set<nat>, pid: nat, anchor: Anchor, hop: nat)
    requires !Orphan(table, pid) && IsAnchor(table, verified, pid, anchor, hop)
    ensures Contains(table, anchor, pid) <==> anchor.pid == pid || hop + 1 <= MAX_ANCESTRY_HOPS - 1
  {
    var visit := Visit(table, anchor);
    CappedIff(visit, pid, MAX_ANCESTRY_HOPS);
    if anchor.pid == pid {
      assert MatchesAt(visit, pid, 0);
    } else {
      AnchorMatchesAt(table, verified, pid, anchor, hop);
      forall k: nat
        ensures MatchesAt(visit, pid, k + 1) <==> MatchesAt(visit, table[pid].parent, k)
      {
        NodeFromParent(visit, pid, k);
      }
      if hop + 1 < MAX_ANCESTRY_HOPS {
        assert MatchesAt(visit, pid, hop + 1);
      } else {
        forall k | 0 <= k < MAX_ANCESTRY_HOPS
          ensures !MatchesAt(visit, pid, k)
        {
          if k > 0 { assert MatchesAt(visit, pid, (k - 1) + 1) <==> MatchesAt(visit, table[pid].parent, k - 1); }
        }
      }
    }
  }

  /** Process 14 down to 2 in one line of parents, with the session program at the top. */
  function Ladder(): map<nat, Process> {
    var rungs: set<nat> := {2, 3, 4, 5, 6, 7, 8, 9, 10, 11, 12, 13, 14};
    map pid | pid in rungs :: Process(if pid == 2 then Some("session") else None, pid - 1, 0)
  }

  lemma {:induction false} LadderUp(k: nat)
    requires k <= 11
    ensures Up(Ladder(), 13, k) == Some(13 - k)
  {
    if k > 0 { LadderUp(k - 1); }
  }

  /** Twelve hops up, the derived anchor does not contain the caller it was derived for. */
  lemma TwelfthHopIsMissed()
    ensures !Orphan(Ladder(), 14) && IsAnchor(Ladder(), {2}, 14, Anchor(2, 0), 11)
    ensures !Contains(Ladder(), Anchor(2, 0), 14)
  {
    var table: map<nat, Process>, verified: set<nat>, parent: nat := Ladder(), {2}, 13;
    forall k | 0 <= k < 11
      ensures !SessionAt(table, verified, parent, k)
    {
      LadderUp(k);
    }
    LadderUp(11);
    AnchorContainsCallerIff(Ladder(), {2}, 14, Anchor(2, 0), 11);
  }
}
