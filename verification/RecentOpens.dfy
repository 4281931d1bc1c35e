/** The loop guard of the laptop's opener: a bounded record of recent opens, per URL and origin. */
module RecentOpens {
  import opened Base

  const MAX_OPENS_PER_WINDOW: nat := 3
  const MAX_TRACKED_OPENS: nat := 64
  const OPEN_WINDOW: nat := 2 * SECOND

  datatype Open = Open(url: string, at: nat, origin: Option<nat>)

  datatype Decision = Permit | Drop(count: nat)

  predicate IsRecent(o: Open, now: nat) { Elapsed(o.at, now) < OPEN_WINDOW }

  predicate IsLike(o: Open, open: Open) { o.origin == open.origin && o.url == open.url }

  /** The recent opens of a stretch, in order. */
  function RecentAmong(opens: seq<Open>, lo: nat, hi: nat, now: nat): seq<Open>
    requires lo <= hi <= |opens|
  {
    if lo == hi then []
    else RecentAmong(opens, lo, hi - 1, now) + (if IsRecent(opens[hi - 1], now) then [opens[hi - 1]] else [])
  }

  /** How many opens of a stretch have this URL and origin. */
  function CountLike(opens: seq<Open>, lo: nat, hi: nat, open: Open): nat
    requires lo <= hi <= |opens|
  {
    if lo == hi then 0 else CountLike(opens, lo, hi - 1, open) + (if IsLike(opens[hi - 1], open) then 1 else 0)
  }

  /** What `record` keeps and answers. */
  function Recorded(entries: seq<Open>, open: Open): (seq<Open>, Decision) {
    var recent := RecentAmong(entries, 0, |entries|, open.at);
    var count := CountLike(recent, 0, |recent|, open) + 1;
    if count > MAX_OPENS_PER_WINDOW then (recent, Drop(count))
    else ((if |recent| == MAX_TRACKED_OPENS then recent[1..] else recent) + [open], Permit)
  }

  // ---- Runs ----

  /** The guard's entries and everything it has permitted so far. */
  datatype Guard = Guard(entries: seq<Open>, permitted: seq<Open>)

  function Stepped(guard: Guard, open: Open): Guard {
    var (entries, decision) := Recorded(guard.entries, open);
    Guard(entries, if decision.Permit? then guard.permitted + [open] else guard.permitted)
  }

  /** The guard after the first `n` calls. */
  function After(calls: seq<Open>, n: nat): Guard
    requires n <= |calls|
  {
    if n == 0 then Guard([], []) else Stepped(After(calls, n - 1), calls[n - 1])
  }

  predicate InOrder(opens: seq<Open>, i: nat)
    requires i + 1 < |opens|
  {
    opens[i].at <= opens[i + 1].at
  }

  /** A monotone clock. */
  ghost predicate Ordered(opens: seq<Open>) {
    forall i :: 0 <= i && i + 1 < |opens| ==> InOrder(opens, i)
  }

  lemma {:induction false} OrderedPair(opens: seq<Open>, i: nat, j: nat)
    requires Ordered(opens) && i <= j < |opens|
    ensures opens[i].at <= opens[j].at
    decreases j
  {
    if i < j {
      OrderedPair(opens, i, j - 1);
      assert InOrder(opens, j - 1);
    }
  }

  /** When the latest of a record was opened. */
  function Latest(opens: seq<Open>): nat { if opens == [] then 0 else opens[|opens| - 1].at }

  lemma AtMostLatest(opens: seq<Open>, i: nat)
    requires Ordered(opens) && i < |opens|
    ensures opens[i].at <= Latest(opens)
  {
    OrderedPair(opens, i, |opens| - 1);
  }

  // ---- The recent part of a monotone record is a suffix ----

  /** Where the recent part of the first `n` starts. */
  function RecentFrom(opens: seq<Open>, n: nat, now: nat): (k: nat)
    requires n <= |opens|
    ensures k <= n
  {
    if n == 0 || !IsRecent(opens[n - 1], now) then n else RecentFrom(opens, n - 1, now)
  }

  /** Time only moves the start forward. */
  lemma {:induction false} RecentFromGrows(opens: seq<Open>, n: nat, before: nat, now: nat)
    requires Ordered(opens) && Latest(opens) <= before <= now && n <= |opens|
    ensures RecentFrom(opens, n, before) <= RecentFrom(opens, n, now)
  {
    if n > 0 && IsRecent(opens[n - 1], now) {
      AtMostLatest(opens, n - 1);
      RecentFromGrows(opens, n - 1, before, now);
    }
  }

  lemma {:induction false} RecentFromAtMost(opens: seq<Open>, n: nat, now: nat, i: nat)
    requires Ordered(opens) && Latest(opens) <= now && i <= n <= |opens| && (i < n ==> IsRecent(opens[i], now))
    ensures RecentFrom(opens, n, now) <= i
  {
    if i < n {
      OrderedPair(opens, i, n - 1);
      RecentFromAtMost(opens, n - 1, now, i);
    }
  }

  lemma {:induction false} SamePrefix(opens: seq<Open>, open: Open, n: nat, now: nat)
    requires n <= |opens|
    ensures RecentFrom(opens + [open], n, now) == RecentFrom(opens, n, now)
  {
    if n > 0 { SamePrefix(opens, open, n - 1, now); }
  }

  lemma {:induction false} RecentShift(opens: seq<Open>, from: nat, m: nat, now: nat)
    requires from + m <= |opens|
    ensures RecentAmong(opens[from..|opens|], 0, m, now) == RecentAmong(opens, from, from + m, now)
    decreases m
  {
    if m > 0 { RecentShift(opens, from, m - 1, now); }
  }

  lemma OneLonger(opens: seq<Open>, k: nat, hi: nat)
    requires k < hi <= |opens|
    ensures opens[k..hi] == opens[k..hi - 1] + [opens[hi - 1]]
  {
  }

  /** Retaining the recent of a stretch keeps the later part of it. */
  lemma {:induction false} RetainKeepsSuffix(opens: seq<Open>, lo: nat, hi: nat, now: nat)
    requires Ordered(opens) && Latest(opens) <= now && lo <= hi <= |opens|
    ensures RecentAmong(opens, lo, hi, now) == opens[Max(lo, RecentFrom(opens, hi, now))..hi]
    decreases hi
  {
    if lo < hi {
      RetainKeepsSuffix(opens, lo, hi - 1, now);
      if IsRecent(opens[hi - 1], now) {
        var k := Max(lo, RecentFrom(opens, hi - 1, now));
        OneLonger(opens, k, hi);
      } else if hi > 1 {
        OlderIsNotRecent(opens, hi - 1, now);
      }
    }
  }

  lemma OlderIsNotRecent(opens: seq<Open>, i: nat, now: nat)
    requires Ordered(opens) && Latest(opens) <= now && 0 < i < |opens| && !IsRecent(opens[i], now)
    ensures RecentFrom(opens, i, now) == i
  {
    assert InOrder(opens, i - 1);
    AtMostLatest(opens, i);
  }

  /** The tracked part: recent, and among the last sixty-four. */
  function TailFrom(permitted: seq<Open>, now: nat): (k: nat)
    ensures k <= |permitted|
  {
    Max(if |permitted| < MAX_TRACKED_OPENS then 0 else |permitted| - MAX_TRACKED_OPENS,
        RecentFrom(permitted, |permitted|, now))
  }

  /** The entries are exactly the tracked part of what was permitted. */
  ghost predicate TailInv(guard: Guard, now: nat) {
    && Ordered(guard.permitted) && Latest(guard.permitted) <= now
    && guard.entries == guard.permitted[TailFrom(guard.permitted, now)..|guard.permitted|]
  }

  lemma RetainedIsTail(guard: Guard, before: nat, now: nat)
    requires TailInv(guard, before) && before <= now
    ensures RecentAmong(guard.entries, 0, |guard.entries|, now)
            == guard.permitted[TailFrom(guard.permitted, now)..|guard.permitted|]
  {
    var permitted, from := guard.permitted, TailFrom(guard.permitted, before);
    RecentShift(permitted, from, |permitted| - from, now);
    RetainKeepsSuffix(permitted, from, |permitted|, now);
    RecentFromGrows(permitted, |permitted|, before, now);
    assert Max(from, RecentFrom(permitted, |permitted|, now)) == TailFrom(permitted, now);
  }

  lemma PermitMovesTail(permitted: seq<Open>, open: Open)
    ensures var recent := permitted[TailFrom(permitted, open.at)..|permitted|];
            (permitted + [open])[TailFrom(permitted + [open], open.at)..|permitted| + 1]
            == (if |recent| == MAX_TRACKED_OPENS then recent[1..] else recent) + [open]
  {
    SamePrefix(permitted, open, |permitted|, open.at);
  }

  lemma PermitKeepsOrder(permitted: seq<Open>, open: Open)
    requires Ordered(permitted) && Latest(permitted) <= open.at
    ensures Ordered(permitted + [open])
  {
    forall i | 0 <= i && i + 1 < |permitted + [open]|
      ensures InOrder(permitted + [open], i)
    {
      assert i + 1 < |permitted| ==> InOrder(permitted, i);
    }
  }

  lemma StepKeepsTail(guard: Guard, now: nat, open: Open)
    requires TailInv(guard, now) && now <= open.at
    ensures TailInv(Stepped(guard, open), open.at)
  {
    RetainedIsTail(guard, now, open.at);
    PermitMovesTail(guard.permitted, open);
    PermitKeepsOrder(guard.permitted, open);
  }

  function Clock(calls: seq<Open>, n: nat): nat
    requires n <= |calls|
  {
    if n == 0 then 0 else calls[n - 1].at
  }

  lemma {:induction false} EntriesAreTail(calls: seq<Open>, n: nat)
    requires Ordered(calls) && n <= |calls|
    ensures TailInv(After(calls, n), Clock(calls, n))
  {
    if n > 0 {
      EntriesAreTail(calls, n - 1);
      assert n > 1 ==> InOrder(calls, n - 2);
      StepKeepsTail(After(calls, n - 1), Clock(calls, n - 1), calls[n - 1]);
    }
  }

  // ---- What the guard promises ----

  lemma {:induction false} CountShift(opens: seq<Open>, from: nat, m: nat, open: Open)
    requires from + m <= |opens|
    ensures CountLike(opens[from..|opens|], 0, m, open) == CountLike(opens, from, from + m, open)
    decreases m
  {
    if m > 0 { CountShift(opens, from, m - 1, open); }
  }

  lemma {:induction false} CountPrefix(opens: seq<Open>, last: Open, lo: nat, hi: nat, open: Open)
    requires lo <= hi <= |opens|
    ensures CountLike(opens + [last], lo, hi, open) == CountLike(opens, lo, hi, open)
    decreases hi
  {
    if lo < hi { CountPrefix(opens, last, lo, hi - 1, open); }
  }

  lemma {:induction false} CountGrows(opens: seq<Open>, k: nat, i: nat, hi: nat, open: Open)
    requires k <= i <= hi <= |opens|
    ensures CountLike(opens, i, hi, open) <= CountLike(opens, k, hi, open)
    decreases hi
  {
    if i < hi { CountGrows(opens, k, i, hi - 1, open); }
  }

  lemma {:induction false} CountSame(opens: seq<Open>, lo: nat, hi: nat, a: Open, b: Open)
    requires lo <= hi <= |opens| && a.url == b.url && a.origin == b.origin
    ensures CountLike(opens, lo, hi, a) == CountLike(opens, lo, hi, b)
    decreases hi
  {
    if lo < hi { CountSame(opens, lo, hi - 1, a, b); }
  }

  /** The decision counts only opens of the same URL and origin, in the tracked part of what was permitted. */
  lemma DecidesByTail(guard: Guard, now: nat, open: Open)
    requires TailInv(guard, now) && now <= open.at
    ensures Recorded(guard.entries, open).1.Drop? <==>
            CountLike(guard.permitted, TailFrom(guard.permitted, open.at), |guard.permitted|, open)
            >= MAX_OPENS_PER_WINDOW
  {
    RetainedIsTail(guard, now, open.at);
    var k := TailFrom(guard.permitted, open.at);
    CountShift(guard.permitted, k, |guard.permitted| - k, open);
  }

  /** Exactly when a call is dropped, over every monotone run. */
  lemma {:induction false} DropsIff(calls: seq<Open>, n: nat)
    requires Ordered(calls) && n < |calls|
    ensures var permitted := After(calls, n).permitted;
            Recorded(After(calls, n).entries, calls[n]).1.Drop? <==>
            CountLike(permitted, TailFrom(permitted, calls[n].at), |permitted|, calls[n]) >= MAX_OPENS_PER_WINDOW
  {
    EntriesAreTail(calls, n);
    assert n > 0 ==> InOrder(calls, n - 1);
    DecidesByTail(After(calls, n), Clock(calls, n), calls[n]);
  }

  // ---- A drop, in terms of times ----

  lemma {:induction false} RecentFromIff(opens: seq<Open>, n: nat, now: nat, i: nat)
    requires Ordered(opens) && Latest(opens) <= now && i < n <= |opens|
    ensures RecentFrom(opens, n, now) <= i <==> now < opens[i].at + 2 * SECOND
  {
    AtMostLatest(opens, i);
    if now < opens[i].at + 2 * SECOND {
      RecentFromAtMost(opens, n, now, i);
    } else if IsRecent(opens[n - 1], now) {
      AtMostLatest(opens, n - 1);
      RecentFromIff(opens, n - 1, now, i);
    }
  }

  lemma TailIff(permitted: seq<Open>, now: nat, i: nat)
    requires Ordered(permitted) && Latest(permitted) <= now && i < |permitted|
    ensures TailFrom(permitted, now) <= i <==> |permitted| - i <= 64 && now < permitted[i].at + 2 * SECOND
  {
    RecentFromIff(permitted, |permitted|, now, i);
  }

  predicate SameOpen(opens: seq<Open>, i: nat, open: Open) {
    i < |opens| && opens[i].url == open.url && opens[i].origin == open.origin
  }

  /** The last of at least `m + 1` like opens. */
  lemma {:induction false} LastLike(opens: seq<Open>, lo: nat, hi: nat, open: Open, m: nat) returns (c: nat)
    requires lo <= hi <= |opens| && CountLike(opens, lo, hi, open) >= m + 1
    ensures lo <= c < hi && SameOpen(opens, c, open) && CountLike(opens, lo, c, open) >= m
    decreases hi
  {
    c := hi - 1;
    if !SameOpen(opens, c, open) { c := LastLike(opens, lo, hi - 1, open, m); }
  }

  lemma {:induction false} OneMoreLike(opens: seq<Open>, lo: nat, c: nat, hi: nat, open: Open)
    requires lo <= c < hi <= |opens| && SameOpen(opens, c, open)
    ensures CountLike(opens, lo, hi, open) >= CountLike(opens, lo, c, open) + 1
    decreases hi
  {
    if c < hi - 1 { OneMoreLike(opens, lo, c, hi - 1, open); }
  }

  /** Three earlier opens of a stretch have this URL and origin. */
  ghost predicate ThreeAlike(opens: seq<Open>, lo: nat, open: Open) {
    exists a: nat, b: nat, c: nat ::
      lo <= a < b < c && SameOpen(opens, a, open) && SameOpen(opens, b, open) && SameOpen(opens, c, open)
  }

  lemma ThreeIff(opens: seq<Open>, lo: nat, open: Open)
    requires lo <= |opens|
    ensures CountLike(opens, lo, |opens|, open) >= 3 <==> ThreeAlike(opens, lo, open)
  {
    if CountLike(opens, lo, |opens|, open) >= 3 {
      var c := LastLike(opens, lo, |opens|, open, 2);
      var b := LastLike(opens, lo, c, open, 1);
      var a := LastLike(opens, lo, b, open, 0);
    }
    if ThreeAlike(opens, lo, open) {
      var a: nat, b: nat, c: nat :|
        lo <= a < b < c && SameOpen(opens, a, open) && SameOpen(opens, b, open) && SameOpen(opens, c, open);
      OneMoreLike(opens, lo, a, b, open);
      OneMoreLike(opens, lo, b, c, open);
      OneMoreLike(opens, lo, c, |opens|, open);
    }
  }

  /** An open permitted less than two seconds before, and among the last sixty-four, of this URL and origin. */
  predicate Counts(permitted: seq<Open>, i: nat, open: Open) {
    SameOpen(permitted, i, open) && |permitted| - i <= 64 && open.at < permitted[i].at + 2 * SECOND
  }

  ghost predicate ThreeCount(permitted: seq<Open>, open: Open) {
    exists a: nat, b: nat, c: nat ::
      a < b < c && Counts(permitted, a, open) && Counts(permitted, b, open) && Counts(permitted, c, open)
  }

  lemma CountsIff(permitted: seq<Open>, open: Open, i: nat)
    requires Ordered(permitted) && Latest(permitted) <= open.at
    ensures Counts(permitted, i, open) <==> TailFrom(permitted, open.at) <= i && SameOpen(permitted, i, open)
  {
    if i < |permitted| { TailIff(permitted, open.at, i); }
  }

  lemma ThreeCountIff(permitted: seq<Open>, open: Open)
    requires Ordered(permitted) && Latest(permitted) <= open.at
    ensures ThreeCount(permitted, open) <==> ThreeAlike(permitted, TailFrom(permitted, open.at), open)
  {
    var lo := TailFrom(permitted, open.at);
    if ThreeAlike(permitted, lo, open) {
      var a: nat, b: nat, c: nat :| lo <= a < b < c && SameOpen(permitted, a, open) && SameOpen(permitted, b, open)
                                    && SameOpen(permitted, c, open);
      CountsIff(permitted, open, a);
      CountsIff(permitted, open, b);
      CountsIff(permitted, open, c);
    }
    if ThreeCount(permitted, open) {
      var a: nat, b: nat, c: nat :|
        a < b < c && Counts(permitted, a, open) && Counts(permitted, b, open) && Counts(permitted, c, open);
      CountsIff(permitted, open, a);
      CountsIff(permitted, open, b);
      CountsIff(permitted, open, c);
    }
  }

  lemma TailThreeIff(guard: Guard, now: nat, open: Open)
    requires TailInv(guard, now) && now <= open.at
    ensures Recorded(guard.entries, open).1.Drop? <==> ThreeCount(guard.permitted, open)
  {
    DecidesByTail(guard, now, open);
    ThreeIff(guard.permitted, TailFrom(guard.permitted, open.at), open);
    ThreeCountIff(guard.permitted, open);
  }

  /**
   A call is dropped exactly when three opens permitted less than two seconds before, and among the last
   sixty-four permitted, had its URL and its origin.
   */
  lemma DroppedIff(calls: seq<Open>, n: nat)
    requires Ordered(calls) && n < |calls|
    ensures Recorded(After(calls, n).entries, calls[n]).1.Drop? <==> ThreeCount(After(calls, n).permitted, calls[n])
  {
    EntriesAreTail(calls, n);
    assert n > 0 ==> InOrder(calls, n - 1);
    TailThreeIff(After(calls, n), Clock(calls, n), calls[n]);
  }

  /** Opens `i` to `j`: less than a window apart, and at most sixty-five. */
  predicate InWindow(permitted: seq<Open>, i: nat, j: nat)
    requires i <= j < |permitted|
  {
    Elapsed(permitted[i].at, permitted[j].at) < OPEN_WINDOW && j - i <= MAX_TRACKED_OPENS
  }

  lemma PermitKeepsWindow(permitted: seq<Open>, open: Open, i: nat)
    requires Ordered(permitted) && Latest(permitted) <= open.at && i <= |permitted|
    requires CountLike(permitted, TailFrom(permitted, open.at), |permitted|, open) < MAX_OPENS_PER_WINDOW
    requires InWindow(permitted + [open], i, |permitted|)
    ensures CountLike(permitted + [open], i, |permitted| + 1, open) <= MAX_OPENS_PER_WINDOW
  {
    assert i < |permitted| ==> (permitted + [open])[i] == permitted[i];
    RecentFromAtMost(permitted, |permitted|, open.at, i);
    CountGrows(permitted, TailFrom(permitted, open.at), i, |permitted|, open);
    CountPrefix(permitted, open, i, |permitted|, open);
  }

  lemma StepKeepsWindow(guard: Guard, now: nat, open: Open, i: nat, j: nat)
    requires TailInv(guard, now) && now <= open.at && i <= j < |Stepped(guard, open).permitted|
    requires InWindow(Stepped(guard, open).permitted, i, j)
    requires j < |guard.permitted| ==> CountLike(guard.permitted, i, j + 1, guard.permitted[j]) <= MAX_OPENS_PER_WINDOW
    ensures var after := Stepped(guard, open).permitted;
            CountLike(after, i, j + 1, after[j]) <= MAX_OPENS_PER_WINDOW
  {
    if j < |guard.permitted| {
      CountPrefix(guard.permitted, open, i, j + 1, guard.permitted[j]);
    } else {
      DecidesByTail(guard, now, open);
      PermitKeepsWindow(guard.permitted, open, i);
    }
  }

  lemma {:induction false} AtMostThreeLikeTheLast(calls: seq<Open>, n: nat, i: nat, j: nat)
    requires Ordered(calls) && n <= |calls| && i <= j < |After(calls, n).permitted|
    requires InWindow(After(calls, n).permitted, i, j)
    ensures CountLike(After(calls, n).permitted, i, j + 1, After(calls, n).permitted[j]) <= MAX_OPENS_PER_WINDOW
    decreases n
  {
    if j < |After(calls, n - 1).permitted| {
      AtMostThreeLikeTheLast(calls, n - 1, i, j);
    }
    EntriesAreTail(calls, n - 1);
    assert n > 1 ==> InOrder(calls, n - 2);
    StepKeepsWindow(After(calls, n - 1), Clock(calls, n - 1), calls[n - 1], i, j);
  }

  /**
   The loop guard: over every monotone run, among opens permitted in turn less
   than a window apart, at most sixty-five of them, no URL was opened for one
   origin more than three times.
   */
  lemma {:induction false} AtMostThreePerWindow(calls: seq<Open>, n: nat, i: nat, j: nat, open: Open)
    requires Ordered(calls) && n <= |calls| && i <= j < |After(calls, n).permitted|
    requires InWindow(After(calls, n).permitted, i, j)
    ensures CountLike(After(calls, n).permitted, i, j + 1, open) <= MAX_OPENS_PER_WINDOW
    decreases j
  {
    var permitted := After(calls, n).permitted;
    if IsLike(permitted[j], open) {
      AtMostThreeLikeTheLast(calls, n, i, j);
      CountSame(permitted, i, j + 1, open, permitted[j]);
    } else if i < j {
      EntriesAreTail(calls, n);
      OrderedPair(permitted, i, j - 1);
      OrderedPair(permitted, j - 1, j);
      AtMostThreePerWindow(calls, n, i, j - 1, open);
    }
  }

  // ---- The record itself ----

  class Recent {
    var entries: seq<Open>

    constructor ()
      ensures entries == []
    {
      entries := [];
    }

    method Retain(now: nat)
      modifies this
      ensures entries == RecentAmong(old(entries), 0, |old(entries)|, now)
    {
      var kept: seq<Open> := [];
      var i := 0;
      while i < |entries|
        invariant i <= |entries| && entries == old(entries) && kept == RecentAmong(entries, 0, i, now)
      {
        if IsRecent(entries[i], now) {
          kept := kept + [entries[i]];
        }
        i := i + 1;
      }
      entries := kept;
    }

    method Count(open: Open) returns (count: nat)
      ensures count == CountLike(entries, 0, |entries|, open)
    {
      count := 0;
      var i := 0;
      while i < |entries|
        invariant i <= |entries| && count == CountLike(entries, 0, i, open)
      {
        if IsLike(entries[i], open) {
          count := count + 1;
        }
        i := i + 1;
      }
    }

    method Record(url: string, now: nat, origin: Option<nat>) returns (decision: Decision)
      modifies this
      ensures (entries, decision) == Recorded(old(entries), Open(url, now, origin))
    {
      var open := Open(url, now, origin);
      Retain(now);
      var earlier := Count(open);
      var count := earlier + 1;
      if count > MAX_OPENS_PER_WINDOW {
        return Drop(count);
      }
      if |entries| == MAX_TRACKED_OPENS {
        entries := entries[1..];
      }
      entries := entries + [open];
      decision := Permit;
    }
  }
}
