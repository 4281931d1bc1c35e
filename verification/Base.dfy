/**
 Vocabulary shared by every component: optional values, results, and the three
 iterator idioms the tables are written with (`retain`, `find`, `filter().count()`).

 Time is a natural number of nanoseconds read from one monotone clock.
 */
module Base {

  datatype Option<+T> = None | Some(value: T)

  datatype Result<+T, +E> = Ok(value: T) | Err(error: E)

  const SECOND: nat := 1_000_000_000

  function Min(a: int, b: int): int { if a < b then a else b }

  function Max(a: int, b: int): int { if a < b then b else a }

  /** Elapsed time, zero when the clock reads earlier than the start. */
  function Elapsed(start: nat, now: nat): nat { if start <= now then now - start else 0 }

  /** `retain`: the elements satisfying `keep`, in order. */
  function Filter<T(!new)>(s: seq<T>, keep: T -> bool): (r: seq<T>)
    ensures |r| <= |s|
    ensures forall x :: x in r <==> x in s && keep(x)
  {
    if s == [] then []
    else
      var rest := Filter(s[..|s| - 1], keep);
      var last := s[|s| - 1];
      assert s == s[..|s| - 1] + [last];
      if keep(last) then rest + [last] else rest
  }

  /** `find`: the position of the first element satisfying `wanted`. */
  function FindFirst<T>(s: seq<T>, wanted: T -> bool): (r: Option<nat>)
    ensures r.Some? ==> r.value < |s| && wanted(s[r.value])
    ensures r.Some? ==> forall i :: 0 <= i < r.value ==> !wanted(s[i])
    ensures r.None? ==> forall i :: 0 <= i < |s| ==> !wanted(s[i])
  {
    if s == [] then None
    else if wanted(s[0]) then Some(0)
    else
      var rest := FindFirst(s[1..], wanted);
      assert forall i :: 1 <= i < |s| ==> s[i] == s[1..][i - 1];
      if rest.Some? then Some(rest.value + 1) else None
  }

  /** Retaining from an extended list retains from the old list, then decides the new element. */
  lemma FilterAppend<T(!new)>(s: seq<T>, x: T, keep: T -> bool)
    ensures Filter(s + [x], keep) == Filter(s, keep) + (if keep(x) then [x] else [])
  {
    assert (s + [x])[..|s|] == s;
  }

  /** A list with nothing to drop is retained unchanged. */
  lemma {:induction false} FilterAll<T(!new)>(s: seq<T>, keep: T -> bool)
    requires forall x :: x in s ==> keep(x)
    ensures Filter(s, keep) == s
  {
    if s != [] {
      var rest := s[..|s| - 1];
      assert s == rest + [s[|s| - 1]];
      FilterAll(rest, keep);
    }
  }

  /** Retaining twice is retaining what passes both tests. */
  lemma {:induction false} FilterTwice<T(!new)>(s: seq<T>, first: T -> bool, second: T -> bool, both: T -> bool)
    requires forall x :: x in s ==> (both(x) <==> first(x) && second(x))
    ensures Filter(Filter(s, first), second) == Filter(s, both)
  {
    if s != [] {
      var rest, last := s[..|s| - 1], s[|s| - 1];
      assert s == rest + [last];
      FilterTwice(rest, first, second, both);
      if first(last) {
        FilterAppend(Filter(rest, first), last, second);
      }
    }
  }

  /** The least element of a set of ids, if there is one. */
  ghost function Least(s: set<nat>): (r: Option<nat>)
    ensures r.None? <==> s == {}
    ensures r.Some? ==> r.value in s && forall y :: y in s ==> r.value <= y
  {
    if s == {} then None
    else
      var x :| x in s;
      assert s == {x} + (s - {x});
      match Least(s - {x})
      case None => Some(x)
      case Some(y) => Some(if x < y then x else y)
  }

  lemma LeastIs(s: set<nat>, x: nat)
    requires x in s && forall y :: y in s ==> x <= y
    ensures Least(s) == Some(x)
  {
    assert Least(s).value in s;
  }

  lemma {:induction false} SubsetCardinality<T>(a: set<T>, b: set<T>)
    requires a <= b
    ensures |a| <= |b|
  {
    if a != {} {
      var x :| x in a;
      SubsetCardinality(a - {x}, b - {x});
    }
  }
}
