/**
 Lists that hold at most one entry per key, read as maps.

 Every table of the two daemons is a scanned list; the properties that matter
 are about the map it stands for.
 */
module Keyed {
  import opened Base

  ghost predicate Distinct<K, V>(s: seq<V>, key: V -> K) {
    forall i, j :: 0 <= i < j < |s| ==> key(s[i]) != key(s[j])
  }

  ghost function Index<K, V>(s: seq<V>, key: V -> K): map<K, V> {
    if s == [] then map[] else Index(s[..|s| - 1], key)[key(s[|s| - 1]) := s[|s| - 1]]
  }

  function HasKey<K(==), V>(key: V -> K, k: K): V -> bool { v => key(v) == k }

  lemma {:induction false} At<K, V>(s: seq<V>, key: V -> K, i: nat)
    requires Distinct(s, key) && i < |s|
    ensures key(s[i]) in Index(s, key) && Index(s, key)[key(s[i])] == s[i]
  {
    if i < |s| - 1 {
      At(s[..|s| - 1], key, i);
    }
  }

  lemma {:induction false} Position<K, V>(s: seq<V>, key: V -> K, k: K) returns (i: nat)
    requires k in Index(s, key)
    ensures i < |s| && key(s[i]) == k && Index(s, key)[k] == s[i]
  {
    i := |s| - 1;
    if key(s[i]) != k {
      i := Position(s[..|s| - 1], key, k);
    }
  }

  /** Scanning for a key finds exactly the map's entry. */
  lemma Found<K, V>(s: seq<V>, key: V -> K, k: K)
    requires Distinct(s, key)
    ensures var i := FindFirst(s, HasKey(key, k));
            if i.Some? then k in Index(s, key) && Index(s, key)[k] == s[i.value] else k !in Index(s, key)
  {
    var i := FindFirst(s, HasKey(key, k));
    if i.Some? {
      At(s, key, i.value);
    } else if k in Index(s, key) {
      var j := Position(s, key, k);
      assert false;
    }
  }

  lemma LastIsNew<K, V>(s: seq<V>, key: V -> K)
    requires Distinct(s, key) && s != []
    ensures key(s[|s| - 1]) !in Index(s[..|s| - 1], key)
  {
    if key(s[|s| - 1]) in Index(s[..|s| - 1], key) {
      var i := Position(s[..|s| - 1], key, key(s[|s| - 1]));
      assert false;
    }
  }

  lemma Appended<K, V>(s: seq<V>, key: V -> K, v: V)
    requires Distinct(s, key) && key(v) !in Index(s, key)
    ensures Distinct(s + [v], key) && Index(s + [v], key) == Index(s, key)[key(v) := v]
  {
    assert (s + [v])[..|s|] == s;
    forall i | 0 <= i < |s| ensures key(s[i]) != key(v) {
      At(s, key, i);
    }
  }

  /** Changing one entry in place, keeping its key, changes one map entry. */
  lemma {:induction false} Updated<K, V>(s: seq<V>, key: V -> K, i: nat, v: V)
    requires Distinct(s, key) && i < |s| && key(v) == key(s[i])
    ensures Distinct(s[i := v], key) && Index(s[i := v], key) == Index(s, key)[key(v) := v]
  {
    var t, n := s[i := v], |s| - 1;
    if i == n {
      assert t[..n] == s[..n];
    } else {
      Updated(s[..n], key, i, v);
      assert t[..n] == s[..n][i := v];
    }
  }

  ghost function Restrict<K, V>(m: map<K, V>, keep: V -> bool): map<K, V> {
    map k | k in m && keep(m[k]) :: m[k]
  }

  lemma RestrictAdded<K, V>(m: map<K, V>, k: K, v: V, keep: V -> bool)
    requires k !in m
    ensures Restrict(m[k := v], keep) == if keep(v) then Restrict(m, keep)[k := v] else Restrict(m, keep)
  {
  }

  /** Retaining entries restricts the map. */
  lemma {:induction false} Filtered<K, V(!new)>(s: seq<V>, key: V -> K, keep: V -> bool)
    requires Distinct(s, key)
    ensures Distinct(Filter(s, keep), key)
    ensures Index(Filter(s, keep), key) == Restrict(Index(s, key), keep)
  {
    if s != [] {
      var rest, last := s[..|s| - 1], s[|s| - 1];
      Filtered(rest, key, keep);
      LastIsNew(s, key);
      RestrictAdded(Index(rest, key), key(last), last, keep);
      assert Index(s, key) == Index(rest, key)[key(last) := last];
      if keep(last) {
        assert key(last) !in Restrict(Index(rest, key), keep);
        Appended(Filter(rest, keep), key, last);
        assert Filter(s, keep) == Filter(rest, keep) + [last];
      }
    }
  }

  function LacksKey<K(==), V>(key: V -> K, k: K): V -> bool { v => key(v) != k }

  /** Retaining everything but one key removes that key. */
  lemma RemovedKey<K, V(!new)>(s: seq<V>, key: V -> K, k: K)
    requires Distinct(s, key)
    ensures Distinct(Filter(s, LacksKey(key, k)), key)
    ensures Index(Filter(s, LacksKey(key, k)), key) == Index(s, key) - {k}
  {
    Filtered(s, key, LacksKey(key, k));
    forall j | j in Index(s, key) ensures LacksKey(key, k)(Index(s, key)[j]) <==> j != k {
      var i := Position(s, key, j);
    }
  }

  /** The map holds each entry of the list, and nothing else. */
  lemma IndexValues<K, V>(s: seq<V>, key: V -> K)
    requires Distinct(s, key)
    ensures forall i :: 0 <= i < |s| ==> key(s[i]) in Index(s, key)
    ensures forall k :: k in Index(s, key) ==> key(Index(s, key)[k]) == k && Index(s, key)[k] in s
  {
    forall i | 0 <= i < |s| ensures key(s[i]) in Index(s, key) {
      At(s, key, i);
    }
    forall k | k in Index(s, key) ensures key(Index(s, key)[k]) == k && Index(s, key)[k] in s {
      var i := Position(s, key, k);
    }
  }

  lemma {:induction false} IndexSize<K, V>(s: seq<V>, key: V -> K)
    requires Distinct(s, key)
    ensures |Index(s, key)| == |s|
  {
    if s != [] {
      IndexSize(s[..|s| - 1], key);
      LastIsNew(s, key);
    }
  }

  /** The map depends on which entries are listed, not on their order. */
  lemma OrderIsIrrelevant<K, V(!new)>(a: seq<V>, b: seq<V>, key: V -> K)
    requires Distinct(a, key) && Distinct(b, key)
    requires forall v :: v in a <==> v in b
    ensures Index(a, key) == Index(b, key)
  {
    forall k | k in Index(a, key) ensures k in Index(b, key) && Index(b, key)[k] == Index(a, key)[k] {
      var i := Position(a, key, k);
      assert a[i] in b;
      var j :| 0 <= j < |b| && b[j] == a[i];
      At(b, key, j);
    }
    forall k | k in Index(b, key) ensures k in Index(a, key) {
      var i := Position(b, key, k);
      assert b[i] in a;
      var j :| 0 <= j < |a| && a[j] == b[i];
      At(a, key, j);
    }
  }
}
