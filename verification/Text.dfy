/** Splitting, searching, UTF-8 and decimal numerals, as the wire formats use them. Text is one character per byte. */
module Text {
  import opened Base

  // ---- Splitting ----

  predicate Clean(s: string, sep: char) { sep !in s }

  /** `split`: the pieces between separators, at least one. */
  function Split(s: string, sep: char): (pieces: seq<string>)
    ensures |pieces| >= 1
  {
    if s == "" then [""]
    else
      var rest := Split(s[1..], sep);
      if s[0] == sep then [""] + rest else [[s[0]] + rest[0]] + rest[1..]
  }

  lemma {:induction false} SplitClean(s: string, sep: char)
    requires Clean(s, sep)
    ensures Split(s, sep) == [s]
  {
    if s != "" {
      assert s[0] in s && s == [s[0]] + s[1..];
      SplitClean(s[1..], sep);
    }
  }

  /** A clean piece before a separator is split off whole. */
  lemma {:induction false} SplitAfter(s: string, sep: char, rest: string)
    requires Clean(s, sep)
    ensures Split(s + [sep] + rest, sep) == [s] + Split(rest, sep)
  {
    if s == "" {
      assert s + [sep] + rest == [sep] + rest;
    } else {
      assert s[0] in s && s == [s[0]] + s[1..];
      SplitAfter(s[1..], sep, rest);
      assert (s + [sep] + rest)[1..] == s[1..] + [sep] + rest;
    }
  }

  /** A clean prefix joins the first piece. */
  lemma {:induction false} SplitPrefix(s: string, sep: char, rest: string)
    requires Clean(s, sep)
    ensures Split(s + rest, sep) == [s + Split(rest, sep)[0]] + Split(rest, sep)[1..]
  {
    if s == "" {
      assert s + rest == rest && s + Split(rest, sep)[0] == Split(rest, sep)[0];
    } else {
      assert s[0] in s && s == [s[0]] + s[1..];
      SplitPrefix(s[1..], sep, rest);
      assert [s[0]] + (s[1..] + Split(rest, sep)[0]) == s + Split(rest, sep)[0];
      assert (s + rest)[1..] == s[1..] + rest;
    }
  }

  /** Text with a separator loses something to the second piece, whatever follows. */
  lemma {:induction false} SplitDirty(s: string, sep: char, rest: string)
    requires !Clean(s, sep)
    ensures |Split(s + rest, sep)[0]| < |s| && Split(s + rest, sep)[0] == Split(s, sep)[0]
  {
    assert (s + rest)[0] == s[0] && (s + rest)[1..] == s[1..] + rest;
    if s[0] != sep { SplitDirty(s[1..], sep, rest); }
  }

  /** `split_once`: what is before and after the first separator. */
  function SplitOnce(s: string, sep: char): Option<(string, string)> {
    if s == "" then None
    else if s[0] == sep then Some(("", s[1..]))
    else
      var rest := SplitOnce(s[1..], sep);
      if rest.Some? then Some(([s[0]] + rest.value.0, rest.value.1)) else None
  }

  lemma {:induction false} SplitOnceFinds(a: string, sep: char, b: string)
    requires Clean(a, sep)
    ensures SplitOnce(a + [sep] + b, sep) == Some((a, b))
  {
    if a == "" {
      assert a + [sep] + b == [sep] + b;
    } else {
      assert a[0] in a && a == [a[0]] + a[1..];
      SplitOnceFinds(a[1..], sep, b);
      assert (a + [sep] + b)[1..] == a[1..] + [sep] + b;
    }
  }

  /** Splitting once gives exactly the part before the first separator and the part after it. */
  lemma {:induction false} SplitOnceIff(s: string, sep: char, a: string, b: string)
    ensures SplitOnce(s, sep) == Some((a, b)) <==> Clean(a, sep) && s == a + [sep] + b
  {
    if Clean(a, sep) && s == a + [sep] + b { SplitOnceFinds(a, sep, b); }
    if SplitOnce(s, sep) == Some((a, b)) && s[0] != sep {
      SplitOnceIff(s[1..], sep, a[1..], b);
      assert s == [s[0]] + s[1..] && a == [s[0]] + a[1..];
    }
  }

  /** `split_once` at a longer pattern. */
  function SplitOnceAt(s: string, pattern: string): Option<(string, string)>
    decreases |s|
  {
    if pattern <= s then Some(("", s[|pattern|..]))
    else if s == "" then None
    else
      var rest := SplitOnceAt(s[1..], pattern);
      if rest.Some? then Some(([s[0]] + rest.value.0, rest.value.1)) else None
  }

  lemma {:induction false} SplitOnceAtFinds(a: string, pattern: string, b: string)
    requires pattern != "" && Clean(a, pattern[0])
    ensures SplitOnceAt(a + pattern + b, pattern) == Some((a, b))
  {
    var s := a + pattern + b;
    if a == "" {
      assert s == pattern + b;
      assert pattern <= s && s[|pattern|..] == b;
    } else {
      assert a[0] in a && a == [a[0]] + a[1..];
      SplitOnceAtFinds(a[1..], pattern, b);
      assert s[1..] == a[1..] + pattern + b;
      assert s[0] == a[0] && !(pattern <= s);
    }
  }

  lemma {:induction false} SplitOnceAtJoins(s: string, pattern: string)
    requires SplitOnceAt(s, pattern).Some?
    ensures var (a, b) := SplitOnceAt(s, pattern).value; s == a + pattern + b
    decreases |s|
  {
    if !(pattern <= s) { SplitOnceAtJoins(s[1..], pattern); }
  }

  /** `strip_suffix`. */
  function StripSuffix(s: string, suffix: string): Option<string> {
    if |suffix| <= |s| && s[|s| - |suffix|..] == suffix then Some(s[..|s| - |suffix|]) else None
  }

  // ---- Decimal numerals ----

  predicate IsDigit(c: char) { '0' <= c <= '9' }

  predicate AllDigits(s: string) { forall i :: 0 <= i < |s| ==> IsDigit(s[i]) }

  function DigitOf(n: nat): char
    requires n < 10
  {
    (n + 48) as char
  }

  function Decimal(n: nat): (s: string)
    ensures s != "" && AllDigits(s)
  {
    (if n < 10 then "" else Decimal(n / 10)) + [DigitOf(n % 10)]
  }

  function Value(s: string): nat
    requires AllDigits(s)
  {
    if s == "" then 0 else 10 * Value(s[..|s| - 1]) + (s[|s| - 1] as int - 48)
  }

  lemma {:induction false} ValueOfDecimal(n: nat)
    ensures Value(Decimal(n)) == n
  {
    var s := Decimal(n);
    assert s[..|s| - 1] == (if n < 10 then "" else Decimal(n / 10));
    if n >= 10 { ValueOfDecimal(n / 10); }
  }

  const U32_LIMIT: nat := 0x1_0000_0000
  const U64_LIMIT: nat := 0x1_0000_0000_0000_0000

  /** `parse` for an unsigned type: an optional plus sign, then digits, below the type's limit. */
  function ParseUnsigned(s: string, limit: nat): Option<nat> {
    var digits := if s != "" && s[0] == '+' then s[1..] else s;
    if digits != "" && AllDigits(digits) && Value(digits) < limit then Some(Value(digits)) else None
  }

  /** `parse::<i32>`. */
  function ParseI32(s: string): Option<int> {
    if s != "" && s[0] == '-' then
      var digits := s[1..];
      if digits != "" && AllDigits(digits) && Value(digits) <= 0x8000_0000 then Some(0 - Value(digits) as int) else None
    else
      var n := ParseUnsigned(s, 0x8000_0000);
      if n.Some? then Some(n.value) else None
  }

  lemma ParseOfDecimal(n: nat, limit: nat)
    ensures ParseUnsigned(Decimal(n), limit) == if n < limit then Some(n) else None
  {
    ValueOfDecimal(n);
    assert IsDigit(Decimal(n)[0]);
  }

  function PowerOfTen(k: nat): nat { if k == 0 then 1 else 10 * PowerOfTen(k - 1) }

  /** A numeral has at most `k` digits exactly when the number is below ten to the `k`. */
  lemma {:induction false} DecimalLength(n: nat, k: nat)
    requires k > 0
    ensures |Decimal(n)| <= k <==> n < PowerOfTen(k)
    decreases k
  {
    if k == 1 {
      assert PowerOfTen(1) == 10;
    } else if n >= 10 {
      DecimalLength(n / 10, k - 1);
    } else {
      PowersGrow(k - 1);
    }
  }

  lemma {:induction false} PowersGrow(k: nat)
    ensures PowerOfTen(k) >= 1
  {
    if k > 0 { PowersGrow(k - 1); }
  }

  // ---- UTF-8 ----

  predicate Within(c: char, lo: int, hi: int) { lo <= c as int <= hi }

  predicate Continues(s: string, from: nat, to: nat) {
    to <= |s| && forall i :: from <= i < to ==> Within(s[i], 0x80, 0xBF)
  }

  /**
   The length of the well-formed sequence a text starts with, by the table of section 4
   of RFC 3629; zero if there is none.
   */
  function CodeLength(s: string): nat
    requires s != ""
  {
    var b := s[0] as int;
    if b < 0x80 then 1
    else if 0xC2 <= b <= 0xDF && Continues(s, 1, 2) then 2
    else if b == 0xE0 && |s| >= 3 && Within(s[1], 0xA0, 0xBF) && Continues(s, 2, 3) then 3
    else if (0xE1 <= b <= 0xEC || 0xEE <= b <= 0xEF) && Continues(s, 1, 3) then 3
    else if b == 0xED && |s| >= 3 && Within(s[1], 0x80, 0x9F) && Continues(s, 2, 3) then 3
    else if b == 0xF0 && |s| >= 4 && Within(s[1], 0x90, 0xBF) && Continues(s, 2, 4) then 4
    else if 0xF1 <= b <= 0xF3 && Continues(s, 1, 4) then 4
    else if b == 0xF4 && |s| >= 4 && Within(s[1], 0x80, 0x8F) && Continues(s, 2, 4) then 4
    else 0
  }

  predicate IsUtf8(s: string)
    decreases |s|
  {
    s == "" || (0 < CodeLength(s) <= |s| && IsUtf8(s[CodeLength(s)..]))
  }

  lemma CodeLengthAppend(a: string, b: string)
    requires a != "" && 0 < CodeLength(a) <= |a|
    ensures CodeLength(a + b) == CodeLength(a)
  {
    assert forall i :: 0 <= i < |a| ==> (a + b)[i] == a[i];
  }

  lemma {:induction false} Utf8Append(a: string, b: string)
    requires IsUtf8(a) && IsUtf8(b)
    ensures IsUtf8(a + b)
    decreases |a|
  {
    if a == "" {
      assert a + b == b;
    } else {
      CodeLengthAppend(a, b);
      Utf8Append(a[CodeLength(a)..], b);
      assert (a + b)[CodeLength(a)..] == a[CodeLength(a)..] + b;
    }
  }

  lemma {:induction false} AsciiIsUtf8(s: string)
    requires forall i :: 0 <= i < |s| ==> (s[i] as int) < 0x80
    ensures IsUtf8(s)
  {
    if s != "" { AsciiIsUtf8(s[1..]); }
  }
}
