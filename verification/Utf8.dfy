/** The text test accepts exactly the encodings of sequences of Unicode scalar values. */
module Utf8 {
  import opened Text

  /** A Unicode scalar value: any code point but a surrogate. */
  predicate IsScalar(c: nat) { c < 0xD800 || 0xE000 <= c <= 0x10FFFF }

  function Byte(n: nat): char
    requires n < 256
  {
    n as char
  }

  /** One scalar value, as section 3 of RFC 3629 encodes it. */
  function Code(c: nat): (s: string)
    requires IsScalar(c)
    ensures 1 <= |s| <= 4
  {
    if c < 0x80 then [Byte(c)]
    else if c < 0x800 then [Byte(0xC0 + c / 64), Byte(0x80 + c % 64)]
    else if c < 0x10000 then [Byte(0xE0 + c / 4096), Byte(0x80 + c / 64 % 64), Byte(0x80 + c % 64)]
    else [Byte(0xF0 + c / 262144), Byte(0x80 + c / 4096 % 64), Byte(0x80 + c / 64 % 64), Byte(0x80 + c % 64)]
  }

  ghost predicate AllScalar(cs: seq<nat>) { forall i :: 0 <= i < |cs| ==> IsScalar(cs[i]) }

  function Coded(cs: seq<nat>): string
    requires AllScalar(cs)
  {
    if cs == [] then "" else Code(cs[0]) + Coded(cs[1..])
  }

  // ---- Every encoding is accepted ----

  lemma CodeIsWhole(c: nat)
    requires IsScalar(c)
    ensures CodeLength(Code(c)) == |Code(c)|
  {
  }

  lemma {:induction false} CodedIsUtf8(cs: seq<nat>)
    requires AllScalar(cs)
    ensures IsUtf8(Coded(cs))
  {
    if cs != [] {
      CodedIsUtf8(cs[1..]);
      CodeIsWhole(cs[0]);
      var code := Code(cs[0]);
      assert code[|code|..] == "";
      assert IsUtf8(code);
      Utf8Append(code, Coded(cs[1..]));
    }
  }

  // ---- Nothing else is ----

  lemma TwoBytes(s: string) returns (c: nat)
    requires s != "" && CodeLength(s) == 2
    ensures |s| >= 2 && 0x80 <= c < 0x800 && Code(c) == s[..2]
  {
    c := (s[0] as int - 0xC0) * 64 + (s[1] as int - 0x80);
    assert Within(s[1], 0x80, 0xBF);
  }

  lemma ThreeBytes(s: string) returns (c: nat)
    requires s != "" && CodeLength(s) == 3
    ensures |s| >= 3 && 0x800 <= c < 0x10000 && IsScalar(c) && Code(c) == s[..3]
  {
    assert Within(s[1], 0x80, 0xBF) && Within(s[2], 0x80, 0xBF);
    c := (s[0] as int - 0xE0) * 4096 + (s[1] as int - 0x80) * 64 + (s[2] as int - 0x80);
    assert c / 4096 == s[0] as int - 0xE0 && c / 64 == (s[0] as int - 0xE0) * 64 + (s[1] as int - 0x80);
  }

  lemma FourBytes(s: string) returns (c: nat)
    requires s != "" && CodeLength(s) == 4
    ensures |s| >= 4 && 0x10000 <= c <= 0x10FFFF && Code(c) == s[..4]
  {
    assert Within(s[1], 0x80, 0xBF) && Within(s[2], 0x80, 0xBF) && Within(s[3], 0x80, 0xBF);
    c := (s[0] as int - 0xF0) * 262144 + (s[1] as int - 0x80) * 4096 + (s[2] as int - 0x80) * 64 + (s[3] as int - 0x80);
    assert c / 262144 == s[0] as int - 0xF0 && c / 4096 == (s[0] as int - 0xF0) * 64 + (s[1] as int - 0x80);
    assert c / 64 == ((s[0] as int - 0xF0) * 64 + (s[1] as int - 0x80)) * 64 + (s[2] as int - 0x80);
  }

  lemma FirstCode(s: string) returns (c: nat)
    requires s != "" && 0 < CodeLength(s) <= |s|
    ensures IsScalar(c) && Code(c) == s[..CodeLength(s)]
  {
    if CodeLength(s) == 1 {
      c := s[0] as int;
      assert s[..1] == [s[0]];
    } else if CodeLength(s) == 2 {
      c := TwoBytes(s);
    } else if CodeLength(s) == 3 {
      c := ThreeBytes(s);
    } else {
      c := FourBytes(s);
    }
  }

  lemma {:induction false} Decoding(s: string) returns (cs: seq<nat>)
    requires IsUtf8(s)
    ensures AllScalar(cs) && Coded(cs) == s
    decreases |s|
  {
    if s == "" {
      cs := [];
    } else {
      var n := CodeLength(s);
      var c := FirstCode(s);
      var rest := Decoding(s[n..]);
      cs := [c] + rest;
      assert cs[1..] == rest && s == s[..n] + s[n..];
    }
  }

  /** A text is accepted exactly when it is the encoding of some sequence of scalar values. */
  lemma Utf8Iff(s: string)
    ensures IsUtf8(s) <==> exists cs: seq<nat> :: AllScalar(cs) && Coded(cs) == s
  {
    if IsUtf8(s) {
      var cs := Decoding(s);
    }
    if cs: seq<nat> :| AllScalar(cs) && Coded(cs) == s { CodedIsUtf8(cs); }
  }
}
