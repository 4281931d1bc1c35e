/** Lowercase hex out, either case in: base16 of section 8 of RFC 4648. */
module Hex {
  import opened Base

  type Byte = x: int | 0 <= x < 256

  /** `0` to `9`, then `a` to `f`. */
  function Digit(n: nat): char
    requires n < 16
  {
    if n < 10 then (48 + n) as char else (87 + n) as char
  }

  predicate IsHexDigit(c: char) { '0' <= c <= '9' || 'a' <= c <= 'f' || 'A' <= c <= 'F' }

  function Lower(c: char): char { if 'A' <= c <= 'Z' then (c as int + 32) as char else c }

  function DigitValue(c: char): (n: nat)
    requires IsHexDigit(c)
    ensures n < 16
  {
    if c <= '9' then c as int - 48
    else if c <= 'F' then c as int - 55
    else c as int - 87
  }

  lemma DigitsInvert(n: nat, c: char)
    ensures n < 16 ==> IsHexDigit(Digit(n)) && DigitValue(Digit(n)) == n
    ensures IsHexDigit(c) ==> Digit(DigitValue(c)) == Lower(c)
  {
  }

  function Encoded(bytes: seq<Byte>): (text: string)
    ensures |text| == 2 * |bytes|
  {
    if bytes == [] then "" else [Digit(bytes[0] / 16), Digit(bytes[0] % 16)] + Encoded(bytes[1..])
  }

  predicate AllHex(raw: string) { forall i :: 0 <= i < |raw| ==> IsHexDigit(raw[i]) }

  function DecodedPairs(raw: string): seq<Byte>
    requires |raw| % 2 == 0 && AllHex(raw)
  {
    if raw == "" then [] else [16 * DigitValue(raw[0]) + DigitValue(raw[1])] + DecodedPairs(raw[2..])
  }

  function Decoded(raw: string, expectedLen: nat): Option<seq<Byte>> {
    if |raw| == 2 * expectedLen && AllHex(raw) then Some(DecodedPairs(raw)) else None
  }

  function LowerText(raw: string): string {
    if raw == "" then "" else [Lower(raw[0])] + LowerText(raw[1..])
  }

  lemma NextByte(bytes: seq<Byte>, k: nat)
    requires k < |bytes|
    ensures Encoded(bytes[k..]) == [Digit(bytes[k] / 16), Digit(bytes[k] % 16)] + Encoded(bytes[k + 1..])
  {
    assert bytes[k..][1..] == bytes[k + 1..];
  }

  method Encode(bytes: seq<Byte>) returns (rendered: string)
    ensures rendered == Encoded(bytes)
  {
    rendered := "";
    for k := 0 to |bytes|
      invariant rendered + Encoded(bytes[k..]) == Encoded(bytes)
    {
      NextByte(bytes, k);
      rendered := rendered + [Digit(bytes[k] / 16)];
      rendered := rendered + [Digit(bytes[k] % 16)];
    }
  }

  method DecodeExact(raw: string, expectedLen: nat) returns (parsed: Option<seq<Byte>>)
    ensures parsed == Decoded(raw, expectedLen)
  {
    if |raw| != 2 * expectedLen || !AllHex(raw) {
      return None;
    }
    var buffer := new Byte[expectedLen];
    for k := 0 to expectedLen
      invariant buffer[..k] + DecodedPairs(raw[2 * k..]) == DecodedPairs(raw)
    {
      NextPair(raw, k);
      buffer[k] := 16 * DigitValue(raw[2 * k]) + DigitValue(raw[2 * k + 1]);
      assert buffer[..k + 1] == buffer[..k] + [buffer[k]];
    }
    assert raw[2 * expectedLen..] == "";
    assert buffer[..] == buffer[..expectedLen] == DecodedPairs(raw);
    parsed := Some(buffer[..]);
  }

  lemma NextPair(raw: string, k: nat)
    requires |raw| % 2 == 0 && AllHex(raw) && 2 * k < |raw|
    ensures DecodedPairs(raw[2 * k..]) ==
            [16 * DigitValue(raw[2 * k]) + DigitValue(raw[2 * k + 1])] + DecodedPairs(raw[2 * (k + 1)..])
  {
    assert raw[2 * k..][2..] == raw[2 * (k + 1)..];
  }

  /** Decoding undoes encoding. */
  lemma {:induction false} DecodeInvertsEncode(bytes: seq<Byte>)
    ensures Decoded(Encoded(bytes), |bytes|) == Some(bytes)
  {
    if bytes != [] {
      var text := Encoded(bytes);
      DecodeInvertsEncode(bytes[1..]);
      DigitsInvert(bytes[0] / 16, ' ');
      DigitsInvert(bytes[0] % 16, ' ');
      assert text[2..] == Encoded(bytes[1..]);
      assert AllHex(text) by {
        assert forall i :: 2 <= i < |text| ==> text[i] == text[2..][i - 2];
      }
      assert DecodedPairs(text) == [bytes[0]] + bytes[1..] == bytes;
    }
  }

  lemma Nibbles(hi: nat, lo: nat)
    requires hi < 16 && lo < 16
    ensures (16 * hi + lo) / 16 == hi && (16 * hi + lo) % 16 == lo
  {
  }

  /** Encoding undoes decoding up to letter case, so two texts decode alike only if they differ in case. */
  lemma {:induction false} EncodeInvertsDecode(raw: string)
    requires |raw| % 2 == 0 && AllHex(raw)
    ensures Encoded(DecodedPairs(raw)) == LowerText(raw)
  {
    if raw != "" {
      EncodeInvertsDecode(raw[2..]);
      DigitsInvert(0, raw[0]);
      DigitsInvert(0, raw[1]);
      Nibbles(DigitValue(raw[0]), DigitValue(raw[1]));
      assert raw[1..][1..] == raw[2..];
      assert DecodedPairs(raw)[1..] == DecodedPairs(raw[2..]);
    }
  }
}
