/** Transaction hashes as hex strings. */
module Hex {
  import opened Wrappers

  function HexDigit(c: char): Option<nat> {
    if '0' <= c <= '9' then Some((c - '0') as nat)
    else if 'a' <= c <= 'f' then Some(10 + (c - 'a') as nat)
    else if 'A' <= c <= 'F' then Some(10 + (c - 'A') as nat)
    else None
  }

  function DecodeDigits(s: string): Option<seq<nat>> {
    if s == "" then Some([])
    else if |s| == 1 then None
    else
      match (HexDigit(s[0]), HexDigit(s[1]), DecodeDigits(s[2..]))
      case (Some(a), Some(b), Some(rest)) => Some([16 * a + b] + rest)
      case _ => None
  }

  /** The bytes of a hex string, with or without the 0x prefix. */
  function DecodeHex(s: string): Option<seq<nat>> {
    DecodeDigits(if |s| >= 2 && s[..2] == "0x" then s[2..] else s)
  }

  predicate IsHex(c: char) {
    '0' <= c <= '9' || 'a' <= c <= 'f' || 'A' <= c <= 'F'
  }

  /** A string decodes if and only if it has an even number of digits and no other character. */
  lemma {:induction false} DecodesIff(s: string)
    ensures DecodeDigits(s).Some? <==> |s| % 2 == 0 && forall i :: 0 <= i < |s| ==> IsHex(s[i])
  {
    if |s| >= 2 {
      DecodesIff(s[2..]);
      if (|s| % 2 == 0 && forall i :: 0 <= i < |s| ==> IsHex(s[i])) {
        assert forall i :: 0 <= i < |s| - 2 ==> s[2..][i] == s[i + 2];
      } else if DecodeDigits(s).Some? {
        assert forall i :: 2 <= i < |s| ==> s[2..][i - 2] == s[i];
      }
    }
  }

  type Byte = b: nat | b < 256

  function Digit(n: nat): char
    requires n < 16
  {
    if n < 10 then '0' + n as char else 'a' + (n - 10) as char
  }

  function EncodeHex(bytes: seq<Byte>): string {
    if bytes == [] then "" else [Digit(bytes[0] / 16), Digit(bytes[0] % 16)] + EncodeHex(bytes[1..])
  }

  lemma DigitRoundTrip(n: nat)
    requires n < 16
    ensures HexDigit(Digit(n)) == Some(n) && Digit(n) != 'x'
  {
  }

  /** The bytes of a hash come back, with and without the prefix. */
  lemma {:induction false} HexRoundTrip(bytes: seq<Byte>)
    ensures DecodeDigits(EncodeHex(bytes)) == Some(bytes)
    ensures DecodeHex(EncodeHex(bytes)) == Some(bytes) && DecodeHex("0x" + EncodeHex(bytes)) == Some(bytes)
  {
    hide Digit, HexDigit;
    var s := EncodeHex(bytes);
    assert ("0x" + s)[2..] == s && ("0x" + s)[..2] == "0x";
    if bytes != [] {
      HexRoundTrip(bytes[1..]);
      DigitRoundTrip(bytes[0] / 16);
      DigitRoundTrip(bytes[0] % 16);
      assert s[2..] == EncodeHex(bytes[1..]);
      assert bytes == [16 * (bytes[0] / 16) + bytes[0] % 16] + bytes[1..];
      assert DecodeDigits(s) == Some([16 * (bytes[0] / 16) + bytes[0] % 16] + bytes[1..]);
      assert s[..2] != "0x" by { assert s[..2][1] == Digit(bytes[0] % 16); }
    }
  }

  /** Upper case reads the same. */
  lemma CaseIsIgnored(n: nat)
    requires 10 <= n < 16
    ensures HexDigit('A' + (n - 10) as char) == HexDigit('a' + (n - 10) as char) == Some(n)
  {
  }
}
