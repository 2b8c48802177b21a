/** Bytes, SHA-256 digests and their lowercase hexadecimal text, as produced by
    `format!("{:x}", hash)` on the 32-byte digest (indexer/src/indexer.rs:48-51). */
module HexFormat {
  import opened Wrappers

  type byte = x: int | 0 <= x < 256
  type Bytes = seq<byte>

  const DIGEST_LEN: nat := 32

  /** A SHA-256 digest: exactly 32 bytes. */
  type Digest = d: Bytes | |d| == DIGEST_LEN witness seq(DIGEST_LEN, _ => 0)

  predicate IsLowerHexDigit(c: char)
  {
    '0' <= c <= '9' || 'a' <= c <= 'f'
  }

  /** The lowercase digit for a nibble. */
  function DigitChar(n: int): (c: char)
    requires 0 <= n < 16
    ensures IsLowerHexDigit(c)
  {
    if n < 10 then ('0' as int + n) as char else ('a' as int + n - 10) as char
  }

  /** The nibble a lowercase digit stands for. */
  function DigitValue(c: char): (n: int)
    requires IsLowerHexDigit(c)
    ensures 0 <= n < 16
  {
    if c <= '9' then c as int - '0' as int else c as int - 'a' as int + 10
  }

  /** A digit value survives being written as a character and read back. */
  lemma DigitCharRoundTrip(n: int)
    requires 0 <= n < 16
    ensures DigitValue(DigitChar(n)) == n
  {
  }

  /** A lowercase hex digit survives being read as a value and written back. */
  lemma DigitValueRoundTrip(c: char)
    requires IsLowerHexDigit(c)
    ensures DigitChar(DigitValue(c)) == c
  {
  }

  /** Each byte becomes two lowercase digits, high nibble first, with no
      separator and no prefix. */
  function LowerHex(bytes: Bytes): (s: string)
    ensures |s| == 2 * |bytes|
    ensures forall i :: 0 <= i < |s| ==> IsLowerHexDigit(s[i])
  {
    if bytes == [] then ""
    else [DigitChar(bytes[0] / 16), DigitChar(bytes[0] % 16)] + LowerHex(bytes[1..])
  }

  /** Reference inverse of LowerHex: reads pairs of lowercase digits back into bytes. */
  function ParseHex(s: string): (r: Option<Bytes>)
    ensures r.Some? ==> |s| == 2 * |r.value|
  {
    if |s| == 0 then Some([])
    else if |s| == 1 || !IsLowerHexDigit(s[0]) || !IsLowerHexDigit(s[1]) then None
    else match ParseHex(s[2..])
      case None => None
      case Some(rest) => Some([DigitValue(s[0]) * 16 + DigitValue(s[1])] + rest)
  }

  /** The hash text of a digest is always 64 lowercase hexadecimal characters. */
  lemma DigestTextShape(d: Digest)
    ensures |LowerHex(d)| == 64
    ensures forall i :: 0 <= i < 64 ==> IsLowerHexDigit(LowerHex(d)[i])
  {
  }

  /** Formatting can be undone: the text determines the bytes. */
  lemma {:induction false} HexRoundTrip(bytes: Bytes)
    ensures ParseHex(LowerHex(bytes)) == Some(bytes)
  {
    if bytes != [] {
      var b := bytes[0];
      var s := LowerHex(bytes);
      DigitCharRoundTrip(b / 16);
      DigitCharRoundTrip(b % 16);
      assert s[2..] == LowerHex(bytes[1..]);
      HexRoundTrip(bytes[1..]);
      assert [b] + bytes[1..] == bytes;
    }
  }

  /** Parsing accepts only text that LowerHex produces. */
  lemma {:induction false} ParseHexSound(s: string, bytes: Bytes)
    requires ParseHex(s) == Some(bytes)
    ensures LowerHex(bytes) == s
  {
    if |s| > 0 {
      var rest := ParseHex(s[2..]).value;
      ParseHexSound(s[2..], rest);
      var b := bytes[0];
      assert b == DigitValue(s[0]) * 16 + DigitValue(s[1]);
      assert b / 16 == DigitValue(s[0]) && b % 16 == DigitValue(s[1]);
      DigitValueRoundTrip(s[0]);
      DigitValueRoundTrip(s[1]);
      assert bytes[1..] == rest;
      assert s == [s[0], s[1]] + s[2..];
    }
  }

  /** Distinct digests give distinct hash texts. */
  lemma LowerHexInjective(a: Bytes, b: Bytes)
    requires LowerHex(a) == LowerHex(b)
    ensures a == b
  {
    HexRoundTrip(a);
    HexRoundTrip(b);
  }
}
