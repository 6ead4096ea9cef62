/** The signature primitives: HMAC-SHA256 (RFC 2104 over FIPS 180-4), hex digests and
    `hmac.compare_digest`. HMAC itself is a parameter; only its output shape is fixed. */
module Crypto {
  import opened Wrappers
  import Text

  newtype byte = x: int | 0 <= x < 256

  /** A SHA-256 output: 32 bytes. */
  type Digest = d: seq<byte> | |d| == 32 witness seq(32, _ => 0 as byte)

  /** HMAC-SHA256 keyed by the UTF-8 encoding of the first string, over the UTF-8
      encoding of the second (`hmac.new(key.encode('utf-8'), msg.encode('utf-8'), sha256)`). */
  type Hmac = (string, string) -> Digest

  predicate IsHexDigit(c: char) { '0' <= c <= '9' || 'a' <= c <= 'f' }

  function HexDigit(n: int): (c: char)
    requires 0 <= n < 16
    ensures IsHexDigit(c)
  {
    if n < 10 then ('0' as int + n) as char else ('a' as int + n - 10) as char
  }

  /** `.hexdigest()`: two lower-case hex digits per byte, high nibble first. */
  function HexDigest(d: seq<byte>): (h: string)
    ensures |h| == 2 * |d|
    ensures forall i :: 0 <= i < |h| ==> IsHexDigit(h[i])
  {
    if d == [] then ""
    else [HexDigit(d[0] as int / 16), HexDigit(d[0] as int % 16)] + HexDigest(d[1..])
  }

  function DigitValue(c: char): (n: Option<int>)
  {
    if '0' <= c <= '9' then Some(c as int - '0' as int)
    else if 'a' <= c <= 'f' then Some(c as int - 'a' as int + 10)
    else None
  }

  /** Inverse of HexDigest: lower-case digits only, an even number of them. */
  function HexDecode(h: string): (d: Option<seq<byte>>)
    decreases |h|
  {
    if h == [] then Some([])
    else if |h| == 1 then None
    else match (DigitValue(h[0]), DigitValue(h[1]), HexDecode(h[2..]))
      case (Some(hi), Some(lo), Some(rest)) =>
        if 0 <= hi < 16 && 0 <= lo < 16 then Some([(hi * 16 + lo) as byte] + rest) else None
      case _ => None
  }

  lemma DigitValueOfHexDigit(n: int)
    requires 0 <= n < 16
    ensures DigitValue(HexDigit(n)) == Some(n)
  {
  }

  lemma HexDigitOfDigitValue(c: char)
    requires DigitValue(c).Some?
    ensures 0 <= DigitValue(c).value < 16 && HexDigit(DigitValue(c).value) == c
  {
  }

  /** Decoding a hex digest gives back the bytes. */
  lemma {:induction false} HexRoundTrip(d: seq<byte>)
    ensures HexDecode(HexDigest(d)) == Some(d)
  {
    if d != [] {
      var h := HexDigest(d);
      var hi, lo := d[0] as int / 16, d[0] as int % 16;
      DigitValueOfHexDigit(hi);
      DigitValueOfHexDigit(lo);
      assert h[2..] == HexDigest(d[1..]);
      HexRoundTrip(d[1..]);
      assert [(hi * 16 + lo) as byte] + d[1..] == d;
    }
  }

  /** Only a hex digest decodes: every decodable string is the digest of what it decodes to. */
  lemma {:induction false} HexCanonical(h: string, d: seq<byte>)
    requires HexDecode(h) == Some(d)
    ensures HexDigest(d) == h
    decreases |h|
  {
    if h != [] {
      var hi, lo := DigitValue(h[0]).value, DigitValue(h[1]).value;
      var rest := HexDecode(h[2..]).value;
      HexDigitOfDigitValue(h[0]);
      HexDigitOfDigitValue(h[1]);
      HexCanonical(h[2..], rest);
      var b := (hi * 16 + lo) as byte;
      assert d == [b] + rest;
      assert b as int / 16 == hi && b as int % 16 == lo;
      assert d[1..] == rest;
    }
  }

  /** Comparing hex digests is comparing digests. */
  lemma HexDigestInjective(a: seq<byte>, b: seq<byte>)
    ensures HexDigest(a) == HexDigest(b) <==> a == b
  {
    HexRoundTrip(a);
    HexRoundTrip(b);
  }

  /** `hmac.compare_digest(a, b)` on two `str`: a `TypeError` (None) unless both are
      ASCII, otherwise whether they are equal. Its constant running time is not modelled. */
  function CompareDigest(a: string, b: string): (r: Option<bool>)
    ensures r.Some? <==> Text.IsAscii(a) && Text.IsAscii(b)
    ensures r == Some(true) ==> a == b
    ensures r.Some? && a == b ==> r.value
  {
    if Text.IsAscii(a) && Text.IsAscii(b) then Some(a == b) else None
  }
}
