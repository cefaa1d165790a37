/** The formatting half of `computeHash`: the SHA-256 digest of the message
    is written as lower-case hex, two digits per byte, cut to 16 characters
    and upper-cased. The digest itself is an input (`Sha256`). */
module Fingerprint {
  import opened JsStrings

  type Byte = b: int | 0 <= b < 256

  /** A SHA-256 digest: 32 bytes. */
  type Digest = s: seq<Byte> | |s| == 32 witness seq(32, _ => 0)

  /** The platform digest, a function of the UTF-8 text. */
  type Sha256 = string -> Digest

  const LowerHexDigits: string := "0123456789abcdef"
  const UpperHexDigits: string := "0123456789ABCDEF"

  /** `b.toString(16)`: one digit below 16, two otherwise. */
  function ByteToRadix16(b: Byte): string {
    if b < 16 then [LowerHexDigits[b]] else [LowerHexDigits[b / 16], LowerHexDigits[b % 16]]
  }

  /** `b.toString(16).padStart(2, '0')`: always the two digits of `b`. */
  function ByteToHex(b: Byte): (r: string)
    ensures r == [LowerHexDigits[b / 16], LowerHexDigits[b % 16]]
  {
    PadStart(ByteToRadix16(b), 2, '0')
  }

  /** `bytes.map(ByteToHex).join('')`. */
  function HexJoin(bytes: seq<Byte>): (r: string)
    ensures |r| == 2 * |bytes|
  {
    if |bytes| == 0 then "" else ByteToHex(bytes[0]) + HexJoin(bytes[1..])
  }

  /** The fingerprint of a digest: `hashHex.substring(0, 16).toUpperCase()`. */
  function HexFingerprint(digest: Digest): string {
    ToUpperAscii(HexJoin(digest)[..16])
  }

  /** `computeHash(message)`. */
  function ComputeHash(sha256: Sha256, message: string): string {
    HexFingerprint(sha256(message))
  }

  predicate IsUpperHexDigit(c: char) {
    '0' <= c <= '9' || 'A' <= c <= 'F'
  }

  /** The value of an upper-case hex digit. */
  function UpperHexValue(c: char): nat
    requires IsUpperHexDigit(c)
  {
    if c <= '9' then (c as int) - ('0' as int) else (c as int) - ('A' as int) + 10
  }

  /** Reads a string of upper-case hex digit pairs back into bytes. */
  function DecodeHex(s: string): seq<int>
    requires |s| % 2 == 0 && forall i :: 0 <= i < |s| ==> IsUpperHexDigit(s[i])
  {
    if |s| == 0 then [] else [UpperHexValue(s[0]) * 16 + UpperHexValue(s[1])] + DecodeHex(s[2..])
  }

  /** Hex of a concatenation is the concatenation of the hex. */
  lemma {:induction false} HexJoinPrefix(bytes: seq<Byte>, n: nat)
    requires n <= |bytes|
    ensures HexJoin(bytes)[..2 * n] == HexJoin(bytes[..n])
  {
    if n > 0 {
      HexJoinPrefix(bytes[1..], n - 1);
      var head, rest := ByteToHex(bytes[0]), HexJoin(bytes[1..]);
      assert HexJoin(bytes) == head + rest && |head| == 2;
      assert (head + rest)[..2 * n] == head + rest[..2 * (n - 1)];
      assert bytes[..n][1..] == bytes[1..][..n - 1];
      assert HexJoin(bytes[..n]) == head + HexJoin(bytes[1..][..n - 1]);
    }
  }

  /** Upper-casing the lower-case hex digits of a byte gives its upper-case digits. */
  lemma UpperByteHex(b: Byte)
    ensures ToUpperAscii(ByteToHex(b)) == [UpperHexDigits[b / 16], UpperHexDigits[b % 16]]
  {
    UpperHexDigit(b / 16);
    UpperHexDigit(b % 16);
    var u := ToUpperAscii(ByteToHex(b));
    assert u[0] == UpperAscii(LowerHexDigits[b / 16]) && u[1] == UpperAscii(LowerHexDigits[b % 16]);
  }

  /** Upper-casing a lower-case hex digit gives the upper-case digit of the same value. */
  lemma UpperHexDigit(v: nat)
    requires v < 16
    ensures UpperAscii(LowerHexDigits[v]) == UpperHexDigits[v]
  {
  }

  /** The upper-case hex of some bytes, two digits per byte. */
  function UpperHexJoin(bytes: seq<Byte>): (r: string)
    ensures |r| == 2 * |bytes| && forall i :: 0 <= i < |r| ==> IsUpperHexDigit(r[i])
  {
    if |bytes| == 0 then ""
    else [UpperHexDigits[bytes[0] / 16], UpperHexDigits[bytes[0] % 16]] + UpperHexJoin(bytes[1..])
  }

  /** Upper-casing the lower-case hex is the upper-case hex. */
  lemma {:induction false} UpperOfHexJoin(bytes: seq<Byte>)
    ensures ToUpperAscii(HexJoin(bytes)) == UpperHexJoin(bytes)
  {
    if |bytes| > 0 {
      UpperOfHexJoin(bytes[1..]);
      UpperByteHex(bytes[0]);
      var a, b := ByteToHex(bytes[0]), HexJoin(bytes[1..]);
      assert HexJoin(bytes) == a + b;
      UpperOfConcat(a, b);
    }
  }

  /** Upper-casing works character by character, so it distributes over `+`. */
  lemma UpperOfConcat(a: string, b: string)
    ensures ToUpperAscii(a + b) == ToUpperAscii(a) + ToUpperAscii(b)
  {
    var u, ua, ub := ToUpperAscii(a + b), ToUpperAscii(a), ToUpperAscii(b);
    assert forall i :: 0 <= i < |u| ==> u[i] == (ua + ub)[i] by {
      forall i | 0 <= i < |u| ensures u[i] == (ua + ub)[i] {
        if i < |a| { assert (a + b)[i] == a[i]; } else { assert (a + b)[i] == b[i - |a|]; }
      }
    }
  }

  /** Each upper-case hex digit reads back as its value. */
  lemma UpperHexDigitValue(v: nat)
    requires v < 16
    ensures UpperHexValue(UpperHexDigits[v]) == v
  {
  }

  /** Decoding the upper-case hex of some bytes gives the bytes back. */
  lemma {:induction false} DecodeUpperHexJoin(bytes: seq<Byte>)
    ensures DecodeHex(UpperHexJoin(bytes)) == bytes
  {
    if |bytes| > 0 {
      var h := UpperHexJoin(bytes);
      DecodeUpperHexJoin(bytes[1..]);
      UpperHexDigitValue(bytes[0] / 16);
      UpperHexDigitValue(bytes[0] % 16);
      assert h[2..] == UpperHexJoin(bytes[1..]);
      assert bytes == [bytes[0]] + bytes[1..];
    }
  }

  /** The fingerprint is 16 upper-case hex digits, and they spell the
      first eight bytes of the digest, two digits per byte. */
  lemma FingerprintSpellsFirstEightBytes(digest: Digest)
    ensures |HexFingerprint(digest)| == 16
    ensures forall i :: 0 <= i < 16 ==> IsUpperHexDigit(HexFingerprint(digest)[i])
    ensures HexFingerprint(digest) == UpperHexJoin(digest[..8])
    ensures DecodeHex(HexFingerprint(digest)) == digest[..8]
  {
    HexJoinPrefix(digest, 8);
    UpperOfHexJoin(digest[..8]);
    DecodeUpperHexJoin(digest[..8]);
  }
}
