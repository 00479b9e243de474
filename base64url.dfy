/**
 * Unpadded base64url: the alphabet of section 5 of RFC 4648 ("URL and
 * Filename safe"), with the trailing `=` padding omitted as section 3.2
 * allows. This is the encoding Go calls `base64.RawURLEncoding`.
 *
 * Every 3-byte group becomes 4 characters; a final group of 2 bytes becomes
 * 3 characters and a final single byte 2 characters.
 */
module Base64Url {
  import opened Wrappers

  type byte = x: int | 0 <= x < 256

  /** A 6-bit value, the index of one character of the alphabet. */
  type sextet = x: int | 0 <= x < 64

  /** The characters of the base64url alphabet: `A-Z a-z 0-9 - _`. */
  predicate IsUrlSafeChar(c: char) {
    ('A' <= c <= 'Z') || ('a' <= c <= 'z') || ('0' <= c <= '9') || c == '-' || c == '_'
  }

  /** Table 2 of RFC 4648: the character that encodes the value `v`. */
  function Char(v: sextet): (c: char)
    ensures IsUrlSafeChar(c)
  {
    if v < 26 then ('A' as int + v) as char
    else if v < 52 then ('a' as int + (v - 26)) as char
    else if v < 62 then ('0' as int + (v - 52)) as char
    else if v == 62 then '-'
    else '_'
  }

  /** The value a character encodes, or None for a character outside the alphabet. */
  function Value(c: char): (r: Option<sextet>)
    ensures r.Some? <==> IsUrlSafeChar(c)
  {
    if 'A' <= c <= 'Z' then Some(c as int - 'A' as int)
    else if 'a' <= c <= 'z' then Some(c as int - 'a' as int + 26)
    else if '0' <= c <= '9' then Some(c as int - '0' as int + 52)
    else if c == '-' then Some(62)
    else if c == '_' then Some(63)
    else None
  }

  lemma ValueOfChar(v: sextet)
    ensures Value(Char(v)) == Some(v)
  {
  }

  /** Distinct values are written as distinct characters. */
  lemma CharInjective(v: sextet, w: sextet)
    requires Char(v) == Char(w)
    ensures v == w
  {
    ValueOfChar(v);
    ValueOfChar(w);
  }

  function EncodeGroup(b0: byte, b1: byte, b2: byte): string {
    [Char(b0 / 4), Char((b0 % 4) * 16 + b1 / 16), Char((b1 % 16) * 4 + b2 / 64), Char(b2 % 64)]
  }

  /** Unpadded base64url encoding, 3-byte group by 3-byte group from the start. */
  function Encode(data: seq<byte>): string
    decreases |data|
  {
    if |data| == 0 then ""
    else if |data| == 1 then [Char(data[0] / 4), Char((data[0] % 4) * 16)]
    else if |data| == 2 then [Char(data[0] / 4), Char((data[0] % 4) * 16 + data[1] / 16), Char((data[1] % 16) * 4)]
    else EncodeGroup(data[0], data[1], data[2]) + Encode(data[3..])
  }

  /** The bytes carried by the 2, 3 or 4 characters of one group. */
  function DecodeGroupChars(g: string): Option<seq<byte>>
    requires 2 <= |g| <= 4
  {
    if exists i :: 0 <= i < |g| && Value(g[i]).None? then None
    else
      var v0, v1 := Value(g[0]).value, Value(g[1]).value;
      if |g| == 2 then Some([v0 * 4 + v1 / 16])
      else
        var v2 := Value(g[2]).value;
        if |g| == 3 then Some([v0 * 4 + v1 / 16, (v1 % 16) * 16 + v2 / 4])
        else
          var v3 := Value(g[3]).value;
          Some([v0 * 4 + v1 / 16, (v1 % 16) * 16 + v2 / 4, (v2 % 4) * 64 + v3])
  }

  /**
   * Unpadded base64url decoding. A character outside the alphabet, or a final
   * group of a single character, is an error. Like Go's non-strict decoder,
   * it ignores the unused low bits of a final 2- or 3-character group.
   */
  function Decode(s: string): Option<seq<byte>>
    decreases |s|
  {
    if |s| == 0 then Some([])
    else if |s| == 1 then None
    else if |s| <= 3 then DecodeGroupChars(s)
    else
      match (DecodeGroupChars(s[..4]), Decode(s[4..]))
      case (Some(head), Some(tail)) => Some(head + tail)
      case _ => None
  }

  /** The encoding has ceiling(8n/6) characters for n bytes (no padding). */
  lemma {:induction false} EncodeLength(data: seq<byte>)
    ensures |Encode(data)| == (8 * |data| + 5) / 6
    decreases |data|
  {
    if |data| >= 3 {
      EncodeLength(data[3..]);
    }
  }

  /** Every character of an encoding is in the alphabet, so none is `=`, `/` or `+`. */
  lemma {:induction false} EncodeAlphabet(data: seq<byte>)
    ensures forall i :: 0 <= i < |Encode(data)| ==> IsUrlSafeChar(Encode(data)[i])
    decreases |data|
  {
    if |data| >= 3 {
      EncodeAlphabet(data[3..]);
      var g, rest := EncodeGroup(data[0], data[1], data[2]), Encode(data[3..]);
      assert Encode(data) == g + rest;
      forall i | 0 <= i < |g + rest|
        ensures IsUrlSafeChar((g + rest)[i])
      {
        if i >= |g| {
          assert (g + rest)[i] == rest[i - |g|];
        }
      }
    }
  }

  lemma DecodeGroup(b0: byte, b1: byte, b2: byte)
    ensures var g := EncodeGroup(b0, b1, b2);
      Value(g[0]).Some? && Value(g[1]).Some? && Value(g[2]).Some? && Value(g[3]).Some? &&
      var v0, v1, v2, v3 := Value(g[0]).value, Value(g[1]).value, Value(g[2]).value, Value(g[3]).value;
      v0 * 4 + v1 / 16 == b0 && (v1 % 16) * 16 + v2 / 4 == b1 && (v2 % 4) * 64 + v3 == b2
  {
    ValueOfChar(b0 / 4);
    ValueOfChar((b0 % 4) * 16 + b1 / 16);
    ValueOfChar((b1 % 16) * 4 + b2 / 64);
    ValueOfChar(b2 % 64);
  }

  /** Decoding a string that starts with an encoded group. */
  lemma DecodeAfterGroup(b0: byte, b1: byte, b2: byte, rest: string, tail: seq<byte>)
    requires Decode(rest) == Some(tail)
    ensures Decode(EncodeGroup(b0, b1, b2) + rest) == Some([b0, b1, b2] + tail)
  {
    var g := EncodeGroup(b0, b1, b2);
    var s := g + rest;
    DecodeGroup(b0, b1, b2);
    assert s[..4] == g;
    assert s[4..] == rest;
    assert DecodeGroupChars(g) == Some([b0, b1, b2]);
  }

  lemma DecodeOneByte(b0: byte)
    ensures Decode(Encode([b0])) == Some([b0])
  {
    ValueOfChar(b0 / 4);
    ValueOfChar((b0 % 4) * 16);
  }

  lemma DecodeTwoBytes(b0: byte, b1: byte)
    ensures Decode(Encode([b0, b1])) == Some([b0, b1])
  {
    var v0, v1, v2 := b0 / 4, (b0 % 4) * 16 + b1 / 16, (b1 % 16) * 4;
    ValueOfChar(v0);
    ValueOfChar(v1);
    ValueOfChar(v2);
    var s := Encode([b0, b1]);
    assert s == [Char(v0), Char(v1), Char(v2)];
    assert v0 * 4 + v1 / 16 == b0;
    assert (v1 % 16) * 16 + v2 / 4 == b1;
  }

  /** Decoding an encoding gives back the bytes: RFC 4648 base64url is lossless. */
  lemma {:induction false} DecodeShort(data: seq<byte>)
    requires |data| < 3
    ensures Decode(Encode(data)) == Some(data)
  {
    if |data| == 0 {
      assert Encode(data) == "";
    } else if |data| == 1 {
      var b0 := data[0];
      assert data == [b0];
      DecodeOneByte(b0);
    } else {
      var b0, b1 := data[0], data[1];
      assert data == [b0, b1];
      DecodeTwoBytes(b0, b1);
    }
  }

  /** Decoding an encoding gives back the bytes: RFC 4648 base64url is lossless. */
  lemma {:induction false} DecodeEncode(data: seq<byte>)
    ensures Decode(Encode(data)) == Some(data)
    decreases |data|
  {
    if |data| < 3 {
      DecodeShort(data);
    } else {
      var b0, b1, b2, rest := data[0], data[1], data[2], data[3..];
      assert data == [b0, b1, b2] + rest;
      assert Encode(data) == EncodeGroup(b0, b1, b2) + Encode(rest);
      DecodeEncode(rest);
      DecodeAfterGroup(b0, b1, b2, Encode(rest), rest);
    }
  }

  /** Distinct byte strings have distinct encodings. */
  lemma EncodeInjective(a: seq<byte>, b: seq<byte>)
    requires Encode(a) == Encode(b)
    ensures a == b
  {
    DecodeEncode(a);
    DecodeEncode(b);
  }
}
