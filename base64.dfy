/** The base64 encoding of section 4 of RFC 4648: the standard alphabet of
    Table 1, every 3 input bytes becoming 4 characters, and a final group of
    1 or 2 bytes padded with '=' to 4 characters. */
module Base64 {
  import opened Prelude

  type byte = x: int | 0 <= x < 256
  type sextet = x: int | 0 <= x < 64

  /** Character `v` of Table 1: 'A'-'Z', 'a'-'z', '0'-'9', '+', '/'. */
  function CharOf(v: sextet): char
  {
    if v < 26 then ('A' as int + v) as char
    else if v < 52 then ('a' as int + (v - 26)) as char
    else if v < 62 then ('0' as int + (v - 52)) as char
    else if v == 62 then '+'
    else '/'
  }

  /** The value Table 1 gives `c`, if `c` is one of its 64 characters. */
  function ValueOf(c: char): (r: Option<sextet>)
    ensures r.Some? ==> CharOf(r.value) == c
  {
    if 'A' <= c <= 'Z' then Some(c as int - 'A' as int)
    else if 'a' <= c <= 'z' then Some(c as int - 'a' as int + 26)
    else if '0' <= c <= '9' then Some(c as int - '0' as int + 52)
    else if c == '+' then Some(62)
    else if c == '/' then Some(63)
    else None
  }

  predicate InAlphabet(c: char)
  {
    ValueOf(c).Some?
  }

  lemma ValueOfCharOf(v: sextet)
    ensures ValueOf(CharOf(v)) == Some(v)
  {
  }

  /** The number of '=' that end the encoding of `n` bytes. */
  function Padding(n: nat): nat
  {
    (3 - n % 3) % 3
  }

  /** Three bytes, 24 bits, as four 6-bit characters, high bits first. */
  function EncodeGroup(a: byte, b: byte, c: byte): string
  {
    [CharOf(a / 4), CharOf(a % 4 * 16 + b / 16), CharOf(b % 16 * 4 + c / 64), CharOf(c % 64)]
  }

  /** A character of the encoding is either padding or of the alphabet. */
  lemma CharOfNotPad(v: sextet)
    ensures CharOf(v) != '=' && InAlphabet(CharOf(v))
  {
    ValueOfCharOf(v);
  }

  function Encode(s: seq<byte>): (r: string)
    ensures |r| == 4 * ((|s| + 2) / 3)
  {
    if |s| == 0 then []
    else if |s| == 1 then [CharOf(s[0] / 4), CharOf(s[0] % 4 * 16), '=', '=']
    else if |s| == 2 then [CharOf(s[0] / 4), CharOf(s[0] % 4 * 16 + s[1] / 16), CharOf(s[1] % 16 * 4), '=']
    else EncodeGroup(s[0], s[1], s[2]) + Encode(s[3..])
  }

  /** The encoding of `n` bytes ends in exactly Padding(n) '=' characters,
      and every other character is of the alphabet. */
  lemma {:induction false} EncodeShape(s: seq<byte>)
    ensures forall i :: 0 <= i < |Encode(s)| ==> (Encode(s)[i] == '=' <==> |Encode(s)| - Padding(|s|) <= i)
    ensures forall i :: 0 <= i < |Encode(s)| ==> Encode(s)[i] == '=' || InAlphabet(Encode(s)[i])
    decreases |s|
  {
    if 1 <= |s| <= 2 {
      ShortShape(s);
    } else if |s| >= 3 {
      var g := EncodeGroup(s[0], s[1], s[2]);
      var rest := Encode(s[3..]);
      EncodeShape(s[3..]);
      GroupShape(s[0], s[1], s[2]);
      assert Padding(|s|) == Padding(|s| - 3);
      assert |rest| == 4 * ((|s| - 3 + 2) / 3);
      var r := g + rest;
      assert |r| - Padding(|s|) == 4 + |rest| - Padding(|s| - 3);
      assert r == Encode(s);
      assert forall i :: 0 <= i < 4 ==> r[i] == g[i];
      assert forall i :: 4 <= i < |r| ==> r[i] == rest[i - 4];
    }
  }

  lemma GroupShape(a: byte, b: byte, c: byte)
    ensures forall i :: 0 <= i < 4 ==> EncodeGroup(a, b, c)[i] != '=' && InAlphabet(EncodeGroup(a, b, c)[i])
  {
    CharOfNotPad(a / 4);
    CharOfNotPad(a % 4 * 16 + b / 16);
    CharOfNotPad(b % 16 * 4 + c / 64);
    CharOfNotPad(c % 64);
  }

  lemma ShortShape(s: seq<byte>)
    requires 1 <= |s| <= 2
    ensures forall i :: 0 <= i < |Encode(s)| ==> (Encode(s)[i] == '=' <==> |Encode(s)| - Padding(|s|) <= i)
    ensures forall i :: 0 <= i < |Encode(s)| ==> Encode(s)[i] == '=' || InAlphabet(Encode(s)[i])
  {
    if |s| == 1 {
      CharOfNotPad(s[0] / 4);
      CharOfNotPad(s[0] % 4 * 16);
    } else {
      CharOfNotPad(s[0] / 4);
      CharOfNotPad(s[0] % 4 * 16 + s[1] / 16);
      CharOfNotPad(s[1] % 16 * 4);
    }
  }

  /** The bytes that four 6-bit values stand for, 8 bits at a time. */
  function Hi(v0: sextet, v1: sextet): byte { v0 as int * 4 + v1 / 16 }
  function Mid(v1: sextet, v2: sextet): byte { v1 as int % 16 * 16 + v2 / 4 }
  function Lo(v2: sextet, v3: sextet): byte { v2 as int % 4 * 64 + v3 }

  /** Four characters back to three bytes; the low bits of a character that
      stands before padding must be zero, as in the canonical encoding of
      section 3.5 of RFC 4648. */
  function DecodeGroup(q: string): (r: Option<seq<byte>>)
    requires |q| == 4
  {
    match (ValueOf(q[0]), ValueOf(q[1]), ValueOf(q[2]), ValueOf(q[3]))
    case (Some(v0), Some(v1), None, None) =>
      if q[2] == '=' && q[3] == '=' && v1 % 16 == 0 then Some([Hi(v0, v1)]) else None
    case (Some(v0), Some(v1), Some(v2), None) =>
      if q[3] == '=' && v2 % 4 == 0 then Some([Hi(v0, v1), Mid(v1, v2)]) else None
    case (Some(v0), Some(v1), Some(v2), Some(v3)) =>
      Some([Hi(v0, v1), Mid(v1, v2), Lo(v2, v3)])
    case _ => None
  }

  /** The decoder: groups of four characters, padding allowed only in the
      last group. */
  function Decode(t: string): Option<seq<byte>>
    decreases |t|
  {
    if |t| == 0 then Some([])
    else if |t| < 4 then None
    else if |t| == 4 then DecodeGroup(t)
    else
      match DecodeGroup(t[..4])
      case Some(bs) =>
        if |bs| == 3 then
          match Decode(t[4..])
          case Some(rest) => Some(bs + rest)
          case None => None
        else None
      case None => None
  }

  /** Cutting three bytes into 6-bit pieces and gluing them back loses
      nothing. */
  lemma SplitJoinBits(a: byte, b: byte, c: byte)
    ensures Hi(a / 4, a % 4 * 16 + b / 16) == a
    ensures Mid(a % 4 * 16 + b / 16, b % 16 * 4 + c / 64) == b
    ensures Lo(b % 16 * 4 + c / 64, c % 64) == c
  {
  }

  /** Gluing 6-bit pieces into bytes and cutting them again loses nothing. */
  lemma JoinSplitBits(v0: sextet, v1: sextet, v2: sextet, v3: sextet)
    ensures Hi(v0, v1) / 4 == v0 && Hi(v0, v1) % 4 == v1 / 16
    ensures Mid(v1, v2) / 16 == v1 % 16 && Mid(v1, v2) % 16 == v2 / 4
    ensures Lo(v2, v3) / 64 == v2 % 4 && Lo(v2, v3) % 64 == v3
  {
  }

  lemma GroupRoundTrip(a: byte, b: byte, c: byte)
    ensures DecodeGroup(EncodeGroup(a, b, c)) == Some([a, b, c])
  {
    SplitJoinBits(a, b, c);
    ValueOfCharOf(a / 4);
    ValueOfCharOf(a % 4 * 16 + b / 16);
    ValueOfCharOf(b % 16 * 4 + c / 64);
    ValueOfCharOf(c % 64);
  }

  lemma OneByteRoundTrip(a: byte)
    ensures Decode(Encode([a])) == Some([a])
  {
    var v0, v1 := a / 4, a % 4 * 16;
    SplitJoinBits(a, 0, 0);
    ValueOfCharOf(v0);
    ValueOfCharOf(v1);
    var t := Encode([a]);
    assert t == [CharOf(v0), CharOf(v1), '=', '='];
    assert v1 % 16 == 0 && Hi(v0, v1) == a;
    assert DecodeGroup(t) == Some([Hi(v0, v1)]);
  }

  lemma TwoBytesRoundTrip(a: byte, b: byte)
    ensures Decode(Encode([a, b])) == Some([a, b])
  {
    var v0, v1, v2 := a / 4, a % 4 * 16 + b / 16, b % 16 * 4;
    SplitJoinBits(a, b, 0);
    ValueOfCharOf(v0);
    ValueOfCharOf(v1);
    ValueOfCharOf(v2);
    var t := Encode([a, b]);
    assert t == [CharOf(v0), CharOf(v1), CharOf(v2), '='];
    assert DecodeGroup(t) == Some([Hi(v0, v1), Mid(v1, v2)]);
  }

  /** Decoding undoes encoding. */
  lemma {:induction false} DecodeEncode(s: seq<byte>)
    ensures Decode(Encode(s)) == Some(s)
    decreases |s|
  {
    if |s| == 1 {
      assert s == [s[0]];
      OneByteRoundTrip(s[0]);
    } else if |s| == 2 {
      assert s == [s[0], s[1]];
      TwoBytesRoundTrip(s[0], s[1]);
    } else if |s| >= 3 {
      var t := Encode(s);
      GroupRoundTrip(s[0], s[1], s[2]);
      assert t[..4] == EncodeGroup(s[0], s[1], s[2]);
      assert s == [s[0], s[1], s[2]] + s[3..];
      if |s| > 3 {
        assert t[4..] == Encode(s[3..]);
        DecodeEncode(s[3..]);
      } else {
        assert s == [s[0], s[1], s[2]];
        assert t == EncodeGroup(s[0], s[1], s[2]) + Encode([]);
        assert Decode(t) == DecodeGroup(t);
      }
    }
  }

  lemma GroupInverse(q: string)
    requires |q| == 4 && DecodeGroup(q).Some?
    ensures var bs := DecodeGroup(q).value;
      && 1 <= |bs| <= 3
      && q == Encode(bs)
  {
    var v0, v1 := ValueOf(q[0]).value, ValueOf(q[1]).value;
    assert q == [q[0], q[1], q[2], q[3]];
    if ValueOf(q[2]).None? {
      var x := Hi(v0, v1);
      JoinSplitBits(v0, v1, 0, 0);
      assert q[2] == '=' && q[3] == '=' && v1 % 16 == 0;
      assert x % 4 * 16 == v1;
      assert Encode([x]) == [CharOf(v0), CharOf(v1), '=', '='];
    } else if ValueOf(q[3]).None? {
      var v2 := ValueOf(q[2]).value;
      var x, y := Hi(v0, v1), Mid(v1, v2);
      JoinSplitBits(v0, v1, v2, 0);
      assert q[3] == '=' && v2 % 4 == 0;
      assert x % 4 * 16 + y / 16 == v1;
      assert y % 16 * 4 == v2;
      assert Encode([x, y]) == [CharOf(v0), CharOf(v1), CharOf(v2), '='];
    } else {
      var v2, v3 := ValueOf(q[2]).value, ValueOf(q[3]).value;
      JoinSplitBits(v0, v1, v2, v3);
      var bs := [Hi(v0, v1), Mid(v1, v2), Lo(v2, v3)];
      assert bs[0] % 4 * 16 + bs[1] / 16 == v1;
      assert bs[1] % 16 * 4 + bs[2] / 64 == v2;
      assert EncodeGroup(bs[0], bs[1], bs[2]) == [CharOf(v0), CharOf(v1), CharOf(v2), CharOf(v3)];
      assert Encode(bs) == EncodeGroup(bs[0], bs[1], bs[2]) + Encode([]);
    }
  }

  /** Encoding undoes decoding: a string the decoder accepts is the one
      encoding of what it decodes to, so the encoding is a bijection onto
      the canonical base64 strings. */
  lemma {:induction false} EncodeDecode(t: string)
    requires Decode(t).Some?
    ensures Encode(Decode(t).value) == t
    decreases |t|
  {
    if |t| == 4 {
      GroupInverse(t);
    } else if |t| > 4 {
      var bs := DecodeGroup(t[..4]).value;
      var rest := Decode(t[4..]).value;
      GroupInverse(t[..4]);
      EncodeDecode(t[4..]);
      assert (bs + rest)[3..] == rest;
      assert t == t[..4] + t[4..];
    }
  }
}
