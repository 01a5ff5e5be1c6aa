/** Base64 with the standard alphabet and `=` padding, as in section 4 of RFC 4648:
    what `base64.b64encode` produces, and the strict decoder that inverts it. */
module Base64 {
  import opened Common

  /** The character for a 6-bit value: `A`-`Z`, `a`-`z`, `0`-`9`, `+`, `/`. */
  function CharOf(v: nat): (c: char)
    requires v < 64
  {
    if v < 26 then ('A' as int + v) as char
    else if v < 52 then ('a' as int + (v - 26)) as char
    else if v < 62 then ('0' as int + (v - 52)) as char
    else if v == 62 then '+'
    else '/'
  }

  /** The 6-bit value of an alphabet character; `None` for `=` and every other character. */
  function ValueOf(c: char): (r: Option<nat>)
    ensures r.Some? ==> r.value < 64
  {
    if 'A' <= c <= 'Z' then Some(c as int - 'A' as int)
    else if 'a' <= c <= 'z' then Some(c as int - 'a' as int + 26)
    else if '0' <= c <= '9' then Some(c as int - '0' as int + 52)
    else if c == '+' then Some(62)
    else if c == '/' then Some(63)
    else None
  }

  lemma ValueOfCharOf(v: nat)
    requires v < 64
    ensures ValueOf(CharOf(v)) == Some(v)
  {
  }

  /** Three bytes as four characters. */
  function EncodeGroup(b0: byte, b1: byte, b2: byte): (s: string)
    ensures |s| == 4
  {
    [CharOf(b0 as int / 4), CharOf((b0 as int % 4) * 16 + b1 as int / 16),
     CharOf((b1 as int % 16) * 4 + b2 as int / 64), CharOf(b2 as int % 64)]
  }

  /** The last one or two bytes, padded to four characters. */
  function EncodeTail(b: seq<byte>): (s: string)
    requires 0 < |b| < 3
    ensures |s| == 4
  {
    if |b| == 1 then [CharOf(b[0] as int / 4), CharOf((b[0] as int % 4) * 16), '=', '=']
    else
      [CharOf(b[0] as int / 4), CharOf((b[0] as int % 4) * 16 + b[1] as int / 16),
       CharOf((b[1] as int % 16) * 4), '=']
  }

  /** `base64.b64encode`: every three bytes become four characters, and a last one or two
      bytes become four characters ending in padding; so the text is whole blocks, and is
      empty only for no bytes. */
  function Encode(b: seq<byte>): (s: string)
    ensures |s| % 4 == 0
    ensures |s| == 0 <==> |b| == 0
    decreases |b|
  {
    if |b| == 0 then []
    else if |b| < 3 then EncodeTail(b)
    else EncodeGroup(b[0], b[1], b[2]) + Encode(b[3..])
  }

  /** One block of four characters; `last` says whether padding may appear in it. */
  function DecodeQuad(q: string, last: bool): (r: Option<seq<byte>>)
    requires |q| == 4
  {
    var v0, v1, v2, v3 := ValueOf(q[0]), ValueOf(q[1]), ValueOf(q[2]), ValueOf(q[3]);
    if v0.None? || v1.None? then None
    else
      var a, b := v0.value, v1.value;
      if v2.Some? && v3.Some? then
        var c, d := v2.value, v3.value;
        Some([(a * 4 + b / 16) as byte, ((b % 16) * 16 + c / 4) as byte, ((c % 4) * 64 + d) as byte])
      else if last && v2.Some? && q[3] == '=' then
        var c := v2.value;
        if c % 4 != 0 then None else Some([(a * 4 + b / 16) as byte, ((b % 16) * 16 + c / 4) as byte])
      else if last && q[2] == '=' && q[3] == '=' then
        if b % 16 != 0 then None else Some([(a * 4 + b / 16) as byte])
      else None
  }

  /** Strict decoding: blocks of four alphabet characters, padding only at the very end. */
  function Decode(s: string): (r: Option<seq<byte>>)
    decreases |s|
  {
    if |s| == 0 then Some([])
    else if |s| < 4 then None
    else
      match DecodeQuad(s[..4], |s| == 4)
      case None => None
      case Some(head) =>
        match Decode(s[4..])
        case None => None
        case Some(tail) => Some(head + tail)
  }

  /** The four 6-bit values of a group put back together give the three bytes. */
  lemma RegroupBits(x: int, y: int, z: int)
    requires 0 <= x < 256 && 0 <= y < 256 && 0 <= z < 256
    ensures var v0, v1, v2, v3 := x / 4, (x % 4) * 16 + y / 16, (y % 16) * 4 + z / 64, z % 64;
      && v0 * 4 + v1 / 16 == x
      && (v1 % 16) * 16 + v2 / 4 == y
      && (v2 % 4) * 64 + v3 == z
  {
    var v1, v2 := (x % 4) * 16 + y / 16, (y % 16) * 4 + z / 64;
    assert v1 / 16 == x % 4 && v1 % 16 == y / 16;
    assert v2 / 4 == y % 16 && v2 % 4 == z / 64;
  }

  lemma DecodeGroup(b0: byte, b1: byte, b2: byte, last: bool)
    ensures DecodeQuad(EncodeGroup(b0, b1, b2), last) == Some([b0, b1, b2])
  {
    var x, y, z := b0 as int, b1 as int, b2 as int;
    ValueOfCharOf(x / 4);
    ValueOfCharOf((x % 4) * 16 + y / 16);
    ValueOfCharOf((y % 16) * 4 + z / 64);
    ValueOfCharOf(z % 64);
    RegroupBits(x, y, z);
  }

  lemma DecodeLastQuad(q: string)
    requires |q| == 4
    ensures Decode(q) == DecodeQuad(q, true)
  {
    assert q[..4] == q && q[4..] == [];
    var d := DecodeQuad(q, true);
    if d.Some? {
      assert d.value + [] == d.value;
    }
  }

  lemma DecodeOneByte(x: byte)
    ensures Decode(Encode([x])) == Some([x])
  {
    var v := x as int;
    ValueOfCharOf(v / 4);
    ValueOfCharOf((v % 4) * 16);
    RegroupBits(v, 0, 0);
    DecodeLastQuad(Encode([x]));
  }

  lemma DecodeTwoBytes(x: byte, y: byte)
    ensures Decode(Encode([x, y])) == Some([x, y])
  {
    var v, w := x as int, y as int;
    ValueOfCharOf(v / 4);
    ValueOfCharOf((v % 4) * 16 + w / 16);
    ValueOfCharOf((w % 16) * 4);
    RegroupBits(v, w, 0);
    DecodeLastQuad(Encode([x, y]));
  }

  /** A full first block decodes on its own, followed by the rest. */
  lemma DecodeBlockThenRest(g: string, rest: string, head: seq<byte>, tail: seq<byte>)
    requires |g| == 4 && DecodeQuad(g, |rest| == 0) == Some(head) && Decode(rest) == Some(tail)
    ensures Decode(g + rest) == Some(head + tail)
  {
    assert (g + rest)[..4] == g && (g + rest)[4..] == rest;
  }

  lemma EncodeFirstGroup(b: seq<byte>)
    requires |b| >= 3
    ensures Encode(b) == EncodeGroup(b[0], b[1], b[2]) + Encode(b[3..])
  {
  }

  lemma SplitFirstThree(b: seq<byte>)
    requires |b| >= 3
    ensures [b[0], b[1], b[2]] + b[3..] == b
  {
    assert b[..3] == [b[0], b[1], b[2]];
    assert b[..3] + b[3..] == b;
  }

  /** A first group of three bytes decodes back in front of the decoded rest. */
  lemma DecodeEncodeGroup(b: seq<byte>)
    requires |b| >= 3 && Decode(Encode(b[3..])) == Some(b[3..])
    ensures Decode(Encode(b)) == Some(b)
  {
    var g, rest := EncodeGroup(b[0], b[1], b[2]), Encode(b[3..]);
    EncodeFirstGroup(b);
    SplitFirstThree(b);
    DecodeGroup(b[0], b[1], b[2], |rest| == 0);
    DecodeBlockThenRest(g, rest, [b[0], b[1], b[2]], b[3..]);
  }

  /** Decoding an encoding gives back the bytes. */
  lemma {:induction false} DecodeEncode(b: seq<byte>)
    ensures Decode(Encode(b)) == Some(b)
    decreases |b|
  {
    if |b| == 1 {
      assert b == [b[0]];
      DecodeOneByte(b[0]);
    } else if |b| == 2 {
      assert b == [b[0], b[1]];
      DecodeTwoBytes(b[0], b[1]);
    } else if |b| >= 3 {
      DecodeEncode(b[3..]);
      DecodeEncodeGroup(b);
    }
  }

  /** Every three bytes, or part of three, become four characters. */
  lemma {:induction false} EncodeLength(b: seq<byte>)
    ensures |Encode(b)| == 4 * ((|b| + 2) / 3)
    decreases |b|
  {
    if |b| >= 3 {
      EncodeFirstGroup(b);
      EncodeLength(b[3..]);
      assert (|b| + 2) / 3 == (|b[3..]| + 2) / 3 + 1;
    } else {
      assert (|b| + 2) / 3 == if |b| == 0 then 0 else 1;
    }
  }
}
