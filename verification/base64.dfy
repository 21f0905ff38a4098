/** Base64 with the standard alphabet and `=` padding, as the `base64`
    crate's `encode` writes it (section 4 of RFC 4648): every three bytes
    become four characters of six bits each; a final group of one or two
    bytes is padded to four characters with `=`. */
module Base64 {
  import opened Wrappers
  import opened Utf8

  type Sextet = x: int | 0 <= x < 64

  /** Table 1 of RFC 4648: `A`-`Z`, `a`-`z`, `0`-`9`, `+`, `/`. */
  function Char(v: Sextet): char {
    if v < 26 then ('A' as int + v) as char
    else if v < 52 then ('a' as int + (v - 26)) as char
    else if v < 62 then ('0' as int + (v - 52)) as char
    else if v == 62 then '+'
    else '/'
  }

  /** The value of an alphabet character; `None` for anything else,
      including the pad character. */
  function Value(c: char): (r: Option<Sextet>)
    ensures r.Some? ==> Char(r.value) == c
  {
    if 'A' <= c <= 'Z' then Some(c as int - 'A' as int)
    else if 'a' <= c <= 'z' then Some(c as int - 'a' as int + 26)
    else if '0' <= c <= '9' then Some(c as int - '0' as int + 52)
    else if c == '+' then Some(62)
    else if c == '/' then Some(63)
    else None
  }

  lemma ValueOfChar(v: Sextet)
    ensures Value(Char(v)) == Some(v)
  {
  }

  const Pad: char := '='

  /** A character that can appear in an encoding. */
  predicate IsEncodingChar(c: char) {
    Value(c).Some? || c == Pad
  }

  /** Three bytes, 24 bits, as four sextets. */
  function EncodeGroup(a: Byte, b: Byte, c: Byte): seq<char> {
    [Char(a / 4), Char((a % 4) * 16 + b / 16), Char((b % 16) * 4 + c / 64), Char(c % 64)]
  }

  /** A final single byte: two sextets, the second with four zero bits,
      and two pads. */
  function EncodeOne(a: Byte): seq<char> {
    [Char(a / 4), Char((a % 4) * 16), Pad, Pad]
  }

  /** A final pair of bytes: three sextets, the third with two zero bits,
      and one pad. */
  function EncodeTwo(a: Byte, b: Byte): seq<char> {
    [Char(a / 4), Char((a % 4) * 16 + b / 16), Char((b % 16) * 4), Pad]
  }

  /** `base64::encode`: four characters for every started group of three
      bytes, all from the alphabet or the pad. */
  function Encode(bs: seq<Byte>): (s: string)
    ensures |s| == 4 * ((|bs| + 2) / 3)
    ensures forall i :: 0 <= i < |s| ==> IsEncodingChar(s[i])
    decreases |bs|
  {
    if |bs| == 0 then []
    else if |bs| == 1 then
      ValueOfChar(bs[0] / 4);
      ValueOfChar((bs[0] % 4) * 16);
      EncodeOne(bs[0])
    else if |bs| == 2 then
      ValueOfChar(bs[0] / 4);
      ValueOfChar((bs[0] % 4) * 16 + bs[1] / 16);
      ValueOfChar((bs[1] % 16) * 4);
      EncodeTwo(bs[0], bs[1])
    else
      ValueOfChar(bs[0] / 4);
      ValueOfChar((bs[0] % 4) * 16 + bs[1] / 16);
      ValueOfChar((bs[1] % 16) * 4 + bs[2] / 64);
      ValueOfChar(bs[2] % 64);
      EncodeGroup(bs[0], bs[1], bs[2]) + Encode(bs[3..])
  }

  /** Four alphabet characters, no pad, as three bytes. */
  function DecodeGroup(q: seq<char>): Option<seq<Byte>>
    requires |q| == 4
  {
    match (Value(q[0]), Value(q[1]), Value(q[2]), Value(q[3]))
    case (Some(v0), Some(v1), Some(v2), Some(v3)) =>
      Some([v0 as int * 4 + v1 / 16, (v1 as int % 16) * 16 + v2 / 4, (v2 as int % 4) * 64 + v3])
    case _ => None
  }

  /** The last four characters, which may end in one or two pads. Bits a
      pad leaves over must be zero, so every byte string has exactly one
      encoding. */
  function DecodeFinal(q: seq<char>): Option<seq<Byte>>
    requires |q| == 4
  {
    if q[2] == Pad && q[3] == Pad then
      match (Value(q[0]), Value(q[1]))
      case (Some(v0), Some(v1)) =>
        if v1 % 16 == 0 then Some([v0 as int * 4 + v1 / 16]) else None
      case _ => None
    else if q[3] == Pad then
      match (Value(q[0]), Value(q[1]), Value(q[2]))
      case (Some(v0), Some(v1), Some(v2)) =>
        if v2 % 4 == 0 then Some([v0 as int * 4 + v1 / 16, (v1 as int % 16) * 16 + v2 / 4]) else None
      case _ => None
    else DecodeGroup(q)
  }

  /** The bytes a canonical padded encoding stands for, if `s` is one. */
  function Decode(s: string): Option<seq<Byte>>
    decreases |s|
  {
    if |s| == 0 then Some([])
    else if |s| < 4 then None
    else if |s| == 4 then DecodeFinal(s)
    else
      match DecodeGroup(s[..4])
      case None => None
      case Some(group) =>
        match Decode(s[4..])
        case None => None
        case Some(rest) => Some(group + rest)
  }

  lemma SplitByte(b: Byte)
    ensures b == (b / 4) * 4 + b % 4
    ensures b == (b / 16) * 16 + b % 16
    ensures b == (b / 64) * 64 + b % 64
  {
  }

  lemma DecodeEncodeGroup(a: Byte, b: Byte, c: Byte)
    ensures DecodeGroup(EncodeGroup(a, b, c)) == Some([a, b, c])
  {
    var s0: Sextet := a / 4;
    var s1: Sextet := (a % 4) * 16 + b / 16;
    var s2: Sextet := (b % 16) * 4 + c / 64;
    var s3: Sextet := c % 64;
    ValueOfChar(s0);
    ValueOfChar(s1);
    ValueOfChar(s2);
    ValueOfChar(s3);
    SplitByte(a);
    SplitByte(b);
    SplitByte(c);
    assert s1 / 16 == a % 4 && s1 % 16 == b / 16;
    assert s2 / 4 == b % 16 && s2 % 4 == c / 64;
  }

  lemma DecodeEncodeOne(a: Byte)
    ensures DecodeFinal(EncodeOne(a)) == Some([a])
  {
    ValueOfChar(a / 4);
    ValueOfChar((a % 4) * 16);
    SplitByte(a);
  }

  lemma DecodeEncodeTwo(a: Byte, b: Byte)
    ensures DecodeFinal(EncodeTwo(a, b)) == Some([a, b])
  {
    var s1: Sextet := (a % 4) * 16 + b / 16;
    var s2: Sextet := (b % 16) * 4;
    ValueOfChar(a / 4);
    ValueOfChar(s1);
    ValueOfChar(s2);
    SplitByte(a);
    SplitByte(b);
    assert s1 / 16 == a % 4 && s1 % 16 == b / 16;
    assert s2 / 4 == b % 16 && s2 % 4 == 0;
  }

  /** An encoding longer than four characters decodes group by group. */
  lemma DecodeLonger(group: seq<char>, rest: string)
    requires |group| == 4 && |rest| > 0
    ensures Decode(group + rest) ==
              match DecodeGroup(group)
              case None => None
              case Some(g) => (match Decode(rest) case None => None case Some(r) => Some(g + r))
  {
    var s := group + rest;
    assert s[..4] == group && s[4..] == rest;
  }

  /** Inputs of one group or less. */
  lemma DecodeEncodeShort(bs: seq<Byte>)
    requires 0 < |bs| <= 3
    ensures Decode(Encode(bs)) == Some(bs)
  {
    if |bs| == 1 {
      assert Encode(bs) == EncodeOne(bs[0]);
      DecodeEncodeOne(bs[0]);
      assert [bs[0]] == bs;
    } else if |bs| == 2 {
      assert Encode(bs) == EncodeTwo(bs[0], bs[1]);
      DecodeEncodeTwo(bs[0], bs[1]);
      assert [bs[0], bs[1]] == bs;
    } else {
      DecodeEncodeThree(bs);
    }
  }

  lemma DecodeEncodeThree(bs: seq<Byte>)
    requires |bs| == 3
    ensures Decode(Encode(bs)) == Some(bs)
  {
    var group := EncodeGroup(bs[0], bs[1], bs[2]);
    assert Encode(bs[3..]) == [];
    assert Encode(bs) == group + [];
    assert group + [] == group;
    DecodeEncodeGroup(bs[0], bs[1], bs[2]);
    assert DecodeFinal(group) == DecodeGroup(group) by {
      ValueOfChar((bs[1] % 16) * 4 + bs[2] / 64);
      ValueOfChar(bs[2] % 64);
    }
    assert [bs[0], bs[1], bs[2]] == bs;
  }

  /** Decoding undoes encoding. */
  lemma {:induction false} DecodeEncode(bs: seq<Byte>)
    ensures Decode(Encode(bs)) == Some(bs)
    decreases |bs|
  {
    if 0 < |bs| <= 3 {
      DecodeEncodeShort(bs);
    } else if |bs| > 3 {
      DecodeEncode(bs[3..]);
      DecodeEncodeLonger(bs);
    }
  }

  /** A longer input decodes back when what follows its first group does. */
  lemma DecodeEncodeLonger(bs: seq<Byte>)
    requires |bs| > 3 && Decode(Encode(bs[3..])) == Some(bs[3..])
    ensures Decode(Encode(bs)) == Some(bs)
  {
    var head := [bs[0], bs[1], bs[2]];
    var tail := bs[3..];
    var group := EncodeGroup(bs[0], bs[1], bs[2]);
    var rest := Encode(tail);
    assert Encode(bs) == group + rest;
    assert |rest| > 0;
    DecodeEncodeGroup(bs[0], bs[1], bs[2]);
    assert DecodeGroup(group) == Some(head);
    assert Decode(rest) == Some(tail);
    DecodeLonger(group, rest);
    assert Decode(group + rest) == Some(head + tail);
    FirstGroup(bs);
  }

  lemma FirstGroup(bs: seq<Byte>)
    requires |bs| >= 3
    ensures [bs[0], bs[1], bs[2]] + bs[3..] == bs
  {
    assert [bs[0], bs[1], bs[2]] + bs[3..] == bs[..3] + bs[3..];
  }

  /** Two byte strings with the same encoding are the same. */
  lemma EncodeInjective(bs: seq<Byte>, cs: seq<Byte>)
    requires Encode(bs) == Encode(cs)
    ensures bs == cs
  {
    DecodeEncode(bs);
    DecodeEncode(cs);
  }
}
