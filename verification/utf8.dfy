/** UTF-8, the byte form of a Rust `String`: what `base64::encode` is given
    when it encodes the `username:password` credentials (section 3 of
    RFC 3629). A Dafny `char` is a Unicode scalar value, as a Rust `char`
    is, so every string has exactly one encoding. */
module Utf8 {
  import opened Wrappers

  type Byte = b: int | 0 <= b < 256

  /** A scalar value: a code point that is not a surrogate. */
  predicate IsScalar(cp: int) {
    (0 <= cp < 0xD800) || (0xE000 <= cp < 0x11_0000)
  }

  /** The one to four bytes of a character: a lead byte that tells the
      length, then continuation bytes of six payload bits each. */
  function EncodeChar(c: char): (bs: seq<Byte>)
    ensures 1 <= |bs| <= 4
    ensures |bs| == 1 <==> (c as int) < 0x80
  {
    var cp := c as int;
    if cp < 0x80 then [cp]
    else if cp < 0x800 then [0xC0 + cp / 64, 0x80 + cp % 64]
    else if cp < 0x1_0000 then [0xE0 + cp / 4096, 0x80 + (cp / 64) % 64, 0x80 + cp % 64]
    else [0xF0 + cp / 262144, 0x80 + (cp / 4096) % 64, 0x80 + (cp / 64) % 64, 0x80 + cp % 64]
  }

  /** The encoding of a string: its characters' encodings, in order. */
  function Encode(s: string): (bs: seq<Byte>)
    ensures |bs| >= |s|
    ensures (forall i :: 0 <= i < |s| ==> (s[i] as int) < 0x80) ==> |bs| == |s|
    decreases |s|
  {
    if |s| == 0 then []
    else EncodeChar(s[0]) + Encode(s[1..])
  }

  predicate IsContinuation(b: Byte) {
    0x80 <= b < 0xC0
  }

  /** The first character of `bs` and the number of bytes it takes, if
      `bs` starts with a well-formed encoding: no overlong form, no
      surrogate, nothing above U+10FFFF. */
  function DecodeFirst(bs: seq<Byte>): (r: Option<(char, nat)>)
    ensures r.Some? ==> 1 <= r.value.1 <= |bs|
  {
    if |bs| == 0 then None
    else
      var b0 := bs[0];
      if b0 < 0x80 then Some((b0 as char, 1))
      else if 0xC2 <= b0 < 0xE0 then
        if |bs| < 2 || !IsContinuation(bs[1]) then None
        else
          var cp := (b0 as int - 0xC0) * 64 + (bs[1] as int - 0x80);
          Some((cp as char, 2))
      else if 0xE0 <= b0 < 0xF0 then
        if |bs| < 3 || !IsContinuation(bs[1]) || !IsContinuation(bs[2]) then None
        else
          var cp := (b0 as int - 0xE0) * 4096 + (bs[1] as int - 0x80) * 64 + (bs[2] as int - 0x80);
          if 0x800 <= cp && IsScalar(cp) then Some((cp as char, 3)) else None
      else if 0xF0 <= b0 < 0xF5 then
        if |bs| < 4 || !IsContinuation(bs[1]) || !IsContinuation(bs[2]) || !IsContinuation(bs[3]) then None
        else
          var cp := (b0 as int - 0xF0) * 262144 + (bs[1] as int - 0x80) * 4096 + (bs[2] as int - 0x80) * 64 + (bs[3] as int - 0x80);
          if 0x1_0000 <= cp < 0x11_0000 then Some((cp as char, 4)) else None
      else None
  }

  /** The string `bs` encodes, if it is well-formed UTF-8. */
  function Decode(bs: seq<Byte>): Option<string>
    decreases |bs|
  {
    if |bs| == 0 then Some([])
    else
      match DecodeFirst(bs)
      case None => None
      case Some((c, n)) =>
        match Decode(bs[n..])
        case None => None
        case Some(rest) => Some([c] + rest)
  }

  lemma SplitSixBits(cp: nat)
    ensures cp == (cp / 64) * 64 + cp % 64
    ensures cp / 64 == (cp / 4096) * 64 + (cp / 64) % 64
    ensures cp / 4096 == (cp / 262144) * 64 + (cp / 4096) % 64
  {
  }

  lemma DecodeTwo(c: char, rest: seq<Byte>)
    requires 0x80 <= c as int < 0x800
    ensures DecodeFirst(EncodeChar(c) + rest) == Some((c, 2))
  {
    var cp := c as int;
    var bs := EncodeChar(c) + rest;
    SplitSixBits(cp);
    assert bs[0] == 0xC0 + cp / 64 && bs[1] == 0x80 + cp % 64;
    assert (bs[0] as int - 0xC0) * 64 + (bs[1] as int - 0x80) == cp;
  }

  lemma DecodeThree(c: char, rest: seq<Byte>)
    requires 0x800 <= c as int < 0x1_0000
    ensures DecodeFirst(EncodeChar(c) + rest) == Some((c, 3))
  {
    var cp := c as int;
    var bs := EncodeChar(c) + rest;
    SplitSixBits(cp);
    assert bs[0] == 0xE0 + cp / 4096 && bs[1] == 0x80 + (cp / 64) % 64 && bs[2] == 0x80 + cp % 64;
    assert (bs[0] as int - 0xE0) * 4096 + (bs[1] as int - 0x80) * 64 + (bs[2] as int - 0x80) == cp;
  }

  lemma DecodeFour(c: char, rest: seq<Byte>)
    requires 0x1_0000 <= c as int
    ensures DecodeFirst(EncodeChar(c) + rest) == Some((c, 4))
  {
    var cp := c as int;
    var bs := EncodeChar(c) + rest;
    SplitSixBits(cp);
    assert bs[0] == 0xF0 + cp / 262144 && bs[1] == 0x80 + (cp / 4096) % 64;
    assert bs[2] == 0x80 + (cp / 64) % 64 && bs[3] == 0x80 + cp % 64;
    assert (bs[0] as int - 0xF0) * 262144 + (bs[1] as int - 0x80) * 4096 + (bs[2] as int - 0x80) * 64 + (bs[3] as int - 0x80) == cp;
  }

  /** A character's encoding decodes to the character, whatever follows. */
  lemma DecodeFirstEncodeChar(c: char, rest: seq<Byte>)
    ensures DecodeFirst(EncodeChar(c) + rest) == Some((c, |EncodeChar(c)|))
  {
    var cp := c as int;
    if cp < 0x80 {
    } else if cp < 0x800 {
      DecodeTwo(c, rest);
    } else if cp < 0x1_0000 {
      DecodeThree(c, rest);
    } else {
      DecodeFour(c, rest);
    }
  }

  /** Decoding undoes encoding. */
  lemma {:induction false} DecodeEncode(s: string)
    ensures Decode(Encode(s)) == Some(s)
    decreases |s|
  {
    if |s| > 0 {
      var first := EncodeChar(s[0]);
      var rest := Encode(s[1..]);
      DecodeFirstEncodeChar(s[0], rest);
      assert (first + rest)[|first|..] == rest;
      DecodeEncode(s[1..]);
      assert [s[0]] + s[1..] == s;
    }
  }

  /** Two strings with the same encoding are the same string. */
  lemma EncodeInjective(s: string, t: string)
    requires Encode(s) == Encode(t)
    ensures s == t
  {
    DecodeEncode(s);
    DecodeEncode(t);
  }
}
