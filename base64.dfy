/** `Data.base64EncodedString()`: the base 64 encoding of RFC 4648, section 4, with padding. */
module Base64 {
  import opened Common

  /** The characters of the base 64 alphabet (RFC 4648, section 4, Table 1). */
  predicate IsAlphabetChar(c: char) {
    ('A' <= c <= 'Z') || ('a' <= c <= 'z') || ('0' <= c <= '9') || c == '+' || c == '/'
  }

  /** Table 1: the character that encodes a 6-bit value. */
  function CharOf(v: int): (c: char)
    requires 0 <= v < 64
    ensures IsAlphabetChar(c) && c != '='
  {
    if v < 26 then ('A' as int + v) as char
    else if v < 52 then ('a' as int + v - 26) as char
    else if v < 62 then ('0' as int + v - 52) as char
    else if v == 62 then '+'
    else '/'
  }

  /** Table 1 read backwards: the 6-bit value a character encodes. */
  function ValueOf(c: char): (v: int)
    requires IsAlphabetChar(c)
    ensures 0 <= v < 64 && CharOf(v) == c
  {
    if 'A' <= c <= 'Z' then c as int - 'A' as int
    else if 'a' <= c <= 'z' then c as int - 'a' as int + 26
    else if '0' <= c <= '9' then c as int - '0' as int + 52
    else if c == '+' then 62
    else 63
  }

  /** Every 3 input bytes become 4 characters; a final 1 or 2 bytes are padded with `=` to 4. */
  function Encode(b: Bytes): (s: string)
    ensures |s| == 4 * ((|b| + 2) / 3)
    ensures forall k :: 0 <= k < |s| ==> IsAlphabetChar(s[k]) || s[k] == '='
    decreases |b|
  {
    if |b| == 0 then ""
    else
      var b0 := b[0] as int;
      if |b| == 1 then FinalOne(b0)
      else
        var b1 := b[1] as int;
        if |b| == 2 then FinalTwo(b0, b1)
        else
          var g, t := GroupOf(b0, b1, b[2] as int), Encode(b[3..]);
          assert forall k :: 4 <= k < |g + t| ==> (g + t)[k] == t[k - 4];
          g + t
  }

  /** Four characters for three bytes. */
  function GroupOf(b0: int, b1: int, b2: int): (g: string)
    requires 0 <= b0 < 256 && 0 <= b1 < 256 && 0 <= b2 < 256
    ensures |g| == 4 && forall k :: 0 <= k < 4 ==> IsAlphabetChar(g[k])
  {
    [CharOf(b0 / 4), CharOf((b0 % 4) * 16 + b1 / 16), CharOf((b1 % 16) * 4 + b2 / 64), CharOf(b2 % 64)]
  }

  /** Two characters and two pad characters for a final single byte. */
  function FinalOne(b0: int): (g: string)
    requires 0 <= b0 < 256
    ensures |g| == 4 && IsAlphabetChar(g[0]) && IsAlphabetChar(g[1]) && g[2] == '=' && g[3] == '='
  {
    [CharOf(b0 / 4), CharOf((b0 % 4) * 16), '=', '=']
  }

  /** Three characters and one pad character for two final bytes. */
  function FinalTwo(b0: int, b1: int): (g: string)
    requires 0 <= b0 < 256 && 0 <= b1 < 256
    ensures |g| == 4 && (forall k :: 0 <= k < 3 ==> IsAlphabetChar(g[k])) && g[3] == '='
  {
    [CharOf(b0 / 4), CharOf((b0 % 4) * 16 + b1 / 16), CharOf((b1 % 16) * 4), '=']
  }

  /** A decoder for the padded encoding, rejecting anything `Encode` cannot produce. */
  function Decode(s: string): (r: Option<Bytes>)
    decreases |s|
  {
    if s == [] then Some([])
    else if |s| < 4 || !IsAlphabetChar(s[0]) || !IsAlphabetChar(s[1]) then None
    else
      var v0, v1 := ValueOf(s[0]), ValueOf(s[1]);
      var b0 := (v0 * 4 + v1 / 16) as byte;
      if s[2] == '=' then
        if s[3] == '=' && |s| == 4 && v1 % 16 == 0 then Some([b0]) else None
      else if !IsAlphabetChar(s[2]) then None
      else
        var v2 := ValueOf(s[2]);
        var b1 := ((v1 % 16) * 16 + v2 / 4) as byte;
        if s[3] == '=' then
          if |s| == 4 && v2 % 4 == 0 then Some([b0, b1]) else None
        else if !IsAlphabetChar(s[3]) then None
        else
          match Decode(s[4..])
          case None => None
          case Some(rest) => Some(Triple(v0, v1, v2, ValueOf(s[3])) + rest)
  }

  /** The three bytes that four 6-bit values carry. */
  function Triple(v0: int, v1: int, v2: int, v3: int): (r: Bytes)
    requires 0 <= v0 < 64 && 0 <= v1 < 64 && 0 <= v2 < 64 && 0 <= v3 < 64
    ensures |r| == 3
  {
    [(v0 * 4 + v1 / 16) as byte, ((v1 % 16) * 16 + v2 / 4) as byte, ((v2 % 4) * 64 + v3) as byte]
  }

  /** Regrouping three bytes into four 6-bit values and back loses nothing. */
  lemma TripleOfSextets(b0: int, b1: int, b2: int)
    requires 0 <= b0 < 256 && 0 <= b1 < 256 && 0 <= b2 < 256
    ensures Triple(b0 / 4, (b0 % 4) * 16 + b1 / 16, (b1 % 16) * 4 + b2 / 64, b2 % 64)
         == [b0 as byte, b1 as byte, b2 as byte]
  {
    var v1 := (b0 % 4) * 16 + b1 / 16;
    var v2 := (b1 % 16) * 4 + b2 / 64;
    assert v1 / 16 == b0 % 4 && v1 % 16 == b1 / 16;
    assert v2 / 4 == b1 % 16 && v2 % 4 == b2 / 64;
  }

  /** Table 1 is a bijection between 6-bit values and alphabet characters. */
  lemma ValueOfCharOf(v: int)
    requires 0 <= v < 64
    ensures ValueOf(CharOf(v)) == v
  {
  }

  /** One final byte: two characters and two pad characters. */
  lemma DecodeOne(b0: int)
    requires 0 <= b0 < 256
    ensures Decode(FinalOne(b0)) == Some([b0 as byte])
  {
    ValueOfCharOf(b0 / 4);
    ValueOfCharOf((b0 % 4) * 16);
  }

  /** Two final bytes: three characters and one pad character. */
  lemma DecodeTwo(b0: int, b1: int)
    requires 0 <= b0 < 256 && 0 <= b1 < 256
    ensures Decode(FinalTwo(b0, b1)) == Some([b0 as byte, b1 as byte])
  {
    ValueOfCharOf(b0 / 4);
    ValueOfCharOf((b0 % 4) * 16 + b1 / 16);
    ValueOfCharOf((b1 % 16) * 4);
  }

  /** A full group of three bytes followed by the encoding of the rest. */
  lemma DecodeThree(b0: int, b1: int, b2: int, rest: string, tail: Bytes)
    requires 0 <= b0 < 256 && 0 <= b1 < 256 && 0 <= b2 < 256
    requires Decode(rest) == Some(tail)
    ensures Decode(GroupOf(b0, b1, b2) + rest) == Some([b0 as byte, b1 as byte, b2 as byte] + tail)
  {
    var v0, v1, v2, v3 := b0 / 4, (b0 % 4) * 16 + b1 / 16, (b1 % 16) * 4 + b2 / 64, b2 % 64;
    var g := [CharOf(v0), CharOf(v1), CharOf(v2), CharOf(v3)];
    var s := g + rest;
    assert s[0] == CharOf(v0) && s[1] == CharOf(v1) && s[2] == CharOf(v2) && s[3] == CharOf(v3);
    assert s[4..] == rest;
    ValueOfCharOf(v0);
    ValueOfCharOf(v1);
    ValueOfCharOf(v2);
    ValueOfCharOf(v3);
    TripleOfSextets(b0, b1, b2);
  }

  /** Decoding an encoding gives back the bytes. */
  lemma {:induction false} DecodeEncode(b: Bytes)
    ensures Decode(Encode(b)) == Some(b)
    decreases |b|
  {
    if |b| == 1 {
      EncodeFinalOne(b);
    } else if |b| == 2 {
      EncodeFinalTwo(b);
    } else if |b| > 2 {
      DecodeEncode(b[3..]);
      EncodeGroup(b);
    }
  }

  lemma EncodeFinalOne(b: Bytes)
    requires |b| == 1
    ensures Decode(Encode(b)) == Some(b)
  {
    assert Encode(b) == FinalOne(b[0] as int);
    DecodeOne(b[0] as int);
    assert [b[0]] == b;
  }

  lemma EncodeFinalTwo(b: Bytes)
    requires |b| == 2
    ensures Decode(Encode(b)) == Some(b)
  {
    assert Encode(b) == FinalTwo(b[0] as int, b[1] as int);
    DecodeTwo(b[0] as int, b[1] as int);
    assert [b[0], b[1]] == b;
  }

  lemma EncodeGroup(b: Bytes)
    requires |b| > 2 && Decode(Encode(b[3..])) == Some(b[3..])
    ensures Decode(Encode(b)) == Some(b)
  {
    EncodeGroupShape(b);
    DecodeThree(b[0] as int, b[1] as int, b[2] as int, Encode(b[3..]), b[3..]);
    GroupBytes(b);
  }

  lemma EncodeGroupShape(b: Bytes)
    requires |b| > 2
    ensures Encode(b) == GroupOf(b[0] as int, b[1] as int, b[2] as int) + Encode(b[3..])
  {
  }

  lemma GroupBytes(b: Bytes)
    requires |b| > 2
    ensures [b[0] as int as byte, b[1] as int as byte, b[2] as int as byte] + b[3..] == b
  {
  }
}
