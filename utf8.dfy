/** `String.data(using: .utf8)`: the UTF-8 encoding of RFC 3629, section 3. */
module Utf8 {
  import opened Common

  /** The code points a Dafny `char` can hold: the Unicode scalar values. */
  predicate IsScalar(v: int)
  {
    0 <= v < 0xD800 || 0xE000 <= v < 0x110000
  }

  /** How many bytes a sequence starting with `lead` has, or 0 when `lead` cannot start one (RFC 3629, section 3, the table). */
  function LengthOf(lead: byte): nat
  {
    if lead < 0x80 then 1
    else if 0xC0 <= lead < 0xE0 then 2
    else if 0xE0 <= lead < 0xF0 then 3
    else if 0xF0 <= lead < 0xF8 then 4
    else 0
  }

  /** The code point that one sequence of one to four bytes carries in its payload bits. */
  function ScalarOf(r: Bytes): int
    requires 1 <= |r| <= 4
  {
    if |r| == 1 then r[0] as int
    else if |r| == 2 then (r[0] as int - 0xC0) * 64 + (r[1] as int - 0x80)
    else if |r| == 3 then (r[0] as int - 0xE0) * 4096 + (r[1] as int - 0x80) * 64 + (r[2] as int - 0x80)
    else (r[0] as int - 0xF0) * 262144 + (r[1] as int - 0x80) * 4096 + (r[2] as int - 0x80) * 64 + (r[3] as int - 0x80)
  }

  /** The shortest form: no code point is written with more bytes than it needs. */
  predicate ShortestForm(v: int, n: nat)
  {
    (n == 1 ==> v < 0x80) && (n == 2 ==> 0x80 <= v < 0x800)
    && (n == 3 ==> 0x800 <= v < 0x10000) && (n == 4 ==> 0x10000 <= v)
  }

  /** A code point below 0x10000 splits into a 4-bit and two 6-bit groups. */
  lemma Digits3(n: int)
    requires 0 <= n < 0x10000
    ensures n / 4096 < 16
    ensures (n / 4096) * 4096 + ((n / 64) % 64) * 64 + n % 64 == n
  {
    var q := n / 64;
    assert n == q * 64 + n % 64;
    assert q == (q / 64) * 64 + q % 64;
    assert q / 64 == n / 4096;
  }
  /** A scalar value splits into a 3-bit and three 6-bit groups. */
  lemma Digits4(n: int)
    requires 0 <= n < 0x110000
    ensures n / 262144 < 8
    ensures (n / 262144) * 262144 + ((n / 4096) % 64) * 4096 + ((n / 64) % 64) * 64 + n % 64 == n
  {
    var q := n / 64;
    var p := q / 64;
    assert n == q * 64 + n % 64;
    assert q == p * 64 + q % 64;
    assert p == (p / 64) * 64 + p % 64;
    assert p == n / 4096;
    assert p / 64 == n / 262144;
  }

  /** The one to four bytes that encode one Unicode scalar value. */
  function EncodeScalar(c: char): (r: Bytes)
    ensures 1 <= |r| <= 4
    ensures |r| == 1 <==> c as int < 0x80
    ensures c as int < 0x80 ==> r[0] as int == c as int
    ensures |r| > 1 ==> r[0] >= 0xC0 && forall k :: 1 <= k < |r| ==> 0x80 <= r[k] < 0xC0
    ensures LengthOf(r[0]) == |r| && ShortestForm(c as int, |r|)
    ensures ScalarOf(r) == c as int
  {
    var n := c as int;
    if n < 0x80 then [n as byte]
    else if n < 0x800 then [(0xC0 + n / 64) as byte, (0x80 + n % 64) as byte]
    else if n < 0x10000 then
      Digits3(n);
      [(0xE0 + n / 4096) as byte, (0x80 + (n / 64) % 64) as byte, (0x80 + n % 64) as byte]
    else
      Digits4(n);
      [(0xF0 + n / 262144) as byte, (0x80 + (n / 4096) % 64) as byte,
       (0x80 + (n / 64) % 64) as byte, (0x80 + n % 64) as byte]
  }

  /** The UTF-8 encoding of a string, scalar by scalar. */
  function Encode(s: string): (r: Bytes)
    ensures |s| <= |r| <= 4 * |s|
  {
    if s == [] then [] else EncodeScalar(s[0]) + Encode(s[1..])
  }

  /** Encoding distributes over concatenation. */
  lemma {:induction false} EncodeConcat(a: string, b: string)
    ensures Encode(a + b) == Encode(a) + Encode(b)
    decreases |a|
  {
    if a != [] {
      assert (a + b)[0] == a[0] && (a + b)[1..] == a[1..] + b;
      assert Encode(a + b) == EncodeScalar(a[0]) + Encode(a[1..] + b);
      EncodeConcat(a[1..], b);
      assert EncodeScalar(a[0]) + (Encode(a[1..]) + Encode(b)) == (EncodeScalar(a[0]) + Encode(a[1..])) + Encode(b);
    } else {
      assert a + b == b;
    }
  }

  /** An ASCII string encodes to one byte per character, each byte the character's code. */
  lemma {:induction false} EncodeAscii(s: string)
    requires forall k :: 0 <= k < |s| ==> s[k] as int < 0x80
    ensures |Encode(s)| == |s|
    ensures forall k :: 0 <= k < |s| ==> Encode(s)[k] as int == s[k] as int
    decreases |s|
  {
    if s != [] {
      EncodeAscii(s[1..]);
    }
  }

  /**
   * A decoder for the encoding: each sequence must start with a lead byte, carry continuation bytes,
   * be in shortest form and denote a scalar value; anything else is rejected.
   */
  function Decode(b: Bytes): (r: Option<string>)
    decreases |b|
  {
    if b == [] then Some([])
    else
      var n := LengthOf(b[0]);
      if n == 0 || |b| < n || !(forall k :: 1 <= k < n ==> 0x80 <= b[k] < 0xC0) then None
      else
        var v := ScalarOf(b[..n]);
        if !IsScalar(v) || !ShortestForm(v, n) then None
        else
          match Decode(b[n..])
          case None => None
          case Some(rest) => Some([v as char] + rest)
  }

  /** Decoding an encoding gives back the string. */
  lemma {:induction false} DecodeEncode(s: string)
    ensures Decode(Encode(s)) == Some(s)
    decreases |s|
  {
    if s != [] {
      var e, t := EncodeScalar(s[0]), Encode(s[1..]);
      var b := e + t;
      assert b == Encode(s);
      assert b[..|e|] == e && b[|e|..] == t;
      assert b[0] == e[0];
      assert forall k :: 1 <= k < |e| ==> b[k] == e[k];
      DecodeEncode(s[1..]);
      assert (s[0] as int) as char == s[0];
      assert [s[0]] + s[1..] == s;
    }
  }

  /** Distinct strings have distinct encodings. */
  lemma EncodeInjective(s: string, t: string)
    ensures Encode(s) == Encode(t) ==> s == t
  {
    DecodeEncode(s);
    DecodeEncode(t);
  }
}
