/** Bytes on the wire: the UTF-8 encoding behind Python's `str.encode('utf-8')`
    and the decimal rendering behind `str(len(content))` in the
    Content-Length header. */
module Encoding {

  /** One octet, as Python's `bytes` holds them. */
  type byte = b: int | 0 <= b < 256

  /** The UTF-8 encoding of one Unicode scalar value (RFC 3629, section 3). */
  function Utf8Char(c: char): (r: seq<byte>)
    ensures 1 <= |r| <= 4
    ensures |r| == 1 <==> c as int < 0x80
  {
    var n := c as int;
    if n < 0x80 then [n]
    else if n < 0x800 then [0xC0 + n / 64, 0x80 + n % 64]
    else if n < 0x10000 then [0xE0 + n / 4096, 0x80 + (n / 64) % 64, 0x80 + n % 64]
    else [0xF0 + n / 262144, 0x80 + (n / 4096) % 64, 0x80 + (n / 64) % 64, 0x80 + n % 64]
  }

  /** `s.encode('utf-8')`: the encodings of the characters, one after another. */
  function Utf8(s: string): (r: seq<byte>)
    ensures |s| <= |r| <= 4 * |s|
  {
    if s == [] then [] else Utf8Char(s[0]) + Utf8(s[1..])
  }

  /** The length of the encoded unit that a lead byte announces. */
  function UnitLength(lead: byte): (k: nat)
    ensures 1 <= k <= 4
  {
    if lead < 0x80 then 1 else if lead < 0xE0 then 2 else if lead < 0xF0 then 3 else 4
  }

  /** The code point that one encoded unit carries. */
  function DecodeUnit(u: seq<byte>): int
    requires 1 <= |u| <= 4
  {
    var b0: int := u[0];
    if |u| == 1 then b0
    else
      var b1: int := u[1];
      if |u| == 2 then (b0 - 0xC0) * 64 + (b1 - 0x80)
      else
        var b2: int := u[2];
        if |u| == 3 then (b0 - 0xE0) * 4096 + (b1 - 0x80) * 64 + (b2 - 0x80)
        else
          var b3: int := u[3];
          (b0 - 0xF0) * 262144 + (b1 - 0x80) * 4096 + (b2 - 0x80) * 64 + (b3 - 0x80)
  }

  /** A reference UTF-8 decoder: split at the lengths the lead bytes announce
      and decode each unit. It is the partner of `Utf8`, not a model of
      anything the server does. */
  function Utf8Decode(b: seq<byte>): seq<int>
    decreases |b|
  {
    if b == [] then []
    else
      var k := if UnitLength(b[0]) <= |b| then UnitLength(b[0]) else |b|;
      [DecodeUnit(b[..k])] + Utf8Decode(b[k..])
  }

  /** The code points of a string. */
  function CodePoints(s: string): (r: seq<int>)
    ensures |r| == |s|
  {
    if s == [] then [] else [s[0] as int] + CodePoints(s[1..])
  }

  lemma Utf8CharDecodes(c: char)
    ensures UnitLength(Utf8Char(c)[0]) == |Utf8Char(c)|
    ensures DecodeUnit(Utf8Char(c)) == c as int
  {
    var n := c as int;
    assert n == (n / 64) * 64 + n % 64;
    assert n / 64 == ((n / 64) / 64) * 64 + (n / 64) % 64;
    assert n / 4096 == (n / 64) / 64;
    assert n / 4096 == ((n / 4096) / 64) * 64 + (n / 4096) % 64;
    assert n / 262144 == (n / 4096) / 64;
  }

  /** Decoding undoes encoding: `Utf8` loses nothing. */
  lemma {:induction false} Utf8RoundTrip(s: string)
    ensures Utf8Decode(Utf8(s)) == CodePoints(s)
  {
    if s != [] {
      var u := Utf8Char(s[0]);
      Utf8CharDecodes(s[0]);
      var b := Utf8(s);
      assert b == u + Utf8(s[1..]);
      assert b[0] == u[0];
      assert b[..|u|] == u;
      assert b[|u|..] == Utf8(s[1..]);
      Utf8RoundTrip(s[1..]);
    }
  }

  /** Encoding a concatenation concatenates the encodings. */
  lemma {:induction false} Utf8Append(a: string, b: string)
    ensures Utf8(a + b) == Utf8(a) + Utf8(b)
  {
    if a != [] {
      assert (a + b)[0] == a[0];
      assert (a + b)[1..] == a[1..] + b;
      Utf8Append(a[1..], b);
      calc {
        Utf8(a + b);
        Utf8Char(a[0]) + Utf8(a[1..] + b);
        Utf8Char(a[0]) + (Utf8(a[1..]) + Utf8(b));
        (Utf8Char(a[0]) + Utf8(a[1..])) + Utf8(b);
      }
    } else {
      assert a + b == b;
    }
  }

  /** Every character of `s` is below 128. */
  predicate IsAscii(s: string)
  {
    forall i :: 0 <= i < |s| ==> s[i] as int < 0x80
  }

  /** The bytes of a `b'...'` literal written with ASCII characters. */
  function Ascii(s: string): (r: seq<byte>)
    requires IsAscii(s)
    ensures |r| == |s|
    ensures forall i :: 0 <= i < |s| ==> r[i] == s[i] as int
  {
    seq(|s|, i requires 0 <= i < |s| => s[i] as int)
  }

  /** An ASCII string encodes to one byte per character, each its own code:
      the text of a `b'...'` literal. */
  lemma {:induction false} Utf8Ascii(s: string)
    requires IsAscii(s)
    ensures Utf8(s) == Ascii(s)
  {
    if s != [] {
      assert IsAscii(s[1..]) by {
        forall i | 0 <= i < |s| - 1 ensures s[1..][i] as int < 0x80 {
          assert s[1..][i] == s[i + 1];
        }
      }
      Utf8Ascii(s[1..]);
    }
  }

  /** The character of a decimal digit. */
  function DigitChar(d: nat): (c: char)
    requires d < 10
    ensures '0' <= c <= '9' && c as int - '0' as int == d
  {
    ('0' as int + d) as char
  }

  predicate IsDigits(s: string)
  {
    forall i :: 0 <= i < |s| ==> '0' <= s[i] <= '9'
  }

  /** `str(n)` for a non-negative integer: its decimal digits, most
      significant first, without leading zeros. */
  function Decimal(n: nat): (r: string)
    ensures |r| > 0 && IsDigits(r)
    ensures |r| > 1 ==> r[0] != '0'
    decreases n
  {
    if n < 10 then [DigitChar(n)] else Decimal(n / 10) + [DigitChar(n % 10)]
  }

  /** The number a string of decimal digits denotes, as `int(s)` reads it. */
  function DecimalValue(s: string): nat
    requires IsDigits(s)
  {
    if s == [] then 0
    else DecimalValue(s[..|s| - 1]) * 10 + (s[|s| - 1] as int - '0' as int)
  }

  /** The Content-Length text reads back as the number it was made from. */
  lemma {:induction false} DecimalRoundTrip(n: nat)
    ensures DecimalValue(Decimal(n)) == n
    decreases n
  {
    if n >= 10 {
      var r := Decimal(n);
      assert r[..|r| - 1] == Decimal(n / 10);
      DecimalRoundTrip(n / 10);
    }
  }
}
