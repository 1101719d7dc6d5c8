/** Byte encodings used by the library: base64 (section 4 of RFC 4648), the hexadecimal
    digest text of `sha1()` and its `pack("H*")` inverse, `utf8_encode` (ISO-8859-1 to
    UTF-8, section 3 of RFC 3629) and UTF-16LE (sections 2.1 and 4.2 of RFC 2781). */
module Encodings {
  import opened Errors
  import opened Php

  // ---------------------------------------------------------------------------
  // Base64, section 4 of RFC 4648

  /** The base64 alphabet: A-Z, a-z, 0-9, '+', '/'. */
  function Symbol(i: int): (c: char)
    requires 0 <= i < 64
    ensures c != '='
  {
    if i < 26 then ('A' as int + i) as char
    else if i < 52 then ('a' as int + i - 26) as char
    else if i < 62 then ('0' as int + i - 52) as char
    else if i == 62 then '+'
    else '/'
  }

  /** The alphabet position of a symbol, or -1. */
  function SymbolIndex(c: char): (i: int)
    ensures -1 <= i < 64
    ensures 0 <= i ==> Symbol(i) == c
  {
    if 'A' <= c <= 'Z' then c as int - 'A' as int
    else if 'a' <= c <= 'z' then c as int - 'a' as int + 26
    else if '0' <= c <= '9' then c as int - '0' as int + 52
    else if c == '+' then 62
    else if c == '/' then 63
    else -1
  }

  lemma SymbolIndexOfSymbol(i: int)
    requires 0 <= i < 64
    ensures SymbolIndex(Symbol(i)) == i
  {
  }

  /** Three bytes as four symbols. */
  function Quad(b0: Byte, b1: Byte, b2: Byte): string {
    [Symbol(b0 / 4), Symbol((b0 % 4) * 16 + b1 / 16), Symbol((b1 % 16) * 4 + b2 / 64), Symbol(b2 % 64)]
  }

  /** A last byte alone: two symbols and two pads. */
  function Single(b0: Byte): string {
    [Symbol(b0 / 4), Symbol((b0 % 4) * 16), '=', '=']
  }

  /** Two last bytes: three symbols and one pad. */
  function Pair(b0: Byte, b1: Byte): string {
    [Symbol(b0 / 4), Symbol((b0 % 4) * 16 + b1 / 16), Symbol((b1 % 16) * 4), '=']
  }

  /** Base64 with '=' padding. */
  function Base64Encode(b: seq<Byte>): (s: string)
    ensures |s| == 4 * ((|b| + 2) / 3)
    decreases |b|
  {
    if |b| == 0 then []
    else if |b| == 1 then Single(b[0])
    else if |b| == 2 then Pair(b[0], b[1])
    else Quad(b[0], b[1], b[2]) + Base64Encode(b[3..])
  }

  /** Four symbols as three bytes. */
  function DecodeQuad(c0: char, c1: char, c2: char, c3: char): Option<seq<Byte>> {
    var i0, i1, i2, i3 := SymbolIndex(c0), SymbolIndex(c1), SymbolIndex(c2), SymbolIndex(c3);
    if i0 < 0 || i1 < 0 || i2 < 0 || i3 < 0 then None
    else Some([i0 * 4 + i1 / 16, (i1 % 16) * 16 + i2 / 4, (i2 % 4) * 64 + i3])
  }

  /** The final group, which may carry one or two '=' pads. */
  function DecodeLast(c0: char, c1: char, c2: char, c3: char): Option<seq<Byte>> {
    var i0, i1, i2 := SymbolIndex(c0), SymbolIndex(c1), SymbolIndex(c2);
    if c2 == '=' && c3 == '=' then
      if i0 < 0 || i1 < 0 then None else Some([i0 * 4 + i1 / 16])
    else if c3 == '=' then
      if i0 < 0 || i1 < 0 || i2 < 0 then None else Some([i0 * 4 + i1 / 16, (i1 % 16) * 16 + i2 / 4])
    else DecodeQuad(c0, c1, c2, c3)
  }

  /** Base64 decoding of a padded text; None when the text is not base64. */
  function Base64Decode(s: string): Option<seq<Byte>>
    decreases |s|
  {
    if |s| == 0 then Some([])
    else if |s| < 4 then None
    else if |s| == 4 then DecodeLast(s[0], s[1], s[2], s[3])
    else
      match DecodeQuad(s[0], s[1], s[2], s[3])
      case None => None
      case Some(head) =>
        match Base64Decode(s[4..])
        case None => None
        case Some(tail) => Some(head + tail)
  }

  lemma QuadRoundTrip(b0: Byte, b1: Byte, b2: Byte)
    ensures var q := Quad(b0, b1, b2); DecodeQuad(q[0], q[1], q[2], q[3]) == Some([b0, b1, b2])
  {
    var i0, i1, i2, i3 := b0 / 4, (b0 % 4) * 16 + b1 / 16, (b1 % 16) * 4 + b2 / 64, b2 % 64;
    SymbolIndexOfSymbol(i0);
    SymbolIndexOfSymbol(i1);
    SymbolIndexOfSymbol(i2);
    SymbolIndexOfSymbol(i3);
    assert i1 / 16 == b0 % 4 && i1 % 16 == b1 / 16;
    assert i2 / 4 == b1 % 16 && i2 % 4 == b2 / 64;
  }

  lemma SingleRoundTrip(b0: Byte)
    ensures var g := Single(b0); DecodeLast(g[0], g[1], g[2], g[3]) == Some([b0])
  {
    SymbolIndexOfSymbol(b0 / 4);
    SymbolIndexOfSymbol((b0 % 4) * 16);
  }

  lemma PairRoundTrip(b0: Byte, b1: Byte)
    ensures var g := Pair(b0, b1); DecodeLast(g[0], g[1], g[2], g[3]) == Some([b0, b1])
  {
    var i0, i1, i2 := b0 / 4, (b0 % 4) * 16 + b1 / 16, (b1 % 16) * 4;
    SymbolIndexOfSymbol(i0);
    SymbolIndexOfSymbol(i1);
    SymbolIndexOfSymbol(i2);
    assert i0 * 4 + i1 / 16 == b0;
    assert (i1 % 16) * 16 + i2 / 4 == b1;
  }

  /** Four symbols are the last group. */
  lemma DecodeGroup(s: string)
    requires |s| == 4
    ensures Base64Decode(s) == DecodeLast(s[0], s[1], s[2], s[3])
  {
  }

  lemma Base64OneByte(b: seq<Byte>)
    requires |b| == 1
    ensures Base64Decode(Base64Encode(b)) == Some(b)
  {
    var g := Single(b[0]);
    assert Base64Encode(b) == g;
    DecodeGroup(g);
    SingleRoundTrip(b[0]);
    assert [b[0]] == b;
  }

  lemma Base64TwoBytes(b: seq<Byte>)
    requires |b| == 2
    ensures Base64Decode(Base64Encode(b)) == Some(b)
  {
    var g := Pair(b[0], b[1]);
    assert Base64Encode(b) == g;
    DecodeGroup(g);
    PairRoundTrip(b[0], b[1]);
    assert [b[0], b[1]] == b;
  }

  lemma Base64ThreeBytes(b: seq<Byte>)
    requires |b| == 3
    ensures Base64Decode(Base64Encode(b)) == Some(b)
  {
    var g := Quad(b[0], b[1], b[2]);
    assert b[3..] == [];
    assert Base64Encode(b) == g;
    DecodeGroup(g);
    QuadRoundTrip(b[0], b[1], b[2]);
    assert [b[0], b[1], b[2]] == b;
  }

  /** A full group in front of more text decodes to its three bytes in front of the
      decoded rest. */
  lemma DecodeAfterQuad(b0: Byte, b1: Byte, b2: Byte, t: string)
    requires |t| >= 4 && Base64Decode(t).Some?
    ensures Base64Decode(Quad(b0, b1, b2) + t) == Some([b0, b1, b2] + Base64Decode(t).value)
  {
    var s := Quad(b0, b1, b2) + t;
    QuadRoundTrip(b0, b1, b2);
    assert s[0] == Quad(b0, b1, b2)[0] && s[1] == Quad(b0, b1, b2)[1];
    assert s[2] == Quad(b0, b1, b2)[2] && s[3] == Quad(b0, b1, b2)[3];
    assert s[4..] == t;
  }

  /** More than three bytes: a full group, then the encoding of the rest. */
  lemma Base64EncodeLong(b: seq<Byte>)
    requires |b| > 3
    ensures Base64Encode(b) == Quad(b[0], b[1], b[2]) + Base64Encode(b[3..])
    ensures |Base64Encode(b[3..])| >= 4
  {
    var n := |b[3..]|;
    assert (n + 2) / 3 >= 1;
  }

  /** Decoding undoes encoding. */
  lemma {:induction false} Base64RoundTrip(b: seq<Byte>)
    ensures Base64Decode(Base64Encode(b)) == Some(b)
    decreases |b|
  {
    if |b| == 1 {
      Base64OneByte(b);
    } else if |b| == 2 {
      Base64TwoBytes(b);
    } else if |b| == 3 {
      Base64ThreeBytes(b);
    } else if |b| > 3 {
      var t := Base64Encode(b[3..]);
      Base64EncodeLong(b);
      Base64RoundTrip(b[3..]);
      DecodeAfterQuad(b[0], b[1], b[2], t);
      assert [b[0], b[1], b[2]] + b[3..] == b;
    }
  }

  // ---------------------------------------------------------------------------
  // sha1() hex text and pack("H*")

  function HexDigit(d: int): char
    requires 0 <= d < 16
  {
    if d < 10 then ('0' as int + d) as char else ('a' as int + d - 10) as char
  }

  predicate IsHexDigit(c: char) {
    '0' <= c <= '9' || 'a' <= c <= 'f' || 'A' <= c <= 'F'
  }

  function HexValue(c: char): (v: int)
    requires IsHexDigit(c)
    ensures 0 <= v < 16
  {
    if '0' <= c <= '9' then c as int - '0' as int
    else if 'a' <= c <= 'f' then c as int - 'a' as int + 10
    else c as int - 'A' as int + 10
  }

  /** Lower-case hexadecimal text, two digits per byte, as `sha1()` returns it. */
  function HexLower(b: seq<Byte>): (s: string)
    ensures |s| == 2 * |b|
    ensures forall i :: 0 <= i < |s| ==> IsHexDigit(s[i])
    decreases |b|
  {
    if b == [] then [] else [HexDigit(b[0] / 16), HexDigit(b[0] % 16)] + HexLower(b[1..])
  }

  /** `pack("H*", s)`: each pair of hex digits, high nibble first, becomes one byte. */
  function PackHex(s: string): seq<Byte>
    requires |s| % 2 == 0
    requires forall i :: 0 <= i < |s| ==> IsHexDigit(s[i])
    decreases |s|
  {
    if s == [] then [] else [HexValue(s[0]) * 16 + HexValue(s[1])] + PackHex(s[2..])
  }

  lemma {:induction false} PackHexLower(b: seq<Byte>)
    ensures PackHex(HexLower(b)) == b
    decreases |b|
  {
    if b != [] {
      var s := HexLower(b);
      assert s[2..] == HexLower(b[1..]);
      PackHexLower(b[1..]);
    }
  }

  // ---------------------------------------------------------------------------
  // utf8_encode: ISO-8859-1 to UTF-8

  function Latin1CharToUtf8(b: Byte): seq<Byte> {
    if b < 0x80 then [b] else [0xC0 + b / 64, 0x80 + b % 64]
  }

  function Latin1ToUtf8(s: seq<Byte>): seq<Byte>
    decreases |s|
  {
    if s == [] then [] else Latin1CharToUtf8(s[0]) + Latin1ToUtf8(s[1..])
  }

  /** Number of bytes of at least 0x80. */
  function HighBytes(s: seq<Byte>): nat
    decreases |s|
  {
    if s == [] then 0 else (if s[0] >= 0x80 then 1 else 0) + HighBytes(s[1..])
  }

  /** ASCII bytes are kept; every other byte becomes two. */
  lemma {:induction false} Latin1ToUtf8Length(s: seq<Byte>)
    ensures |Latin1ToUtf8(s)| == |s| + HighBytes(s)
    decreases |s|
  {
    if s != [] {
      Latin1ToUtf8Length(s[1..]);
    }
  }

  /** Inverse of `Latin1ToUtf8`: decodes one- and two-byte sequences whose code point is below 0x100. */
  function Utf8ToLatin1(u: seq<Byte>): Option<seq<Byte>>
    decreases |u|
  {
    if u == [] then Some([])
    else if u[0] < 0x80 then
      match Utf8ToLatin1(u[1..])
      case None => None
      case Some(rest) => Some([u[0]] + rest)
    else if (u[0] == 0xC2 || u[0] == 0xC3) && |u| >= 2 && 0x80 <= u[1] < 0xC0 then
      match Utf8ToLatin1(u[2..])
      case None => None
      case Some(rest) => Some([(u[0] - 0xC0) * 64 + (u[1] - 0x80)] + rest)
    else None
  }

  lemma {:induction false} Latin1Utf8RoundTrip(s: seq<Byte>)
    ensures Utf8ToLatin1(Latin1ToUtf8(s)) == Some(s)
    decreases |s|
  {
    if s != [] {
      Latin1Utf8RoundTrip(s[1..]);
      var u := Latin1ToUtf8(s);
      var head := Latin1CharToUtf8(s[0]);
      assert u == head + Latin1ToUtf8(s[1..]);
      if s[0] < 0x80 {
        assert u[1..] == Latin1ToUtf8(s[1..]);
      } else {
        assert u[2..] == Latin1ToUtf8(s[1..]);
      }
      assert [s[0]] + s[1..] == s;
    }
  }

  // ---------------------------------------------------------------------------
  // UTF-16LE, sections 2.1 and 4.2 of RFC 2781

  /** One code unit, least significant byte first. */
  function UnitLe(u: int): seq<Byte>
    requires 0 <= u < 0x10000
  {
    [u % 256, u / 256]
  }

  /** A character below U+10000 is one code unit; any other is a surrogate pair. */
  function CharToUtf16Le(c: char): (b: seq<Byte>)
    ensures |b| == if (c as int) < 0x10000 then 2 else 4
  {
    var n := c as int;
    if n < 0x10000 then UnitLe(n)
    else
      var m := n - 0x10000;
      UnitLe(0xD800 + m / 0x400) + UnitLe(0xDC00 + m % 0x400)
  }

  function Utf16Le(s: string): seq<Byte>
    decreases |s|
  {
    if s == [] then [] else CharToUtf16Le(s[0]) + Utf16Le(s[1..])
  }

  lemma {:induction false} Utf16LeAppend(a: string, b: string)
    ensures Utf16Le(a + b) == Utf16Le(a) + Utf16Le(b)
    decreases |a|
  {
    if a == [] {
      assert a + b == b;
    } else {
      assert (a + b)[1..] == a[1..] + b;
      Utf16LeAppend(a[1..], b);
    }
  }

  /** Characters below U+10000 (the Basic Multilingual Plane). */
  predicate BmpOnly(s: string) {
    forall i :: 0 <= i < |s| ==> (s[i] as int) < 0x10000
  }

  lemma {:induction false} Utf16LeBmpLength(s: string)
    requires BmpOnly(s)
    ensures |Utf16Le(s)| == 2 * |s|
    decreases |s|
  {
    if s != [] {
      Utf16LeBmpLength(s[1..]);
    }
  }

  /** UTF-16LE decoding; None on a lone surrogate or an odd length. */
  function FromUtf16Le(b: seq<Byte>): Option<string>
    decreases |b|
  {
    if b == [] then Some([])
    else if |b| < 2 then None
    else
      var u: int := b[0] as int + 256 * b[1] as int;
      if 0xD800 <= u < 0xDC00 then
        if |b| < 4 then None
        else
          var v: int := b[2] as int + 256 * b[3] as int;
          if !(0xDC00 <= v < 0xE000) then None
          else
            match FromUtf16Le(b[4..])
            case None => None
            case Some(rest) => Some([(0x10000 + (u - 0xD800) * 0x400 + (v - 0xDC00)) as char] + rest)
      else if 0xDC00 <= u < 0xE000 then None
      else
        match FromUtf16Le(b[2..])
        case None => None
        case Some(rest) => Some([u as char] + rest)
  }

  lemma {:induction false} Utf16LeRoundTrip(s: string)
    ensures FromUtf16Le(Utf16Le(s)) == Some(s)
    decreases |s|
  {
    if s != [] {
      Utf16LeRoundTrip(s[1..]);
      var b := Utf16Le(s);
      var n := s[0] as int;
      if n < 0x10000 {
        assert b[2..] == Utf16Le(s[1..]);
        assert (b[0] as int + 256 * b[1] as int) as char == s[0];
      } else {
        var m := n - 0x10000;
        var hi, lo := 0xD800 + m / 0x400, 0xDC00 + m % 0x400;
        assert b[0] as int + 256 * b[1] as int == hi;
        assert b[2] as int + 256 * b[3] as int == lo;
        assert 0x10000 + (hi - 0xD800) * 0x400 + (lo - 0xDC00) == n;
        assert b[4..] == Utf16Le(s[1..]);
      }
      assert [s[0]] + s[1..] == s;
    }
  }
}
