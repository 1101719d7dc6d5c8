/** The pieces of PHP's own runtime the library leans on: `empty()` on strings, integer
    interpolation and `intval`, `explode`/`implode`, `strtolower`, the extension part of
    `pathinfo`, and the values `json_decode` produces. */
module Php {
  import opened Errors

  type Byte = b: int | 0 <= b < 0x100

  /** PHP's `empty()` applied to a string: only "" and "0" are empty. */
  predicate IsEmptyString(s: string) {
    s == "" || s == "0"
  }

  /** `s` ends with `t`. */
  predicate EndsWith(s: string, t: string) {
    |t| <= |s| && s[|s| - |t|..] == t
  }

  // ---------------------------------------------------------------------------
  // Decimal integers

  const INT_MAX: int := 0x7FFF_FFFF_FFFF_FFFF
  const INT_MIN: int := -0x8000_0000_0000_0000

  predicate IsDigit(c: char) {
    '0' <= c <= '9'
  }

  predicate AllDigits(s: string) {
    forall i :: 0 <= i < |s| ==> IsDigit(s[i])
  }

  function DigitChar(d: int): (c: char)
    requires 0 <= d < 10
    ensures IsDigit(c)
  {
    ('0' as int + d) as char
  }

  function DigitValue(c: char): int
    requires IsDigit(c)
  {
    c as int - '0' as int
  }

  /** The decimal digits of `n`, most significant first, without leading zeros. */
  function NatToDecimal(n: nat): (s: string)
    ensures 1 <= |s| && AllDigits(s)
    decreases n
  {
    if n < 10 then [DigitChar(n)] else NatToDecimal(n / 10) + [DigitChar(n % 10)]
  }

  /** How PHP interpolates an int into a string ("-" sign, then the digits). */
  function IntToDecimal(n: int): string {
    if n < 0 then "-" + NatToDecimal(-n) else NatToDecimal(n)
  }

  /** The number a string of decimal digits denotes. */
  function DigitsValue(s: string): nat
    requires AllDigits(s)
    decreases |s|
  {
    if s == [] then 0 else DigitsValue(s[..|s| - 1]) * 10 + DigitValue(s[|s| - 1])
  }

  /** Length of the longest prefix of `s` made of decimal digits. */
  function DigitRun(s: string): (k: nat)
    ensures k <= |s|
    ensures k < |s| ==> !IsDigit(s[k])
    decreases |s|
  {
    if s == [] || !IsDigit(s[0]) then 0 else 1 + DigitRun(s[1..])
  }

  /** The run `DigitRun` measures is made of digits. */
  lemma {:induction false} DigitRunDigits(s: string)
    ensures AllDigits(s[..DigitRun(s)])
    decreases |s|
  {
    if s != [] && IsDigit(s[0]) {
      DigitRunDigits(s[1..]);
      assert s[..DigitRun(s)] == [s[0]] + s[1..][..DigitRun(s[1..])];
    }
  }

  /** The number written by the digits at the start of `s`. */
  function LeadingDigitsValue(s: string): nat {
    DigitRunDigits(s);
    DigitsValue(s[..DigitRun(s)])
  }

  /** The optionally negative integer written at the start of `s`. */
  function LeadingInt(s: string): int {
    if s != [] && s[0] == '-' then -(LeadingDigitsValue(s[1..]) as int)
    else LeadingDigitsValue(s)
  }

  lemma {:induction false} NatToDecimalValue(n: nat)
    ensures DigitsValue(NatToDecimal(n)) == n
    decreases n
  {
    var s := NatToDecimal(n);
    if n >= 10 {
      NatToDecimalValue(n / 10);
      assert s[..|s| - 1] == NatToDecimal(n / 10);
    } else {
      assert s[..|s| - 1] == [];
    }
  }

  lemma {:induction false} DigitRunOfDigits(d: string, rest: string)
    requires AllDigits(d)
    requires rest == [] || !IsDigit(rest[0])
    ensures DigitRun(d + rest) == |d|
    decreases |d|
  {
    if d != [] {
      assert (d + rest)[1..] == d[1..] + rest;
      DigitRunOfDigits(d[1..], rest);
    } else {
      assert d + rest == rest;
    }
  }

  /** Reading back an interpolated int: the integer at the start of
      `IntToDecimal(n) + rest` is `n`, whenever `rest` does not start with a digit. */
  lemma {:induction false} LeadingIntOfDecimal(n: int, rest: string)
    requires rest == [] || !IsDigit(rest[0])
    ensures LeadingInt(IntToDecimal(n) + rest) == n
  {
    var d := NatToDecimal(if n < 0 then -n else n);
    NatToDecimalValue(if n < 0 then -n else n);
    LeadingIntOfDigits(d, rest);
  }

  /** A digit string, signed or not, reads back at the start of `d + rest`. */
  lemma {:induction false} LeadingIntOfDigits(d: string, rest: string)
    requires |d| > 0 && AllDigits(d)
    requires rest == [] || !IsDigit(rest[0])
    ensures LeadingInt(d + rest) == DigitsValue(d)
    ensures LeadingInt("-" + d + rest) == -(DigitsValue(d) as int)
  {
    LeadingDigits(d, rest);
    assert (d + rest)[0] == d[0];
    assert ("-" + d + rest)[1..] == d + rest;
  }

  // ---------------------------------------------------------------------------
  // intval() on strings

  predicate IsSpace(c: char) {
    c == ' ' || c == '\t' || c == '\n' || c == '\r' || c as int == 0x0B || c as int == 0x0C
  }

  /** PHP integers are 64-bit; a decimal string beyond the range saturates. */
  function Saturate(n: int): int {
    if n > INT_MAX then INT_MAX else if n < INT_MIN then INT_MIN else n
  }

  /** `s` without its leading white space. */
  function SkipSpace(s: string): (t: string)
    ensures |t| <= |s|
    ensures t == [] || !IsSpace(t[0])
    decreases |s|
  {
    if s != [] && IsSpace(s[0]) then SkipSpace(s[1..]) else s
  }

  /** An optional sign, then the longest run of decimal digits; no digits gives 0. */
  function ReadSigned(s: string): int {
    if s != [] && (s[0] == '-' || s[0] == '+') then
      var m: int := LeadingDigitsValue(s[1..]);
      Saturate(if s[0] == '-' then -m else m)
    else
      Saturate(LeadingDigitsValue(s))
  }

  /** `intval` of a string: leading white space, an optional sign, then the longest run of
      decimal digits; no digits gives 0. */
  function IntVal(s: string): (n: int)
    ensures INT_MIN <= n <= INT_MAX
  {
    ReadSigned(SkipSpace(s))
  }

  /** `intval` reads back every 64-bit integer PHP prints. */
  lemma {:induction false} IntValOfDecimal(n: int)
    requires INT_MIN <= n <= INT_MAX
    ensures IntVal(IntToDecimal(n)) == n
  {
    IntValOfDecimalPrefix(n, []);
    assert IntToDecimal(n) + [] == IntToDecimal(n);
  }

  /** The number at the start of `digits + rest` is the one `digits` writes. */
  lemma {:induction false} LeadingDigits(digits: string, rest: string)
    requires AllDigits(digits)
    requires rest == [] || !IsDigit(rest[0])
    ensures LeadingDigitsValue(digits + rest) == DigitsValue(digits)
  {
    DigitRunOfDigits(digits, rest);
    assert (digits + rest)[..|digits|] == digits;
  }

  lemma {:induction false} ReadUnsigned(t: string)
    requires t != [] && IsDigit(t[0])
    ensures IntVal(t) == Saturate(LeadingDigitsValue(t))
  {
    assert SkipSpace(t) == t;
  }

  lemma {:induction false} ReadAfterMinus(t: string)
    ensures IntVal("-" + t) == Saturate(-(LeadingDigitsValue(t) as int))
  {
    var s := "-" + t;
    assert s[0] == '-';
    assert SkipSpace(s) == s;
    assert s[1..] == t;
  }

  lemma {:induction false} ReadAfterPlus(t: string)
    ensures IntVal("+" + t) == Saturate(LeadingDigitsValue(t))
  {
    var s := "+" + t;
    assert s[0] == '+';
    assert SkipSpace(s) == s;
    assert s[1..] == t;
  }

  /** `intval` reads the longest run of digits and ignores the text after it; a value
      beyond the 64-bit range saturates. */
  lemma {:induction false} IntValDigits(digits: string, rest: string)
    requires |digits| > 0 && AllDigits(digits)
    requires rest == [] || !IsDigit(rest[0])
    ensures IntVal(digits + rest) == Saturate(DigitsValue(digits))
  {
    LeadingDigits(digits, rest);
    assert (digits + rest)[0] == digits[0];
    ReadUnsigned(digits + rest);
  }

  /** After "+" the digits keep their value before it saturates. */
  lemma {:induction false} IntValPlusDigits(digits: string, rest: string)
    requires |digits| > 0 && AllDigits(digits)
    requires rest == [] || !IsDigit(rest[0])
    ensures IntVal("+" + (digits + rest)) == Saturate(DigitsValue(digits))
  {
    LeadingDigits(digits, rest);
    ReadAfterPlus(digits + rest);
  }

  /** After "-" the digits' value is negated before it saturates. */
  lemma {:induction false} IntValMinusDigits(digits: string, rest: string)
    requires |digits| > 0 && AllDigits(digits)
    requires rest == [] || !IsDigit(rest[0])
    ensures IntVal("-" + (digits + rest)) == Saturate(-(DigitsValue(digits) as int))
  {
    LeadingDigits(digits, rest);
    ReadAfterMinus(digits + rest);
  }

  /** A run of digits above the 64-bit range reads as the largest integer; within the
      range it reads as its value. */
  lemma {:induction false} IntValSaturates(digits: string, rest: string)
    requires |digits| > 0 && AllDigits(digits)
    requires rest == [] || !IsDigit(rest[0])
    ensures DigitsValue(digits) > INT_MAX ==> IntVal(digits + rest) == INT_MAX
    ensures DigitsValue(digits) <= INT_MAX ==> IntVal(digits + rest) == DigitsValue(digits)
  {
    IntValDigits(digits, rest);
  }

  /** With a minus sign, a run of digits below the 64-bit range reads as the smallest
      integer; within the range it reads as its negated value. */
  lemma {:induction false} IntValNegativeSaturates(digits: string, rest: string)
    requires |digits| > 0 && AllDigits(digits)
    requires rest == [] || !IsDigit(rest[0])
    ensures DigitsValue(digits) > -INT_MIN ==> IntVal("-" + (digits + rest)) == INT_MIN
    ensures DigitsValue(digits) <= -INT_MIN ==> IntVal("-" + (digits + rest)) == -(DigitsValue(digits) as int)
  {
    IntValMinusDigits(digits, rest);
    var m: int := DigitsValue(digits);
    assert IntVal("-" + (digits + rest)) == Saturate(-m);
  }

  /** Leading white space is skipped. */
  lemma {:induction false} IntValSkipsSpace(c: char, s: string)
    requires IsSpace(c)
    ensures IntVal([c] + s) == IntVal(s)
  {
    assert ([c] + s)[1..] == s;
    assert SkipSpace([c] + s) == SkipSpace(s);
  }

  /** `intval` reads back every 64-bit integer PHP prints, whatever non-digit text
      follows it. */
  lemma {:induction false} IntValOfDecimalPrefix(n: int, rest: string)
    requires INT_MIN <= n <= INT_MAX
    requires rest == [] || !IsDigit(rest[0])
    ensures IntVal(IntToDecimal(n) + rest) == n
  {
    if n < 0 {
      var d := NatToDecimal(-n);
      NatToDecimalValue(-n);
      assert IntToDecimal(n) + rest == "-" + (d + rest);
      IntValNegativeSaturates(d, rest);
    } else {
      NatToDecimalValue(n);
      IntValSaturates(NatToDecimal(n), rest);
    }
  }

  // ---------------------------------------------------------------------------
  // explode() / implode()

  function Occurrences(s: string, c: char): nat
    decreases |s|
  {
    if s == [] then 0 else (if s[0] == c then 1 else 0) + Occurrences(s[1..], c)
  }

  /** `explode(sep, s)` for a one-character separator: the pieces between separators. */
  function Explode(s: string, sep: char): (parts: seq<string>)
    ensures |parts| >= 1
    decreases |s|
  {
    if s == [] then [""]
    else
      var rest := Explode(s[1..], sep);
      if s[0] == sep then [""] + rest else [[s[0]] + rest[0]] + rest[1..]
  }

  /** `implode(sep, parts)`. */
  function Implode(parts: seq<string>, sep: string): string
    decreases |parts|
  {
    if |parts| == 0 then ""
    else if |parts| == 1 then parts[0]
    else parts[0] + sep + Implode(parts[1..], sep)
  }

  /** k separators give k + 1 pieces. */
  lemma {:induction false} ExplodeCount(s: string, sep: char)
    ensures |Explode(s, sep)| == Occurrences(s, sep) + 1
    decreases |s|
  {
    if s != [] {
      ExplodeCount(s[1..], sep);
    }
  }

  /** No piece contains the separator. */
  lemma {:induction false} ExplodePiecesSeparatorFree(s: string, sep: char)
    ensures forall i :: 0 <= i < |Explode(s, sep)| ==> sep !in Explode(s, sep)[i]
    decreases |s|
  {
    if s != [] {
      ExplodePiecesSeparatorFree(s[1..], sep);
      var rest := Explode(s[1..], sep);
      if s[0] != sep {
        assert sep !in rest[0];
        assert sep !in [s[0]] + rest[0];
      }
    }
  }

  lemma {:induction false} ImplodeHead(x: string, ps: seq<string>, sep: string)
    requires |ps| >= 1
    ensures Implode([x + ps[0]] + ps[1..], sep) == x + Implode(ps, sep)
  {
    var qs := [x + ps[0]] + ps[1..];
    if |ps| > 1 {
      assert qs[1..] == ps[1..];
    }
  }

  /** Joining the pieces with the separator gives back the string. */
  lemma {:induction false} ImplodeExplode(s: string, sep: char)
    ensures Implode(Explode(s, sep), [sep]) == s
    decreases |s|
  {
    if s != [] {
      var rest := Explode(s[1..], sep);
      ImplodeExplode(s[1..], sep);
      if s[0] == sep {
        assert ([""] + rest)[1..] == rest;
        assert Implode([""] + rest, [sep]) == "" + [sep] + Implode(rest, [sep]);
      } else {
        ImplodeHead([s[0]], rest, [sep]);
      }
    }
  }

  lemma {:induction false} ExplodeSeparatorFree(p: string, sep: char)
    requires sep !in p
    ensures Explode(p, sep) == [p]
    decreases |p|
  {
    if p != [] {
      ExplodeSeparatorFree(p[1..], sep);
      assert [p[0]] + p[1..] == p;
    }
  }

  lemma {:induction false} ExplodeAfterPiece(p: string, t: string, sep: char)
    requires sep !in p
    ensures Explode(p + [sep] + t, sep) == [p] + Explode(t, sep)
    decreases |p|
  {
    var s := p + [sep] + t;
    if p == [] {
      assert s[1..] == t;
    } else {
      assert s[1..] == p[1..] + [sep] + t;
      ExplodeAfterPiece(p[1..], t, sep);
      assert [p[0]] + p[1..] == p;
    }
  }

  /** Splitting a join of separator-free pieces gives back the pieces. */
  lemma {:induction false} ExplodeImplode(parts: seq<string>, sep: char)
    requires |parts| >= 1
    requires forall i :: 0 <= i < |parts| ==> sep !in parts[i]
    ensures Explode(Implode(parts, [sep]), sep) == parts
    decreases |parts|
  {
    if |parts| == 1 {
      ExplodeSeparatorFree(parts[0], sep);
    } else {
      ExplodeImplode(parts[1..], sep);
      ExplodeAfterPiece(parts[0], Implode(parts[1..], [sep]), sep);
      assert [parts[0]] + parts[1..] == parts;
    }
  }

  // ---------------------------------------------------------------------------
  // strtolower()

  function AsciiLower(s: string): (r: string)
    ensures |r| == |s|
  {
    seq(|s|, i requires 0 <= i < |s| => if 'A' <= s[i] <= 'Z' then (s[i] as int + 32) as char else s[i])
  }

  // ---------------------------------------------------------------------------
  // pathinfo($path, PATHINFO_EXTENSION)

  /** Position of the last occurrence of `c` in `s`. */
  function LastIndex(s: string, c: char): (r: Option<nat>)
    ensures r.Some? ==> r.value < |s| && s[r.value] == c && c !in s[r.value + 1..]
    ensures r.None? ==> c !in s
    decreases |s|
  {
    if s == [] then None
    else if s[|s| - 1] == c then Some(|s| - 1)
    else
      var r := LastIndex(s[..|s| - 1], c);
      assert s == s[..|s| - 1] + [s[|s| - 1]];
      r
  }

  /** The last component of a path. */
  function Basename(path: string): string {
    match LastIndex(path, '/')
    case None => path
    case Some(i) => path[i + 1..]
  }

  /** What follows the last dot of the base name; "" when the base name has no dot. */
  function Extension(path: string): (ext: string)
    ensures '.' !in ext && '/' !in ext
  {
    var base := Basename(path);
    match LastIndex(base, '.')
    case None => ""
    case Some(i) => base[i + 1..]
  }

  lemma {:induction false} LastIndexSkips(a: string, b: string, c: char)
    requires c !in b
    ensures LastIndex(a + b, c) == LastIndex(a, c)
    decreases |b|
  {
    if b == [] {
      assert a + b == a;
    } else {
      var s := a + b;
      assert s[..|s| - 1] == a + b[..|b| - 1];
      LastIndexSkips(a, b[..|b| - 1], c);
    }
  }

  /** A file named `<stem>.<ext>` has extension `<ext>` (case is kept as written). */
  lemma ExtensionOfName(stem: string, ext: string)
    requires '.' !in ext && '/' !in ext
    ensures Extension(stem + "." + ext) == ext
  {
    var path := stem + "." + ext;
    assert '/' !in "." + ext;
    assert path == stem + ("." + ext);
    LastIndexSkips(stem, "." + ext, '/');
    var x := match LastIndex(stem, '/') case None => stem case Some(i) => stem[i + 1..];
    assert Basename(path) == x + "." + ext;
    LastIndexSkips(x + ".", ext, '.');
    assert x + "." + ext == (x + ".") + ext;
  }

  // ---------------------------------------------------------------------------
  // Values produced by json_decode($text, false) (numbers restricted to integers)

  datatype Json =
    | JNull
    | JBool(b: bool)
    | JInt(i: int)
    | JString(s: string)
    | JArray(items: seq<Json>)
    | JObject(members: map<string, Json>)

  /** The type a TypeError message names for a value of a built-in type, as PHP 8.1 and 8.2 word it. */
  function TypeName(v: Json): string {
    match v
    case JNull => "null"
    case JBool(_) => "bool"
    case JInt(_) => "int"
    case JString(_) => "string"
    case JArray(_) => "array"
    case JObject(_) => "stdClass"
  }

  const PROPERTY_EXISTS_ARGUMENT: string := "property_exists(): Argument #1 ($object_or_class) must be of type object|string, "

  /** What `property_exists` throws when its first argument, of the type named, is
      neither an object nor a string. */
  function PropertyExistsRefused(typeName: string): LdapError {
    LdapError(TypeError, PROPERTY_EXISTS_ARGUMENT + typeName + " given", 0)
  }

  /** PHP's conversion to bool: objects are always true, arrays when non-empty. */
  predicate Truthy(v: Json) {
    match v
    case JNull => false
    case JBool(b) => b
    case JInt(i) => i != 0
    case JString(s) => !IsEmptyString(s)
    case JArray(items) => items != []
    case JObject(_) => true
  }

  /** `intval` of a decoded value. */
  function IntValOf(v: Json): int {
    match v
    case JNull => 0
    case JBool(b) => if b then 1 else 0
    case JInt(i) => i
    case JString(s) => IntVal(s)
    case JArray(items) => if items == [] then 0 else 1
    case JObject(_) => 1
  }
}
