/** Character classes and string operations of the Rust standard library
    (`char::is_whitespace`, `str::trim`, ASCII case mapping, integer formatting)
    and the few Python string operations the worker script relies on. */
module Strings {

  /** Rust's `char::is_whitespace`: the Unicode White_Space property. */
  predicate IsWhitespace(c: char) {
    c == ' ' || ('\t' <= c <= '\r') || c == '\U{85}' || c == '\U{A0}' || c == '\U{1680}'
    || ('\U{2000}' <= c <= '\U{200A}') || c == '\U{2028}' || c == '\U{2029}'
    || c == '\U{202F}' || c == '\U{205F}' || c == '\U{3000}'
  }

  /** Python's `str.isspace` on one character, which also counts the four
      information separators U+001C..U+001F. */
  predicate IsPyWhitespace(c: char) {
    IsWhitespace(c) || ('\U{1C}' <= c <= '\U{1F}')
  }

  /** Which language's notion of whitespace a trim uses. */
  datatype Blanks = RustBlanks | PythonBlanks

  predicate Blank(ws: Blanks, c: char) {
    if ws == RustBlanks then IsWhitespace(c) else IsPyWhitespace(c)
  }

  predicate AllBlank(s: string, ws: Blanks) {
    forall i :: 0 <= i < |s| ==> Blank(ws, s[i])
  }

  predicate NoneBlank(s: string, ws: Blanks) {
    forall i :: 0 <= i < |s| ==> !Blank(ws, s[i])
  }

  /** How many characters at the start of `s` are blank. */
  function LeadingBlanks(s: string, ws: Blanks): (n: nat)
    ensures n <= |s|
    ensures n < |s| ==> !Blank(ws, s[n])
  {
    if s != [] && Blank(ws, s[0]) then 1 + LeadingBlanks(s[1..], ws) else 0
  }

  /** How many characters at the end of `s` are blank. */
  function TrailingBlanks(s: string, ws: Blanks): (n: nat)
    ensures n <= |s|
    ensures n < |s| ==> !Blank(ws, s[|s| - 1 - n])
  {
    if s != [] && Blank(ws, s[|s| - 1]) then 1 + TrailingBlanks(s[..|s| - 1], ws) else 0
  }

  /** Every character the leading count covers is blank. */
  lemma {:induction false} LeadingAreBlank(s: string, ws: Blanks)
    ensures forall i :: 0 <= i < LeadingBlanks(s, ws) ==> Blank(ws, s[i])
  {
    if s != [] && Blank(ws, s[0]) {
      LeadingAreBlank(s[1..], ws);
      assert forall i :: 1 <= i < |s| ==> s[i] == s[1..][i - 1];
    }
  }

  /** Every character the trailing count covers is blank. */
  lemma {:induction false} TrailingAreBlank(s: string, ws: Blanks)
    ensures forall i :: |s| - TrailingBlanks(s, ws) <= i < |s| ==> Blank(ws, s[i])
  {
    if s != [] && Blank(ws, s[|s| - 1]) {
      TrailingAreBlank(s[..|s| - 1], ws);
      assert forall i :: 0 <= i < |s| - 1 ==> s[i] == s[..|s| - 1][i];
    }
  }

  /** `str::trim_start` with the given whitespace: drops the blank prefix. */
  function TrimStartBy(s: string, ws: Blanks): (r: string)
    ensures r == [] || !Blank(ws, r[0])
  {
    s[LeadingBlanks(s, ws)..]
  }

  /** `str::trim_end` with the given whitespace: drops the blank suffix. */
  function TrimEndBy(s: string, ws: Blanks): (r: string)
    ensures r == [] || !Blank(ws, r[|r| - 1])
  {
    s[..|s| - TrailingBlanks(s, ws)]
  }

  /** A blank prefix is trimmed away entirely. */
  lemma {:induction false} LeadingBlanksAfterBlank(b: string, x: string, ws: Blanks)
    requires AllBlank(b, ws)
    ensures LeadingBlanks(b + x, ws) == |b| + LeadingBlanks(x, ws)
  {
    if b != [] {
      assert (b + x)[0] == b[0];
      assert (b + x)[1..] == b[1..] + x;
      assert AllBlank(b[1..], ws) by {
        assert forall i :: 0 <= i < |b| - 1 ==> b[1..][i] == b[i + 1];
      }
      LeadingBlanksAfterBlank(b[1..], x, ws);
    } else {
      assert b + x == x;
    }
  }

  lemma TrimStartAfterBlank(b: string, x: string, ws: Blanks)
    requires AllBlank(b, ws)
    ensures TrimStartBy(b + x, ws) == TrimStartBy(x, ws)
  {
    LeadingBlanksAfterBlank(b, x, ws);
    var n := LeadingBlanks(x, ws);
    assert (b + x)[|b| + n..] == x[n..];
  }

  function TrimBy(s: string, ws: Blanks): (r: string)
    ensures r == [] || (!Blank(ws, r[0]) && !Blank(ws, r[|r| - 1]))
  {
    var t := TrimStartBy(s, ws);
    var r := TrimEndBy(t, ws);
    assert r != [] ==> r[0] == t[0];
    r
  }

  /** A trim is empty exactly when every character is blank. */
  lemma TrimEmptyIff(s: string, ws: Blanks)
    ensures TrimBy(s, ws) == [] <==> AllBlank(s, ws)
  {
    var n := LeadingBlanks(s, ws);
    var t := TrimStartBy(s, ws);
    LeadingAreBlank(s, ws);
    TrailingAreBlank(t, ws);
    if t != [] {
      assert TrimEndBy(t, ws) != [] by {
        assert !Blank(ws, t[0]);
      }
      assert s[n] == t[0];
    }
  }

  /** `str::trim` of Rust. */
  function Trim(s: string): string {
    TrimBy(s, RustBlanks)
  }

  /** `str.strip()` of Python (no argument). */
  function PyStrip(s: string): string {
    TrimBy(s, PythonBlanks)
  }

  lemma TrimStartIdempotent(s: string, ws: Blanks)
    ensures TrimStartBy(TrimStartBy(s, ws), ws) == TrimStartBy(s, ws)
  {
    var r := TrimStartBy(s, ws);
    assert LeadingBlanks(r, ws) == 0;
    assert r[0..] == r;
  }

  lemma TrimEndIdempotent(s: string, ws: Blanks)
    ensures TrimEndBy(TrimEndBy(s, ws), ws) == TrimEndBy(s, ws)
  {
    var r := TrimEndBy(s, ws);
    assert TrailingBlanks(r, ws) == 0;
    assert r[..|r|] == r;
  }

  /** A string that neither starts nor ends with a blank is its own trim. */
  lemma TrimOfTrimmed(s: string, ws: Blanks)
    requires s == [] || (!Blank(ws, s[0]) && !Blank(ws, s[|s| - 1]))
    ensures TrimBy(s, ws) == s
  {
    assert LeadingBlanks(s, ws) == 0;
    assert s[0..] == s;
    assert TrailingBlanks(s, ws) == 0;
    assert s[..|s|] == s;
  }

  /** Trimming twice trims once. */
  lemma TrimIdempotent(s: string, ws: Blanks)
    ensures TrimBy(TrimBy(s, ws), ws) == TrimBy(s, ws)
  {
    TrimOfTrimmed(TrimBy(s, ws), ws);
  }

  /** What a trim leaves is a contiguous piece of the input: trimming only removes,
      and only blanks. */
  lemma TrimIsInfix(s: string, ws: Blanks)
    ensures exists a, b :: 0 <= a <= b <= |s| && TrimBy(s, ws) == s[a..b]
                           && (forall i :: 0 <= i < a ==> Blank(ws, s[i]))
                           && (forall i :: b <= i < |s| ==> Blank(ws, s[i]))
  {
    var a := LeadingBlanks(s, ws);
    var t := s[a..];
    var m := TrailingBlanks(t, ws);
    var b := a + |t| - m;
    assert TrimStartBy(s, ws) == t;
    assert TrimBy(s, ws) == t[..|t| - m];
    assert t[..|t| - m] == s[a..b];
    assert forall i :: 0 <= i < a ==> Blank(ws, s[i]) by {
      LeadingAreBlank(s, ws);
    }
    assert forall i :: b <= i < |s| ==> Blank(ws, s[i]) by {
      TrailingAreBlank(t, ws);
      assert forall i :: b <= i < |s| ==> s[i] == t[i - a];
    }
  }

  function AsciiLowerChar(c: char): (r: char)
    ensures 'A' <= c <= 'Z' ==> r as int == c as int + 32
    ensures !('A' <= c <= 'Z') ==> r == c
  {
    if 'A' <= c <= 'Z' then (c as int + 32) as char else c
  }

  function AsciiUpperChar(c: char): (r: char)
    ensures 'a' <= c <= 'z' ==> r as int == c as int - 32
    ensures !('a' <= c <= 'z') ==> r == c
  {
    if 'a' <= c <= 'z' then (c as int - 32) as char else c
  }

  /** Lower-cases the ASCII letters of `s`; every other character is kept. */
  function AsciiLower(s: string): (r: string)
    ensures |r| == |s|
    ensures forall i :: 0 <= i < |s| ==> r[i] == AsciiLowerChar(s[i])
  {
    seq(|s|, i requires 0 <= i < |s| => AsciiLowerChar(s[i]))
  }

  /** `str::eq_ignore_ascii_case`. */
  predicate EqIgnoreAsciiCase(a: string, b: string) {
    AsciiLower(a) == AsciiLower(b)
  }

  /** ASCII case mapping neither creates nor removes whitespace. */
  lemma AsciiCaseMapsKeepWhitespace(c: char, ws: Blanks)
    ensures Blank(ws, AsciiLowerChar(c)) <==> Blank(ws, c)
    ensures Blank(ws, AsciiUpperChar(c)) <==> Blank(ws, c)
  {
  }

  lemma AsciiLowerSplit(s: string)
    requires s != []
    ensures AsciiLower(s)[0] == AsciiLowerChar(s[0])
    ensures AsciiLower(s)[1..] == AsciiLower(s[1..])
    ensures AsciiLower(s)[..|s| - 1] == AsciiLower(s[..|s| - 1])
  {
  }

  lemma {:induction false} LeadingBlanksOfLower(s: string, ws: Blanks)
    ensures LeadingBlanks(AsciiLower(s), ws) == LeadingBlanks(s, ws)
  {
    if s != [] {
      AsciiLowerSplit(s);
      AsciiCaseMapsKeepWhitespace(s[0], ws);
      LeadingBlanksOfLower(s[1..], ws);
    }
  }

  lemma {:induction false} TrailingBlanksOfLower(s: string, ws: Blanks)
    ensures TrailingBlanks(AsciiLower(s), ws) == TrailingBlanks(s, ws)
  {
    if s != [] {
      AsciiLowerSplit(s);
      AsciiCaseMapsKeepWhitespace(s[|s| - 1], ws);
      TrailingBlanksOfLower(s[..|s| - 1], ws);
    }
  }

  /** Lower-casing and trimming the start commute. */
  lemma LowerTrimStartCommute(s: string, ws: Blanks)
    ensures AsciiLower(TrimStartBy(s, ws)) == TrimStartBy(AsciiLower(s), ws)
  {
    LeadingBlanksOfLower(s, ws);
    var n := LeadingBlanks(s, ws);
    assert AsciiLower(s[n..]) == AsciiLower(s)[n..];
  }

  /** Lower-casing and trimming the end commute. */
  lemma LowerTrimEndCommute(s: string, ws: Blanks)
    ensures AsciiLower(TrimEndBy(s, ws)) == TrimEndBy(AsciiLower(s), ws)
  {
    TrailingBlanksOfLower(s, ws);
    var n := TrailingBlanks(s, ws);
    assert AsciiLower(s[..|s| - n]) == AsciiLower(s)[..|s| - n];
  }

  lemma LowerTrimCommute(s: string, ws: Blanks)
    ensures TrimBy(AsciiLower(s), ws) == AsciiLower(TrimBy(s, ws))
  {
    LowerTrimStartCommute(s, ws);
    LowerTrimEndCommute(TrimStartBy(s, ws), ws);
  }

  lemma AsciiUpperIdempotent(c: char)
    ensures AsciiUpperChar(AsciiUpperChar(c)) == AsciiUpperChar(c)
  {
  }

  lemma EqIgnoreAsciiCaseExamples()
    ensures EqIgnoreAsciiCase("Wayland", "wayland")
    ensures EqIgnoreAsciiCase("X11", "x11")
    ensures !EqIgnoreAsciiCase("x11", "x12")
  {
    assert AsciiLower("Wayland") == "wayland";
    assert AsciiLower("X11") == "x11";
    assert AsciiLower("x12")[2] != AsciiLower("x11")[2];
  }

  function DigitChar(d: nat): (c: char)
    requires d < 10
    ensures '0' <= c <= '9' && c as int - '0' as int == d
  {
    ('0' as int + d) as char
  }

  /** Decimal rendering of a natural number, as `Display` for unsigned integers
      and `str()` of a non-negative Python int produce it. */
  function NatToString(n: nat): (r: string)
    ensures r != []
    ensures forall i :: 0 <= i < |r| ==> '0' <= r[i] <= '9'
    ensures |r| > 1 ==> r[0] != '0'
  {
    if n < 10 then [DigitChar(n)] else NatToString(n / 10) + [DigitChar(n % 10)]
  }

  /** Decimal rendering of an integer, with a leading `-` when negative. */
  function IntToString(i: int): (r: string)
    ensures r != []
    ensures i < 0 <==> r[0] == '-'
  {
    if i < 0 then "-" + NatToString(-i) else NatToString(i)
  }

  predicate IsDigits(s: string) {
    s != [] && forall i :: 0 <= i < |s| ==> '0' <= s[i] <= '9'
  }

  /** The value of a string of ASCII decimal digits. */
  function DigitsValue(s: string): (n: nat)
    requires IsDigits(s)
  {
    if |s| == 1 then s[0] as int - '0' as int
    else DigitsValue(s[..|s| - 1]) * 10 + (s[|s| - 1] as int - '0' as int)
  }

  /** Reading a rendered number back gives the number. */
  lemma {:induction false} NatToStringRoundTrip(n: nat)
    ensures IsDigits(NatToString(n)) && DigitsValue(NatToString(n)) == n
  {
    if n >= 10 {
      NatToStringRoundTrip(n / 10);
      var r := NatToString(n);
      assert r[..|r| - 1] == NatToString(n / 10);
    }
  }

  /** Different numbers render differently. */
  lemma NatToStringInjective(m: nat, n: nat)
    requires NatToString(m) == NatToString(n)
    ensures m == n
  {
    NatToStringRoundTrip(m);
    NatToStringRoundTrip(n);
  }
}
