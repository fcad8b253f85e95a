/** The two pieces of text handling the proxy relies on: `str::trim` (to recognise a blank
    query) and the decimal rendering of an unsigned integer (`{}` on a `usize` or a status
    code), together with its inverse. */
module Text {

  /** Unicode's White_Space property, which `char::is_whitespace` and therefore `str::trim`
      use: the ASCII controls TAB..CR, SPACE, NEL, NO-BREAK SPACE, OGHAM SPACE MARK, the
      spaces U+2000..U+200A, LINE and PARAGRAPH SEPARATOR, NARROW NO-BREAK SPACE, MEDIUM
      MATHEMATICAL SPACE and IDEOGRAPHIC SPACE. */
  predicate IsWhitespace(c: char): (b: bool)
    ensures b <==> c as int in WhiteSpaceCodePoints
  {
    var n := c as int;
    || 0x09 <= n <= 0x0D
    || n == 0x20
    || n == 0x85
    || n == 0xA0
    || n == 0x1680
    || 0x2000 <= n <= 0x200A
    || n == 0x2028
    || n == 0x2029
    || n == 0x202F
    || n == 0x205F
    || n == 0x3000
  }

  /** The White_Space code points of the Unicode Character Database (PropList.txt), one by one. */
  const WhiteSpaceCodePoints: set<int> := {
    0x09, 0x0A, 0x0B, 0x0C, 0x0D, 0x20, 0x85, 0xA0, 0x1680,
    0x2000, 0x2001, 0x2002, 0x2003, 0x2004, 0x2005, 0x2006, 0x2007, 0x2008, 0x2009, 0x200A,
    0x2028, 0x2029, 0x202F, 0x205F, 0x3000
  }

  /** The string holds at least one character that trimming keeps. */
  predicate HasVisibleChar(s: string) {
    exists k :: 0 <= k < |s| && !IsWhitespace(s[k])
  }

  /** How many whitespace characters `s` starts with: everything before that count is
      whitespace, and the character at it, if any, is not. */
  function LeadingWhitespace(s: string): (n: nat)
    ensures n <= |s|
    ensures forall k :: 0 <= k < n ==> IsWhitespace(s[k])
    ensures n < |s| ==> !IsWhitespace(s[n])
  {
    if s != [] && IsWhitespace(s[0]) then 1 + LeadingWhitespace(s[1..]) else 0
  }

  /** Where the whitespace `s` ends with begins: everything from that position on is
      whitespace, and the character just before it, if any, is not. */
  function TrailingWhitespaceStart(s: string): (n: nat)
    ensures n <= |s|
    ensures forall k :: n <= k < |s| ==> IsWhitespace(s[k])
    ensures 0 < n ==> !IsWhitespace(s[n - 1])
  {
    if s != [] && IsWhitespace(s[|s| - 1]) then TrailingWhitespaceStart(s[..|s| - 1]) else |s|
  }

  /** `str::trim`: whitespace removed from both ends. The result is the slice of `s` between
      its leading and its trailing whitespace, and it has a visible character at each end. */
  function Trim(s: string): (r: string)
    ensures var i := LeadingWhitespace(s);
            && i + |r| <= |s|
            && r == s[i..i + |r|]
            && (forall k :: 0 <= k < i ==> IsWhitespace(s[k]))
            && (forall k :: i + |r| <= k < |s| ==> IsWhitespace(s[k]))
    ensures r != [] ==> !IsWhitespace(r[0]) && !IsWhitespace(r[|r| - 1])
  {
    var i := LeadingWhitespace(s);
    var j := TrailingWhitespaceStart(s);
    if j <= i then [] else s[i..j]
  }

  /** `s.trim().is_empty()` */
  predicate IsBlank(s: string) {
    Trim(s) == []
  }

  /** A string trims to nothing exactly when every character of it is whitespace. */
  lemma BlankIffAllWhitespace(s: string)
    ensures IsBlank(s) <==> forall k :: 0 <= k < |s| ==> IsWhitespace(s[k])
    ensures IsBlank(s) <==> !HasVisibleChar(s)
  {
    var r := Trim(s);
    if r != [] {
      assert r[0] == s[LeadingWhitespace(s)];
    }
  }

  predicate IsDigit(c: char) {
    '0' <= c <= '9'
  }

  predicate AllDigits(s: string) {
    forall k :: 0 <= k < |s| ==> IsDigit(s[k])
  }

  function DigitChar(d: nat): (c: char)
    requires d < 10
    ensures IsDigit(c) && c as int - '0' as int == d
  {
    ('0' as int + d) as char
  }

  /** Renders `n` the way Rust's `{}` renders an unsigned integer: decimal digits, most
      significant first, with no leading zero except for `0` itself. */
  function NatToString(n: nat): (r: string)
    ensures r != [] && AllDigits(r)
    ensures |r| > 1 ==> r[0] != '0'
    decreases n
  {
    if n < 10 then [DigitChar(n)] else NatToString(n / 10) + [DigitChar(n % 10)]
  }

  /** The value of a string of decimal digits. */
  function DecimalValue(s: string): nat
    requires AllDigits(s)
  {
    if s == [] then 0 else DecimalValue(s[..|s| - 1]) * 10 + (s[|s| - 1] as int - '0' as int)
  }

  /** Reading back the rendering of `n` gives `n`. */
  lemma {:induction false} DecimalRoundTrip(n: nat)
    ensures DecimalValue(NatToString(n)) == n
    decreases n
  {
    if n >= 10 {
      DecimalRoundTrip(n / 10);
      var s := NatToString(n);
      assert s[..|s| - 1] == NatToString(n / 10);
    }
  }

  /** Rendering is injective: two numbers render alike only when they are equal. */
  lemma NatToStringInjective(a: nat, b: nat)
    ensures NatToString(a) == NatToString(b) ==> a == b
  {
    DecimalRoundTrip(a);
    DecimalRoundTrip(b);
  }

  /** A digit string in canonical form (no leading zero unless it is "0") is the rendering
      of its own value, so rendering and reading back are mutually inverse. */
  lemma {:induction false} CanonicalDigitsRoundTrip(s: string)
    requires s != [] && AllDigits(s)
    requires |s| > 1 ==> s[0] != '0'
    ensures NatToString(DecimalValue(s)) == s
    decreases |s|
  {
    var init := s[..|s| - 1];
    var last := s[|s| - 1] as int - '0' as int;
    if |s| == 1 {
      assert DecimalValue(s) == last;
      assert [DigitChar(last)] == s;
    } else {
      CanonicalDigitsRoundTrip(init);
      assert init[0] == s[0];
      LeadingDigitPositive(init);
      var n := DecimalValue(s);
      assert n == DecimalValue(init) * 10 + last;
      assert n / 10 == DecimalValue(init) && n % 10 == last;
      assert NatToString(n) == NatToString(DecimalValue(init)) + [DigitChar(last)];
      assert s == init + [s[|s| - 1]];
    }
  }

  /** A canonical digit string that does not start with '0' has a positive value. */
  lemma {:induction false} LeadingDigitPositive(s: string)
    requires s != [] && AllDigits(s) && s[0] != '0'
    ensures DecimalValue(s) > 0
    decreases |s|
  {
    if |s| > 1 {
      var init := s[..|s| - 1];
      assert init[0] == s[0];
      LeadingDigitPositive(init);
    }
  }
}
