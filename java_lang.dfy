/**
 * The parts of the Java platform the configuration loader relies on:
 * the 32-bit `int`, `String.trim()`, `Integer.parseInt` in radix 10 and
 * the character classes of `java.util.regex` used by the naming pattern.
 */
module JavaLang {
  import opened Wrappers

  /** Java's `int`. */
  newtype int32 = x: int | -0x8000_0000 <= x < 0x8000_0000

  // ---------------------------------------------------------------------
  // String.trim()
  // ---------------------------------------------------------------------

  /** `String.trim()` removes every leading and trailing char whose code is at most U+0020. */
  predicate IsTrimmable(c: char) { c <= ' ' }

  predicate AllTrimmable(s: string) { forall k :: 0 <= k < |s| ==> IsTrimmable(s[k]) }

  /** Number of trimmable chars at the front of `s`. */
  function LeadingTrimmable(s: string): (n: nat)
    ensures n <= |s|
    ensures AllTrimmable(s[..n])
    ensures n < |s| ==> !IsTrimmable(s[n])
  {
    if s == [] || !IsTrimmable(s[0]) then 0
    else
      var n := 1 + LeadingTrimmable(s[1..]);
      assert s[..n] == [s[0]] + s[1..][..n - 1];
      n
  }

  /** Number of trimmable chars at the back of `s`. */
  function TrailingTrimmable(s: string): (n: nat)
    ensures n <= |s|
    ensures AllTrimmable(s[|s| - n..])
    ensures n < |s| ==> !IsTrimmable(s[|s| - 1 - n])
  {
    if s == [] || !IsTrimmable(s[|s| - 1]) then 0
    else
      var init := s[..|s| - 1];
      var n := 1 + TrailingTrimmable(init);
      assert s[|s| - n..] == init[|init| - (n - 1)..] + [s[|s| - 1]];
      n
  }

  /**
   * `String.trim()`: the longest infix of `s` whose first and last chars are
   * not trimmable, where everything around it is trimmable.
   */
  function Trim(s: string): (r: string)
    ensures LeadingTrimmable(s) + |r| <= |s|
    ensures r == s[LeadingTrimmable(s)..LeadingTrimmable(s) + |r|]
    ensures AllTrimmable(s[..LeadingTrimmable(s)])
    ensures AllTrimmable(s[LeadingTrimmable(s) + |r|..])
    ensures r != [] ==> !IsTrimmable(r[0]) && !IsTrimmable(r[|r| - 1])
  {
    var lead := LeadingTrimmable(s);
    var rest := s[lead..];
    var trail := TrailingTrimmable(rest);
    assert rest[|rest| - trail..] == s[lead + (|rest| - trail)..];
    rest[..|rest| - trail]
  }

  // ---------------------------------------------------------------------
  // java.util.regex character classes (default flags)
  // ---------------------------------------------------------------------

  /** `\d`: an ASCII decimal digit. */
  predicate IsDigit(c: char) { '0' <= c <= '9' }

  predicate AllDigits(s: string) { forall k :: 0 <= k < |s| ==> IsDigit(s[k]) }

  /** `\s`: one of space, tab, newline, vertical tab, form feed, carriage return. */
  predicate IsRegexWhitespace(c: char) {
    c == ' ' || c == '\t' || c == '\n' || c == '\U{000B}' || c == '\U{000C}' || c == '\r'
  }

  /** The line terminators that `.` does not match when DOTALL is off. */
  predicate IsLineTerminator(c: char) {
    c == '\n' || c == '\r' || c == '\U{0085}' || c == '\U{2028}' || c == '\U{2029}'
  }

  // ---------------------------------------------------------------------
  // Integer.parseInt(s) and Integer.toString(n), radix 10
  // ---------------------------------------------------------------------

  /** The value of a string of decimal digits, most significant first. */
  function DigitsValue(s: string): (v: nat)
    requires AllDigits(s)
  {
    if s == [] then 0
    else 10 * DigitsValue(s[..|s| - 1]) + (s[|s| - 1] as int - '0' as int)
  }

  /**
   * `Integer.parseInt(s)`: an optional `+` or `-` followed by one or more
   * digits whose value fits in an `int`; anything else throws
   * NumberFormatException, which is `None` here.
   */
  function ParseInt(s: string): (r: Option<int32>)
    ensures r.Some? ==> |s| > 0 && AllDigits(s[1..])
    ensures r.Some? ==> IsDigit(s[0]) || (|s| >= 2 && (s[0] == '+' || s[0] == '-'))
    ensures r.Some? && s[0] != '-' ==> r.value >= 0
  {
    if s == [] then None
    else
      var signed := s[0] == '-' || s[0] == '+';
      var digits := if signed then s[1..] else s;
      if digits == [] || !AllDigits(digits) then None
      else
        var magnitude: int := DigitsValue(digits);
        var v := if s[0] == '-' then -magnitude else magnitude;
        if -0x8000_0000 <= v < 0x8000_0000 then Some(v as int32) else None
  }

  function DigitChar(d: nat): (c: char)
    requires d < 10
    ensures IsDigit(c) && c as int - '0' as int == d
  {
    ('0' as int + d) as char
  }

  /** The decimal digits of `n` without leading zeros. */
  function NatDigits(n: nat): (s: string)
    ensures |s| > 0 && AllDigits(s)
    decreases n
  {
    if n < 10 then [DigitChar(n)] else NatDigits(n / 10) + [DigitChar(n % 10)]
  }

  /** `Integer.toString(n)`. */
  function IntToString(n: int32): (s: string)
    ensures |s| > 0
    ensures s[0] == '-' <==> n < 0
  {
    if n < 0 then "-" + NatDigits(-(n as int)) else NatDigits(n as int)
  }

  lemma {:induction false} NatDigitsValue(n: nat)
    ensures DigitsValue(NatDigits(n)) == n
    decreases n
  {
    var s := NatDigits(n);
    if n >= 10 {
      NatDigitsValue(n / 10);
      assert s[..|s| - 1] == NatDigits(n / 10);
    }
  }

  /** A leading zero does not change the value of a digit string. */
  lemma {:induction false} DigitsValueLeadingZero(d: string)
    requires AllDigits(d)
    ensures AllDigits("0" + d) && DigitsValue("0" + d) == DigitsValue(d)
    decreases |d|
  {
    var t := "0" + d;
    assert forall k :: 0 < k < |t| ==> t[k] == d[k - 1];
    if d != [] {
      DigitsValueLeadingZero(d[..|d| - 1]);
      assert t[..|t| - 1] == "0" + d[..|d| - 1];
    }
  }

  /**
   * `Integer.parseInt` accepts every optional sign followed by one or more
   * digits, leading zeros and `+` included, as the signed value of the
   * digits when that value fits in an `int`, and throws otherwise.
   */
  lemma ParseIntSignedDigits(sign: string, digits: string)
    requires sign == "" || sign == "+" || sign == "-"
    requires |digits| > 0 && AllDigits(digits)
    ensures var v := if sign == "-" then -(DigitsValue(digits) as int) else DigitsValue(digits) as int;
            ParseInt(sign + digits) == if -0x8000_0000 <= v < 0x8000_0000 then Some(v as int32) else None
  {
    var t := sign + digits;
    var m: int := DigitsValue(digits);
    if sign == "" {
      assert t == digits;
      assert t[0] != '-' && t[0] != '+' by { assert IsDigit(t[0]); }
      assert ParseInt(t) == if m < 0x8000_0000 then Some(m as int32) else None;
    } else {
      assert t[0] == sign[0] && t[1..] == digits;
      var v := if sign == "-" then -m else m;
      assert ParseInt(t) == if -0x8000_0000 <= v < 0x8000_0000 then Some(v as int32) else None;
    }
  }

  /** `Integer.parseInt` reads back every value `Integer.toString` writes. */
  lemma ParseIntToString(n: int32)
    ensures ParseInt(IntToString(n)) == Some(n)
  {
    var s := IntToString(n);
    if n < 0 {
      NatDigitsValue(-(n as int));
      assert s[1..] == NatDigits(-(n as int));
    } else {
      NatDigitsValue(n as int);
      assert NatDigits(n as int)[0] != '-';
    }
  }
}
