/**
 * The text operations the storefront relies on: lower-casing, substring search,
 * JavaScript's `String(n)` for integers and for two-decimal prices, and the
 * prefix parsers `parseInt` and `parseFloat` (a price is read into cents).
 */
module Text {
  import opened Types

  /** The capitals `toLowerCase` maps here: ASCII A-Z and the Latin-1 capitals À..Þ (but not ×). */
  predicate IsCapital(c: char)
  {
    'A' <= c <= 'Z' || ('\U{C0}' <= c <= '\U{DE}' && c != '\U{D7}')
  }

  /** Lower-casing of one character: a capital becomes its small letter, 32 code points on; any other character stays. */
  function LowerChar(c: char): (r: char)
    ensures IsCapital(c) ==> r as int == c as int + 32
    ensures !IsCapital(c) ==> r == c
  {
    if IsCapital(c) then (c as int + 32) as char else c
  }

  function Lower(s: string): (r: string)
    ensures |r| == |s|
    ensures forall i :: 0 <= i < |s| ==> r[i] == LowerChar(s[i])
  {
    seq(|s|, i requires 0 <= i < |s| => LowerChar(s[i]))
  }

  /** Lower-casing twice is lower-casing once. */
  lemma LowerIdempotent(s: string)
    ensures Lower(Lower(s)) == Lower(s)
  {
    forall i | 0 <= i < |s|
      ensures LowerChar(LowerChar(s[i])) == LowerChar(s[i])
    {
    }
  }

  /** `text.includes(term)`: `term` occurs in `text` at some position. */
  predicate Includes(text: string, term: string)
    decreases |text|
  {
    term <= text || (|text| > 0 && Includes(text[1..], term))
  }

  /** `term` occurs in `text` starting at position `k`. */
  predicate OccursAt(text: string, term: string, k: int)
  {
    0 <= k && k + |term| <= |text| && text[k..k + |term|] == term
  }

  lemma {:induction false} IncludesAt(text: string, term: string, k: int)
    requires OccursAt(text, term, k)
    ensures Includes(text, term)
    decreases k
  {
    if k > 0 {
      assert text[1..][k - 1..k - 1 + |term|] == term;
      IncludesAt(text[1..], term, k - 1);
    } else {
      assert text[..|term|] == term;
    }
  }

  /** The recursive search finds exactly the positional occurrences. */
  lemma {:induction false} IncludesWitness(text: string, term: string)
    requires Includes(text, term)
    ensures exists k :: OccursAt(text, term, k)
    decreases |text|
  {
    if term <= text {
      assert OccursAt(text, term, 0);
    } else {
      IncludesWitness(text[1..], term);
      var k :| OccursAt(text[1..], term, k);
      assert text[k + 1..k + 1 + |term|] == text[1..][k..k + |term|];
      assert OccursAt(text, term, k + 1);
    }
  }

  predicate IsDigit(c: char)
  {
    '0' <= c <= '9'
  }

  predicate AllDigits(s: string)
  {
    forall i :: 0 <= i < |s| ==> IsDigit(s[i])
  }

  function DigitChar(d: int): (c: char)
    requires 0 <= d < 10
    ensures IsDigit(c)
  {
    ('0' as int + d) as char
  }

  function DigitValue(c: char): (d: int)
    requires IsDigit(c)
    ensures 0 <= d < 10 && DigitChar(d) == c
  {
    c as int - '0' as int
  }

  /** The decimal numeral of `n`, as `String(n)` writes a non-negative integer. */
  function NatToString(n: nat): (s: string)
    ensures |s| > 0 && AllDigits(s)
  {
    if n < 10 then [DigitChar(n)] else NatToString(n / 10) + [DigitChar(n % 10)]
  }

  /** `String(n)` for an integer. */
  function IntToString(n: int): (s: string)
    ensures |s| > 0
  {
    if n < 0 then "-" + NatToString(-n) else NatToString(n)
  }

  /** The value of a string of decimal digits, read left to right. */
  function DigitsValue(s: string): nat
    requires AllDigits(s)
  {
    if s == [] then 0 else DigitsValue(s[..|s| - 1]) * 10 + DigitValue(s[|s| - 1])
  }

  /** The length of the longest prefix of `s` made of digits. */
  function LeadingDigits(s: string): (k: nat)
    ensures k <= |s|
  {
    if s != [] && IsDigit(s[0]) then 1 + LeadingDigits(s[1..]) else 0
  }

  /** The prefix `LeadingDigits` measures is all digits, and the character after it is not a digit. */
  lemma {:induction false} LeadingDigitsSpec(s: string)
    ensures AllDigits(s[..LeadingDigits(s)])
    ensures LeadingDigits(s) < |s| ==> !IsDigit(s[LeadingDigits(s)])
  {
    if s != [] && IsDigit(s[0]) {
      LeadingDigitsSpec(s[1..]);
      var k := LeadingDigits(s);
      assert s[..k] == [s[0]] + s[1..][..k - 1];
    }
  }

  lemma {:induction false} LeadingDigitsOf(digits: string, rest: string)
    requires AllDigits(digits) && (rest == [] || !IsDigit(rest[0]))
    ensures LeadingDigits(digits + rest) == |digits|
  {
    if digits == [] {
      assert digits + rest == rest;
    } else {
      assert (digits + rest)[1..] == digits[1..] + rest;
      LeadingDigitsOf(digits[1..], rest);
    }
  }

  lemma {:induction false} NatToStringValue(n: nat)
    ensures DigitsValue(NatToString(n)) == n
  {
    if n >= 10 {
      NatToStringValue(n / 10);
      var s := NatToString(n / 10) + [DigitChar(n % 10)];
      assert s[..|s| - 1] == NatToString(n / 10);
    }
  }

  /**
   * `parseInt(s)`: an optional sign and the longest run of digits after it;
   * no digits there is NaN (None). Leading white space is not modelled.
   */
  function ParseInteger(s: string): (r: Option<int>)
    ensures r.None? <==> LeadingDigits(if |s| > 0 && (s[0] == '-' || s[0] == '+') then s[1..] else s) == 0
  {
    var signed := |s| > 0 && (s[0] == '-' || s[0] == '+');
    var body := if signed then s[1..] else s;
    var k := LeadingDigits(body);
    if k == 0 then None
    else
      LeadingDigitsSpec(body);
      var v: int := DigitsValue(body[..k]);
      Some(if signed && s[0] == '-' then -v else v)
  }

  /** `parseInt` of a run of digits followed by text that does not start with a digit. */
  lemma ParseIntegerDigits(digits: string, rest: string)
    requires |digits| > 0 && AllDigits(digits) && (rest == [] || !IsDigit(rest[0]))
    ensures ParseInteger(digits + rest).Some?
    ensures ParseInteger(digits + rest).value == DigitsValue(digits)
  {
    LeadingDigitsOf(digits, rest);
    assert (digits + rest)[0] == digits[0];
    assert (digits + rest)[..|digits|] == digits;
  }

  /** A leading '-' negates what `parseInt` reads from the rest of the text. */
  lemma ParseIntegerNegative(t: string)
    requires |t| > 0 && IsDigit(t[0])
    ensures ParseInteger(t).Some? ==> ParseInteger("-" + t).Some? && ParseInteger("-" + t).value == -ParseInteger(t).value
  {
    assert ("-" + t)[1..] == t;
  }

  /** A negative integer is written as '-' and its magnitude, which `parseInt` reads back negated. */
  lemma NegativeIntRoundTrip(n: int, rest: string)
    requires n < 0 && (rest == [] || !IsDigit(rest[0]))
    ensures ParseInteger(IntToString(n) + rest).Some? && ParseInteger(IntToString(n) + rest).value == n
  {
    var digits := NatToString(-n);
    NatToStringValue(-n);
    ParseIntegerDigits(digits, rest);
    assert IntToString(n) + rest == "-" + (digits + rest);
    ParseIntegerNegative(digits + rest);
  }

  /** A non-negative integer is written as its digits alone. */
  lemma NonNegativeIntRoundTrip(n: int, rest: string)
    requires n >= 0 && (rest == [] || !IsDigit(rest[0]))
    ensures ParseInteger(IntToString(n) + rest).Some? && ParseInteger(IntToString(n) + rest).value == n
  {
    NatToStringValue(n);
    ParseIntegerDigits(NatToString(n), rest);
  }

  /** `parseInt` reads back what `String` wrote, and stops at the first character that is not a digit. */
  lemma ParseIntegerOfIntToString(n: int, rest: string)
    requires rest == [] || !IsDigit(rest[0])
    ensures ParseInteger(IntToString(n) + rest).Some? && ParseInteger(IntToString(n) + rest).value == n
  {
    if n < 0 {
      NegativeIntRoundTrip(n, rest);
    } else {
      NonNegativeIntRoundTrip(n, rest);
    }
  }

  /** The cents denoted by up to two fractional digits; further digits are dropped. */
  function FractionCents(d: string): (c: nat)
    requires AllDigits(d)
    ensures c < 100
  {
    (if |d| > 0 then DigitValue(d[0]) * 10 else 0) + (if |d| > 1 then DigitValue(d[1]) else 0)
  }

  /** The digits following a leading '.', as far as they run; empty without a point. */
  function FractionDigits(t: string): (d: string)
    ensures AllDigits(d)
  {
    if |t| > 0 && t[0] == '.' then
      LeadingDigitsSpec(t[1..]);
      t[1..][..LeadingDigits(t[1..])]
    else []
  }

  /** `parseFloat` of an unsigned text, in cents. */
  function ParseUnsignedCents(body: string): (r: Option<nat>)
  {
    var k := LeadingDigits(body);
    var frac := FractionDigits(body[k..]);
    if k == 0 && |frac| == 0 then None
    else
      LeadingDigitsSpec(body);
      Some(DigitsValue(body[..k]) * 100 + FractionCents(frac))
  }

  /**
   * `parseFloat(s)` in cents: an optional sign, the longest run of digits, and,
   * after a '.', the longest run of fractional digits; no digit at all is NaN (None).
   */
  function ParseCents(s: string): (r: Option<int>)
  {
    var signed := |s| > 0 && (s[0] == '-' || s[0] == '+');
    var body := if signed then s[1..] else s;
    match ParseUnsignedCents(body)
    case None => None
    case Some(cents) =>
      var v: int := cents;
      Some(if signed && s[0] == '-' then -v else v)
  }

  /** The fractional digits `String` writes for 1..99 cents: one digit, or two without a trailing zero. */
  function FractionText(frac: int): (d: string)
    requires 0 < frac < 100
    ensures 0 < |d| <= 2 && AllDigits(d)
  {
    if frac % 10 == 0 then [DigitChar(frac / 10)] else [DigitChar(frac / 10), DigitChar(frac % 10)]
  }

  lemma FractionTextValue(frac: int)
    requires 0 < frac < 100
    ensures FractionCents(FractionText(frac)) == frac
    ensures LeadingDigits(FractionText(frac)) == |FractionText(frac)|
    ensures FractionText(frac)[..|FractionText(frac)|] == FractionText(frac)
  {
    LeadingDigitsOf(FractionText(frac), "");
    assert FractionText(frac) + "" == FractionText(frac);
  }

  /** `String(x)` for a non-negative amount of `c` cents. */
  function UnsignedCentsToString(c: nat): string
  {
    var whole, frac := c / 100, c % 100;
    if frac == 0 then NatToString(whole) else NatToString(whole) + "." + FractionText(frac)
  }

  /** `String(x)` for an amount of `c` cents. */
  function CentsToString(c: int): string
  {
    if c < 0 then "-" + UnsignedCentsToString(-c) else UnsignedCentsToString(c)
  }

  /** `parseFloat` of an unsigned text whose leading run of `k` digits is not empty. */
  lemma ParseUnsignedAt(t: string, k: nat)
    requires LeadingDigits(t) == k && k > 0 && AllDigits(t[..k])
    ensures ParseUnsignedCents(t) == Some(DigitsValue(t[..k]) * 100 + FractionCents(FractionDigits(t[k..])))
  {
  }

  /** `parseFloat` of a run of digits followed by text that does not start with a digit. */
  lemma ParseUnsignedSplit(digits: string, rest: string)
    requires |digits| > 0 && AllDigits(digits) && (rest == [] || !IsDigit(rest[0]))
    ensures ParseUnsignedCents(digits + rest).Some?
    ensures ParseUnsignedCents(digits + rest).value == DigitsValue(digits) * 100 + FractionCents(FractionDigits(rest))
  {
    var t := digits + rest;
    LeadingDigitsOf(digits, rest);
    ParseUnsignedAt(t, |digits|);
    assert t[..|digits|] == digits;
    assert t[|digits|..] == rest;
  }

  lemma FractionDigitsOf(d: string)
    requires AllDigits(d)
    ensures FractionDigits("." + d) == d
  {
    assert ("." + d)[1..] == d;
    LeadingDigitsOf(d, "");
    assert d + "" == d;
    assert d[..|d|] == d;
  }

  lemma UnsignedCentsRoundTrip(c: nat)
    ensures ParseUnsignedCents(UnsignedCentsToString(c)).Some?
    ensures ParseUnsignedCents(UnsignedCentsToString(c)).value == c
    ensures IsDigit(UnsignedCentsToString(c)[0])
  {
    var whole, frac := c / 100, c % 100;
    var digits := NatToString(whole);
    NatToStringValue(whole);
    assert IsDigit(digits[0]);
    if frac == 0 {
      ParseUnsignedSplit(digits, "");
      assert digits + "" == digits;
    } else {
      var d := FractionText(frac);
      ParseUnsignedSplit(digits, "." + d);
      assert digits + "." + d == digits + ("." + d);
      FractionDigitsOf(d);
      FractionTextValue(frac);
    }
  }

  /** '-' followed by the text of `m` cents reads back as `c`, which is minus `m` cents. */
  lemma NegatedCentsRoundTrip(m: nat, c: int)
    requires c == -(m as int)
    ensures ParseCents("-" + UnsignedCentsToString(m)) == Some(c)
  {
    var u := UnsignedCentsToString(m);
    UnsignedCentsRoundTrip(m);
    assert ("-" + u)[1..] == u;
  }

  /** A negative amount is written as '-' and the text of its magnitude. */
  lemma NegativeCentsRoundTrip(c: int)
    requires c < 0
    ensures ParseCents(CentsToString(c)) == Some(c)
  {
    NegatedCentsRoundTrip(-c, c);
    assert CentsToString(c) == "-" + UnsignedCentsToString(-c);
  }

  /** A non-negative amount is written as the unsigned text, which starts with a digit and so has no sign. */
  lemma NonNegativeCentsRoundTrip(c: int)
    requires c >= 0
    ensures ParseCents(CentsToString(c)) == Some(c)
  {
    UnsignedCentsRoundTrip(c);
  }

  /** `parseFloat` reads back, exactly, a price that `String` wrote. */
  lemma CentsRoundTrip(c: int)
    ensures ParseCents(CentsToString(c)) == Some(c)
  {
    if c < 0 {
      NegativeCentsRoundTrip(c);
    } else {
      NonNegativeCentsRoundTrip(c);
    }
  }
}
