/** Decimal numbers in headers and URIs (`protocol/crypto.go:938-959`). */
module Decimal {
  import opened Prelude

  predicate IsDigit(c: char) {
    '0' <= c <= '9'
  }

  predicate AllDigits(s: string) {
    forall i :: 0 <= i < |s| ==> IsDigit(s[i])
  }

  function DigitOf(n: nat): (c: char)
    requires n < 10
    ensures IsDigit(c) && c as int - '0' as int == n
  {
    ('0' as int + n) as char
  }

  /** `strconv.FormatUint`, base 10. */
  function Format(n: nat): (s: string)
    ensures s != [] && AllDigits(s)
  {
    if n < 10 then [DigitOf(n)] else Format(n / 10) + [DigitOf(n % 10)]
  }

  function ValueOf(s: string): nat
    requires AllDigits(s)
  {
    if s == [] then 0 else 10 * ValueOf(s[..|s| - 1]) + (s[|s| - 1] as int - '0' as int)
  }

  /** `strconv.ParseUint`, base 10, for numbers below `limit`. Leading zeros are accepted. */
  function ParseUint(s: string, limit: nat): Option<nat> {
    if s != [] && AllDigits(s) && ValueOf(s) < limit then Some(ValueOf(s)) else None
  }

  /** `strconv.ParseInt`, base 10, of 64 bits: a sign may come first. */
  function ParseInt64(s: string): Option<int> {
    var signed := s != [] && (s[0] == '+' || s[0] == '-');
    var digits := if signed then s[1..] else s;
    if signed && s[0] == '-' then
      var n := ParseUint(digits, 0x8000_0000_0000_0001);
      if n.None? then None else var magnitude: int := n.value; Some(-magnitude)
    else
      var n := ParseUint(digits, 0x8000_0000_0000_0000);
      if n.Some? then Some(n.value) else None
  }

  lemma {:induction false} FormatReadsBack(n: nat)
    ensures ValueOf(Format(n)) == n
  {
    if n >= 10 {
      FormatReadsBack(n / 10);
      assert Format(n)[..|Format(n)| - 1] == Format(n / 10);
    }
  }

  lemma ParseFormat(n: nat, limit: nat)
    requires n < limit
    ensures ParseUint(Format(n), limit) == Some(n)
  {
    FormatReadsBack(n);
  }

  lemma ParseFormatInt(n: nat)
    requires n < 0x8000_0000_0000_0000
    ensures ParseInt64(Format(n)) == Some(n)
  {
    ParseFormat(n, 0x8000_0000_0000_0000);
    assert IsDigit(Format(n)[0]);
  }

  // ---- If-Match --------------------------------------------------------------------------------

  const UINT64_LIMIT := 0x1_0000_0000_0000_0000

  function QuoteETag(version: nat): string {
    ['"'] + Format(version) + ['"']
  }

  /** What `strings.TrimSpace` removes, for ASCII strings. */
  predicate IsSpace(c: char) {
    c == ' ' || '\t' <= c <= '\r'
  }

  predicate IsBlank(s: string) {
    forall i :: 0 <= i < |s| ==> IsSpace(s[i])
  }

  datatype IfMatch = Absent | Version(version: nat) | Malformed

  function ParseIfMatch(value: string): IfMatch {
    if IsBlank(value) then Absent
    else if |value| < 3 || value[0] != '"' || value[|value| - 1] != '"' then Malformed
    else
      var version := ParseUint(value[1..|value| - 1], UINT64_LIMIT);
      if version.None? || QuoteETag(version.value) != value then Malformed
      else Version(version.value)
  }

  /** A header is read as a version exactly if it is that version's quoted form: the guard a server
      checks is the guard the client meant. */
  lemma IfMatchExactly(value: string, version: nat)
    ensures ParseIfMatch(value) == Version(version) <==> value == QuoteETag(version) && version < UINT64_LIMIT
  {
    if value == QuoteETag(version) && version < UINT64_LIMIT {
      assert !IsSpace(value[0]);
      assert value[1..|value| - 1] == Format(version);
      ParseFormat(version, UINT64_LIMIT);
    }
  }

  /** Decimal digits without a leading zero. */
  predicate Numeral(d: string) {
    d != [] && (forall i :: 0 <= i < |d| ==> '0' <= d[i] <= '9') && (|d| > 1 ==> d[0] != '0')
  }

  lemma {:induction false} FormatIsNumeral(n: nat)
    ensures Numeral(Format(n)) && (n > 0 ==> Format(n)[0] != '0')
  {
    if n >= 10 {
      FormatIsNumeral(n / 10);
    }
  }

  lemma {:induction false} NumeralIsFormat(d: string)
    requires Numeral(d)
    ensures Format(ValueOf(d)) == d && (d[0] != '0' ==> ValueOf(d) > 0)
  {
    if |d| > 1 {
      var front := d[..|d| - 1];
      assert front[0] == d[0];
      NumeralIsFormat(front);
      assert d == front + [d[|d| - 1]];
    }
  }

  /** Blank headers ask for nothing; those read as a version are a quoted numeral below 2^64, and nothing else is. */
  lemma IfMatchText(value: string)
    ensures ParseIfMatch(value).Absent? <==> forall i :: 0 <= i < |value| ==> IsSpace(value[i])
    ensures ParseIfMatch(value).Version? <==>
      && |value| >= 3 && value[0] == '\"' && value[|value| - 1] == '\"' && Numeral(value[1..|value| - 1])
      && ValueOf(value[1..|value| - 1]) < 0x1_0000_0000_0000_0000
  {
    if |value| >= 3 && value[0] == '\"' && value[|value| - 1] == '\"' {
      var d := value[1..|value| - 1];
      assert value == ['\"'] + d + ['\"'] && !IsSpace(value[0]);
      if Numeral(d) {
        NumeralIsFormat(d);
      } else if AllDigits(d) {
        FormatIsNumeral(ValueOf(d));
        var quoted := QuoteETag(ValueOf(d));
        assert quoted[1..|quoted| - 1] == Format(ValueOf(d));
      }
    }
  }

  /** Different versions have different tags. */
  lemma TagsDiffer(v1: nat, v2: nat)
    requires QuoteETag(v1) == QuoteETag(v2)
    ensures v1 == v2
  {
    assert QuoteETag(v1)[1..|QuoteETag(v1)| - 1] == Format(v1);
    assert QuoteETag(v2)[1..|QuoteETag(v2)| - 1] == Format(v2);
    FormatReadsBack(v1);
    FormatReadsBack(v2);
  }
}
