/** The string operations of Go's standard library that the agent relies on:
    `strings.Contains` (retry classification), `strconv.ParseUint(s, 10, 64)`
    (CSV shares) and decimal formatting of an unsigned integer (`%v` in
    `SendMsgWithCheck`). */
module Text {
  import opened Wrappers

  /** Largest value of a Go `uint64`. */
  const MaxUint64: nat := 0xFFFF_FFFF_FFFF_FFFF

  /** `pat` occurs in `s` starting at index `i`. */
  predicate MatchesAt(s: string, pat: string, i: nat) {
    i + |pat| <= |s| && s[i..i + |pat|] == pat
  }

  lemma ShiftMatch(s: string, pat: string, i: nat)
    requires s != []
    ensures MatchesAt(s[1..], pat, i) <==> MatchesAt(s, pat, i + 1)
  {
    if i + 1 + |pat| <= |s| {
      assert s[1..][i..i + |pat|] == s[i + 1..i + 1 + |pat|];
    }
  }

  /** `strings.Contains(s, pat)`: `pat` occurs somewhere in `s`; the empty
      pattern is contained in every string. */
  function Contains(s: string, pat: string): (r: bool)
    ensures r <==> exists i: nat :: MatchesAt(s, pat, i)
    decreases |s|
  {
    if |pat| > |s| then
      assert forall i: nat :: !MatchesAt(s, pat, i);
      false
    else if s[..|pat|] == pat then
      assert MatchesAt(s, pat, 0);
      true
    else
      var rest := Contains(s[1..], pat);
      assert rest <==> exists i: nat :: MatchesAt(s, pat, i) by {
        forall i: nat ensures MatchesAt(s[1..], pat, i) <==> MatchesAt(s, pat, i + 1) {
          ShiftMatch(s, pat, i);
        }
        assert !MatchesAt(s, pat, 0);
        if exists i: nat :: MatchesAt(s, pat, i) {
          var i: nat :| MatchesAt(s, pat, i);
          assert MatchesAt(s[1..], pat, i - 1);
        }
      }
      rest
  }

  /** A string built as `prefix + pat + suffix` contains `pat`. */
  lemma ContainsInfix(prefix: string, pat: string, suffix: string)
    ensures Contains(prefix + pat + suffix, pat)
  {
    var s := prefix + pat + suffix;
    assert s[|prefix|..|prefix| + |pat|] == pat;
    assert MatchesAt(s, pat, |prefix|);
  }

  predicate IsDigit(c: char) {
    '0' <= c <= '9'
  }

  predicate IsDigits(s: string) {
    forall i :: 0 <= i < |s| ==> IsDigit(s[i])
  }

  function DigitValue(c: char): (d: nat)
    requires IsDigit(c)
    ensures d < 10
  {
    (c as int) - ('0' as int)
  }

  function DigitChar(d: nat): (c: char)
    requires d < 10
    ensures IsDigit(c) && DigitValue(c) == d
  {
    ('0' as int + d) as char
  }

  /** The number a string of decimal digits denotes, most significant digit first. */
  function DecimalValue(s: string): (n: nat)
    requires IsDigits(s)
  {
    if s == [] then 0 else DecimalValue(s[..|s| - 1]) * 10 + DigitValue(s[|s| - 1])
  }

  /** Go's `strconv.ParseUint(s, 10, 64)`: only ASCII digits (no sign, no
      space, no underscore), at least one of them, and a value that fits in a
      `uint64`; anything else is an error (here `None`). Leading zeros are
      accepted. */
  function ParseUint64(s: string): (r: Option<nat>)
    ensures r.Some? <==> s != [] && IsDigits(s) && DecimalValue(s) <= MaxUint64
    ensures r.Some? ==> r.value == DecimalValue(s) && r.value <= MaxUint64
  {
    if s == [] || !IsDigits(s) then None
    else
      var v := DecimalValue(s);
      if v > MaxUint64 then None else Some(v)
  }

  /** The canonical decimal text of `n` (no sign, no leading zeros). */
  function FormatDecimal(n: nat): (s: string)
    ensures s != []
  {
    if n < 10 then [DigitChar(n)] else FormatDecimal(n / 10) + [DigitChar(n % 10)]
  }

  lemma {:induction false} FormatDecimalDigits(n: nat)
    ensures IsDigits(FormatDecimal(n)) && DecimalValue(FormatDecimal(n)) == n
  {
    var s := FormatDecimal(n);
    if n >= 10 {
      FormatDecimalDigits(n / 10);
      assert s[..|s| - 1] == FormatDecimal(n / 10);
    }
  }

  /** Parsing the decimal text of a number gives the number back exactly when
      it fits in a `uint64`, and a range error otherwise. */
  lemma ParseFormatRoundTrip(n: nat)
    ensures ParseUint64(FormatDecimal(n)) == if n <= MaxUint64 then Some(n) else None
  {
    FormatDecimalDigits(n);
  }

  /** A digit string whose first digit is not zero denotes a positive number. */
  lemma {:induction false} NonZeroLeadPositive(s: string)
    requires s != [] && IsDigits(s) && s[0] != '0'
    ensures DecimalValue(s) > 0
    decreases |s|
  {
    if |s| > 1 {
      NonZeroLeadPositive(s[..|s| - 1]);
    }
  }

  /** Every digit string without a leading zero is the canonical decimal text
      of the number it denotes; with `ParseFormatRoundTrip` and
      `ParseLeadingZero` this fixes what `ParseUint64` returns on every
      input. */
  lemma {:induction false} CanonicalIsFormatted(s: string)
    requires s != [] && IsDigits(s) && s[0] != '0'
    ensures FormatDecimal(DecimalValue(s)) == s
    decreases |s|
  {
    var last := s[|s| - 1];
    var front := s[..|s| - 1];
    if |s| == 1 {
      assert s == [last];
    } else {
      NonZeroLeadPositive(front);
      CanonicalIsFormatted(front);
      var n := DecimalValue(s);
      assert n / 10 == DecimalValue(front) && n % 10 == DigitValue(last);
      assert s == front + [last];
    }
  }

  /** A leading zero does not change what a non-empty string parses to. */
  lemma {:induction false} ParseLeadingZero(s: string)
    requires s != []
    ensures ParseUint64("0" + s) == ParseUint64(s)
  {
    if IsDigits(s) {
      LeadingZeroValue(s);
    } else {
      var i :| 0 <= i < |s| && !IsDigit(s[i]);
      assert ("0" + s)[i + 1] == s[i];
    }
  }

  lemma {:induction false} LeadingZeroValue(s: string)
    requires IsDigits(s)
    ensures IsDigits("0" + s) && DecimalValue("0" + s) == DecimalValue(s)
  {
    var z := "0" + s;
    if s != [] {
      assert z[..|z| - 1] == "0" + s[..|s| - 1];
      LeadingZeroValue(s[..|s| - 1]);
    } else {
      assert z[..|z| - 1] == [];
    }
  }
}
