/** Decimal rendering of counters (template literals such as `zone-${n}`)
    and the parse of a trailing digit run (the regular expression `(\d+)$`
    followed by `Number(...)`). */
module Text {
  import opened Wrappers

  predicate IsDigit(c: char)
  {
    '0' <= c <= '9'
  }

  predicate AllDigits(s: string)
  {
    forall i :: 0 <= i < |s| ==> IsDigit(s[i])
  }

  function DigitChar(d: nat): (c: char)
    requires d < 10
    ensures IsDigit(c) && c as int - '0' as int == d
  {
    "0123456789"[d]
  }

  function DigitValue(c: char): (d: nat)
    requires IsDigit(c)
    ensures d < 10
  {
    c as int - '0' as int
  }

  /** The decimal form of `n`, without leading zeros (JavaScript's
      conversion of a non-negative safe integer to a string). */
  function NatToString(n: nat): (s: string)
    ensures |s| > 0 && AllDigits(s)
    ensures n >= 10 ==> |s| >= 2
  {
    if n < 10 then [DigitChar(n)] else NatToString(n / 10) + [DigitChar(n % 10)]
  }

  /** The value of a run of decimal digits (`Number` on a digit string). */
  function DecimalValue(s: string): nat
    requires AllDigits(s)
  {
    if s == [] then 0 else DecimalValue(s[..|s| - 1]) * 10 + DigitValue(s[|s| - 1])
  }

  /** The longest suffix of `s` made only of digits. */
  function TrailingDigits(s: string): (d: string)
    ensures AllDigits(d) && |d| <= |s| && d == s[|s| - |d|..]
    ensures |d| < |s| ==> !IsDigit(s[|s| - |d| - 1])
  {
    if s == [] || !IsDigit(s[|s| - 1]) then []
    else TrailingDigits(s[..|s| - 1]) + [s[|s| - 1]]
  }

  /** The number that `id.match(/(\d+)$/)` captures, or None when the id does
      not end in a digit. */
  function SuffixIndex(id: string): (r: Option<nat>)
    ensures r.None? <==> (id == [] || !IsDigit(id[|id| - 1]))
  {
    var d := TrailingDigits(id);
    if d == [] then None else Some(DecimalValue(d))
  }

  lemma {:induction false} DecimalRoundTrip(n: nat)
    ensures DecimalValue(NatToString(n)) == n
  {
    if n >= 10 {
      DecimalRoundTrip(n / 10);
      var s := NatToString(n);
      assert s[..|s| - 1] == NatToString(n / 10);
    }
  }

  /** Distinct counters render as distinct strings. */
  lemma NatToStringInjective(m: nat, n: nat)
    requires NatToString(m) == NatToString(n)
    ensures m == n
  {
    DecimalRoundTrip(m);
    DecimalRoundTrip(n);
  }

  /** A digit run after a non-digit is exactly the trailing digit run. */
  lemma {:induction false} TrailingDigitsOfRun(p: string, d: string)
    requires AllDigits(d)
    requires p == [] || !IsDigit(p[|p| - 1])
    ensures TrailingDigits(p + d) == d
  {
    if d != [] {
      var d' := d[..|d| - 1];
      assert (p + d)[..|p + d| - 1] == p + d';
      TrailingDigitsOfRun(p, d');
    } else {
      assert p + d == p;
    }
  }

  /** Parsing the suffix of `prefix + n` gives back `n` when the prefix ends
      in a non-digit. */
  lemma SuffixIndexOfRendered(prefix: string, n: nat)
    requires prefix != [] && !IsDigit(prefix[|prefix| - 1])
    ensures SuffixIndex(prefix + NatToString(n)) == Some(n)
  {
    TrailingDigitsOfRun(prefix, NatToString(n));
    DecimalRoundTrip(n);
  }
}
