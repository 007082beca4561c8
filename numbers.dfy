/**
 * Numbers as the pages read and print them.
 *
 * Printing: `n.toString()` of a non-negative integer is its decimal digits.
 *
 * Reading: a simplified decimal grammar stands for JavaScript's number syntax,
 *     numeral ::= [ '+' | '-' ] digit* [ '.' digit* ]     (at least one digit)
 * `parseFloat` reads the longest numeral at the start of the string and ignores
 * the rest; `parseInt` reads only the sign and the whole-number digits (so it
 * truncates "2.9" to 2, and "0.5" to 0); `Number`/`isNaN` accept the empty
 * string (as 0) and otherwise only a string that is one numeral from end to end.
 */
module Numbers {
  import opened Wrappers
  import opened Text

  function DigitValue(c: char): nat
    requires IsDigit(c)
  {
    c as int - '0' as int
  }

  function DigitChar(d: nat): (c: char)
    requires d < 10
    ensures IsDigit(c) && DigitValue(c) == d
  {
    ('0' as int + d) as char
  }

  // ---------------------------------------------------------------------------
  // Printing
  // ---------------------------------------------------------------------------

  /** `n.toString()` for a non-negative integer. */
  function NatToString(n: nat): (s: string)
    ensures |s| >= 1 && AllDigits(s)
    ensures n < 10 <==> |s| == 1
  {
    if n < 10 then [DigitChar(n)] else NatToString(n / 10) + [DigitChar(n % 10)]
  }

  /** The value of a string of decimal digits, most significant first. */
  function DigitsValue(s: string): nat
    requires AllDigits(s)
  {
    if s == [] then 0 else DigitsValue(s[..|s| - 1]) * 10 + DigitValue(s[|s| - 1])
  }

  /** The digits printed for `n` read back as `n`. */
  lemma {:induction false} NatToStringValue(n: nat)
    ensures DigitsValue(NatToString(n)) == n
  {
    if n >= 10 {
      NatToStringValue(n / 10);
      var s := NatToString(n);
      assert s[..|s| - 1] == NatToString(n / 10);
    }
  }

  /** No leading zero: the printed digits start with '0' only for 0 itself. */
  lemma {:induction false} NatToStringNoLeadingZero(n: nat)
    ensures NatToString(n)[0] == '0' <==> n == 0
  {
    if n >= 10 {
      NatToStringNoLeadingZero(n / 10);
    }
  }

  /** A digit string without a superfluous leading zero. */
  predicate IsCanonical(s: string) {
    |s| >= 1 && AllDigits(s) && (s[0] == '0' ==> |s| == 1)
  }

  /** Every canonical digit string is printed by exactly one number: its value. */
  lemma {:induction false} CanonicalRoundTrip(s: string)
    requires IsCanonical(s)
    ensures NatToString(DigitsValue(s)) == s
    decreases |s|
  {
    var n := DigitsValue(s);
    if |s| == 1 {
      assert s[..|s| - 1] == [];
      assert DigitsValue(s[..|s| - 1]) == 0;
      assert n == DigitValue(s[0]);
      assert DigitChar(n) == s[0];
    } else {
      var prefix := s[..|s| - 1];
      assert IsCanonical(prefix);
      CanonicalRoundTrip(prefix);
      LeadingDigitBound(prefix);
      assert n / 10 == DigitsValue(prefix) && n % 10 == DigitValue(s[|s| - 1]);
      assert prefix + [s[|s| - 1]] == s;
    }
  }

  /** A canonical string of two or more digits stands for a number of at least 10. */
  lemma {:induction false} LeadingDigitBound(s: string)
    requires IsCanonical(s)
    ensures |s| >= 2 ==> DigitsValue(s) >= 10
    ensures DigitsValue(s) >= 1 || s == "0"
    decreases |s|
  {
    if |s| >= 2 {
      var prefix := s[..|s| - 1];
      assert IsCanonical(prefix);
      LeadingDigitBound(prefix);
    } else {
      assert s[..0] == [];
    }
  }

  lemma NatToStringCanonical(n: nat)
    ensures IsCanonical(NatToString(n))
  {
    NatToStringNoLeadingZero(n);
  }

  /** Two numbers print the same exactly when they are equal. */
  lemma NatToStringInjective(m: nat, n: nat)
    ensures NatToString(m) == NatToString(n) <==> m == n
  {
    NatToStringValue(m);
    NatToStringValue(n);
  }

  // ---------------------------------------------------------------------------
  // Reading
  // ---------------------------------------------------------------------------

  /** Length of the run of digits at the start of `s`. */
  function DigitRun(s: string): (n: nat)
    ensures n <= |s|
    ensures AllDigits(s[..n])
    ensures n < |s| ==> !IsDigit(s[n])
  {
    if s != [] && IsDigit(s[0]) then
      var n := 1 + DigitRun(s[1..]);
      assert s[..n] == [s[0]] + s[1..][..n - 1];
      n
    else 0
  }

  /** A numeral read from the start of a string: sign, whole digits, fraction digits. */
  datatype Decimal = Decimal(negative: bool, whole: string, fraction: string)

  /** A numeral and the number of characters it occupies. */
  datatype Scan = Scan(numeral: Decimal, length: nat)

  function SignLength(s: string): nat {
    if |s| > 0 && (s[0] == '+' || s[0] == '-') then 1 else 0
  }

  /** The longest numeral at the start of `s`, or `None` when `s` does not start with one. */
  function ScanDecimal(s: string): (r: Option<Scan>)
    ensures r.Some? ==> r.value.length <= |s|
    ensures r.Some? ==> AllDigits(r.value.numeral.whole) && AllDigits(r.value.numeral.fraction)
    ensures r.Some? ==> |r.value.numeral.whole| + |r.value.numeral.fraction| >= 1
    ensures r.Some? ==> |s| >= 1 && (r.value.numeral.negative <==> s[0] == '-')
  {
    var sign := SignLength(s);
    var rest := s[sign..];
    var w := DigitRun(rest);
    var dot := w < |rest| && rest[w] == '.';
    var f := if dot then DigitRun(rest[w + 1..]) else 0;
    if w + f == 0 then None
    else
      var fraction := if dot then rest[w + 1..][..f] else "";
      Some(Scan(Decimal(sign == 1 && s[0] == '-', rest[..w], fraction),
                sign + w + (if dot then 1 + f else 0)))
  }

  function WholeValue(s: string): nat
    requires AllDigits(s)
  {
    DigitsValue(s)
  }

  /** The value of the digits after the decimal point: 0.d1 d2 d3 ... */
  function FractionValue(s: string): (v: real)
    requires AllDigits(s)
    ensures 0.0 <= v <= 1.0
  {
    if s == [] then 0.0 else (DigitValue(s[0]) as real + FractionValue(s[1..])) / 10.0
  }

  function DecimalValue(d: Decimal): real
    requires AllDigits(d.whole) && AllDigits(d.fraction)
  {
    var magnitude := WholeValue(d.whole) as real + FractionValue(d.fraction);
    if d.negative then -magnitude else magnitude
  }

  /** `parseFloat(s)`; `None` is NaN. */
  function ParseFloat(s: string): (r: Option<real>)
    ensures r.Some? <==> ScanDecimal(s).Some?
    ensures r.Some? && r.value < 0.0 ==> s[0] == '-'
  {
    match ScanDecimal(s)
    case None => None
    case Some(scan) => Some(DecimalValue(scan.numeral))
  }

  /** `parseInt(s)` (radix 10); `None` is NaN. */
  function ParseInt(s: string): (r: Option<int>)
    ensures r.Some? ==> ParseFloat(s).Some?
    ensures r.Some? && r.value < 0 ==> s[0] == '-'
  {
    var sign := SignLength(s);
    var w := DigitRun(s[sign..]);
    if w == 0 then None
    else
      var magnitude: int := DigitsValue(s[sign..][..w]);
      Some(if sign == 1 && s[0] == '-' then -magnitude else magnitude)
  }

  /** `s` is one numeral from its first character to its last. */
  predicate IsDecimalNumeral(s: string) {
    ScanDecimal(s).Some? && ScanDecimal(s).value.length == |s|
  }

  /** `isNaN(s)`: `Number(s)` is NaN. */
  predicate IsNaN(s: string): (r: bool)
    ensures !r && s != "" ==> ParseFloat(s).Some?
  {
    s != "" && !IsDecimalNumeral(s)
  }

  /** A comparison with NaN is false, whatever the operator. */
  predicate FloatAtMostZero(v: Option<real>) {
    v.Some? && v.value <= 0.0
  }

  predicate FloatBelowZero(v: Option<real>) {
    v.Some? && v.value < 0.0
  }

  predicate IntAtMostZero(v: Option<int>) {
    v.Some? && v.value <= 0
  }

  predicate HasNonZeroDigit(s: string) {
    exists i | 0 <= i < |s| :: '1' <= s[i] <= '9'
  }

  lemma {:induction false} WholeValuePositive(s: string)
    requires AllDigits(s)
    ensures WholeValue(s) > 0 <==> HasNonZeroDigit(s)
    decreases |s|
  {
    if s != [] {
      var prefix := s[..|s| - 1];
      WholeValuePositive(prefix);
      if HasNonZeroDigit(prefix) {
        var i :| 0 <= i < |prefix| && '1' <= prefix[i] <= '9';
        assert '1' <= s[i] <= '9';
      }
      if HasNonZeroDigit(s) {
        var i :| 0 <= i < |s| && '1' <= s[i] <= '9';
        if i < |s| - 1 {
          assert '1' <= prefix[i] <= '9';
        }
      }
    }
  }

  lemma {:induction false} FractionValuePositive(s: string)
    requires AllDigits(s)
    ensures FractionValue(s) > 0.0 <==> HasNonZeroDigit(s)
    decreases |s|
  {
    if s != [] {
      var tail := s[1..];
      FractionValuePositive(tail);
      if HasNonZeroDigit(tail) {
        var i :| 0 <= i < |tail| && '1' <= tail[i] <= '9';
        assert '1' <= s[i + 1] <= '9';
      }
      if HasNonZeroDigit(s) {
        var i :| 0 <= i < |s| && '1' <= s[i] <= '9';
        if i > 0 {
          assert '1' <= tail[i - 1] <= '9';
        }
      }
    }
  }

  /**
   * `parseFloat(s) > 0` exactly when `s` starts with a numeral that has no minus
   * sign and a digit other than 0; `parseFloat(s) < 0` exactly when it has a
   * minus sign and such a digit ("-0" reads as a zero that is not below zero).
   */
  lemma ParseFloatSign(s: string)
    ensures (ParseFloat(s).Some? && ParseFloat(s).value > 0.0) <==>
            (ScanDecimal(s).Some? && !ScanDecimal(s).value.numeral.negative &&
             HasNonZeroDigit(ScanDecimal(s).value.numeral.whole + ScanDecimal(s).value.numeral.fraction))
    ensures FloatBelowZero(ParseFloat(s)) <==>
            (ScanDecimal(s).Some? && ScanDecimal(s).value.numeral.negative &&
             HasNonZeroDigit(ScanDecimal(s).value.numeral.whole + ScanDecimal(s).value.numeral.fraction))
  {
    if ScanDecimal(s).Some? {
      var d := ScanDecimal(s).value.numeral;
      WholeValuePositive(d.whole);
      FractionValuePositive(d.fraction);
      NonZeroDigitOfConcat(d.whole, d.fraction);
    }
  }

  lemma NonZeroDigitOfConcat(a: string, b: string)
    ensures HasNonZeroDigit(a + b) <==> HasNonZeroDigit(a) || HasNonZeroDigit(b)
  {
    if HasNonZeroDigit(a + b) {
      var i :| 0 <= i < |a + b| && '1' <= (a + b)[i] <= '9';
      if i < |a| {
        assert '1' <= a[i] <= '9';
      } else {
        assert '1' <= b[i - |a|] <= '9';
      }
    }
    if HasNonZeroDigit(a) {
      var i :| 0 <= i < |a| && '1' <= a[i] <= '9';
      assert (a + b)[i] == a[i];
    }
    if HasNonZeroDigit(b) {
      var i :| 0 <= i < |b| && '1' <= b[i] <= '9';
      assert (a + b)[|a| + i] == b[i];
    }
  }

}
