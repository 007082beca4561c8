/**
 * `formatPrice` of the catalog and detail pages:
 *     "$" + price.toString().replace(/\B(?=(\d{3})+(?!\d))/g, ",")
 *
 * The replace is modelled as the regular expression reads: at every position of
 * the string (left to right, each position tried once, as a global replace of an
 * empty match does), a comma is inserted when the position is not a word
 * boundary and is followed by one or more groups of three digits that are not
 * followed by another digit. On a string of digits this is the usual grouping
 * of thousands from the right, which is proved below and used for the layout
 * and round-trip properties.
 */
module PriceFormat {
  import opened Text
  import opened Numbers
  import Seqs

  // ---------------------------------------------------------------------------
  // The regular expression, position by position
  // ---------------------------------------------------------------------------

  /** `\w`: ASCII letters, digits and underscore. */
  predicate IsWordChar(c: char) {
    IsLetter(c) || IsDigit(c) || c == '_'
  }

  /** `\b` holds at position `p`: exactly one of the neighbouring characters is a word character. */
  predicate WordBoundary(s: string, p: nat)
    requires p <= |s|
  {
    var before := p > 0 && IsWordChar(s[p - 1]);
    var after := p < |s| && IsWordChar(s[p]);
    before != after
  }

  /** `(\d{3})+(?!\d)` matches at `p` with exactly `k` groups. */
  predicate GroupsAt(s: string, p: nat, k: nat) {
    && 1 <= k
    && p + 3 * k <= |s|
    && AllDigits(s[p..p + 3 * k])
    && (p + 3 * k == |s| || !IsDigit(s[p + 3 * k]))
  }

  /** The lookahead `(?=(\d{3})+(?!\d))` succeeds at `p` for some number of groups. */
  predicate DigitGroupsAhead(s: string, p: nat)
    requires p <= |s|
  {
    exists k | 1 <= k <= (|s| - p) / 3 :: GroupsAt(s, p, k)
  }

  /** The whole pattern `\B(?=(\d{3})+(?!\d))` matches (with an empty match) at `p`. */
  predicate SeparatorAt(s: string, p: nat)
    requires p <= |s|
  {
    !WordBoundary(s, p) && DigitGroupsAhead(s, p)
  }

  /** `s.replace(/\B(?=(\d{3})+(?!\d))/g, ",")` restricted to the positions from `p` on. */
  function ReplaceFrom(s: string, p: nat): string
    requires p <= |s|
    decreases |s| - p
  {
    (if SeparatorAt(s, p) then "," else "")
    + (if p == |s| then "" else [s[p]] + ReplaceFrom(s, p + 1))
  }

  function InsertSeparators(s: string): string {
    ReplaceFrom(s, 0)
  }

  /** `formatPrice(price)` for a non-negative integer price. */
  function FormatPrice(price: nat): (r: string)
    ensures |r| >= 2 && r[0] == '$'
  {
    "$" + InsertSeparators(NatToString(price))
  }

  // ---------------------------------------------------------------------------
  // On digits, the replace groups thousands from the right
  // ---------------------------------------------------------------------------

  /** Thousands grouping, the last three digits split off first. */
  function Group(d: string): string {
    if |d| <= 3 then d else Group(d[..|d| - 3]) + "," + d[|d| - 3..]
  }

  /** In a string of digits the pattern matches exactly at the inner positions a multiple of three from the end. */
  lemma SeparatorAtDigits(d: string, p: nat)
    requires AllDigits(d) && p <= |d|
    ensures SeparatorAt(d, p) <==> 0 < p < |d| && (|d| - p) % 3 == 0
  {
    if DigitGroupsAhead(d, p) {
      var k :| 1 <= k <= (|d| - p) / 3 && GroupsAt(d, p, k);
      assert p + 3 * k == |d|;
    }
    if 0 < p < |d| && (|d| - p) % 3 == 0 {
      var k := (|d| - p) / 3;
      assert GroupsAt(d, p, k);
    }
  }

  /** Fewer than three characters from the end, nothing more is inserted. */
  lemma {:induction false} NoSeparatorNearEnd(d: string, p: nat)
    requires AllDigits(d) && p <= |d| && |d| - p < 3
    ensures ReplaceFrom(d, p) == d[p..]
    decreases |d| - p
  {
    SeparatorAtDigits(d, p);
    if p < |d| {
      NoSeparatorNearEnd(d, p + 1);
      assert d[p..] == [d[p]] + d[p + 1..];
    }
  }

  /** Appending three digits to a non-empty digit string adds one separator before them. */
  lemma {:induction false} AppendThree(a: string, b: string, p: nat)
    requires AllDigits(a + b) && |a| >= 1 && |b| == 3 && p <= |a|
    ensures ReplaceFrom(a + b, p) == ReplaceFrom(a, p) + "," + b
    decreases |a| - p
  {
    var d := a + b;
    if p == |a| {
      LastGroupSeparated(a, b);
      assert ReplaceFrom(a, p) == "";
    } else {
      assert AllDigits(a) by { assert forall i :: 0 <= i < |a| ==> a[i] == d[i]; }
      SeparatorAtDigits(d, p);
      SeparatorAtDigits(a, p);
      assert (|d| - p) % 3 == (|a| - p) % 3 by { assert |d| - p == (|a| - p) + 3; }
      var sep := if SeparatorAt(a, p) then "," else "";
      assert SeparatorAt(d, p) == SeparatorAt(a, p);
      AppendThree(a, b, p + 1);
      calc {
        ReplaceFrom(d, p);
        sep + ([d[p]] + ReplaceFrom(d, p + 1));
        sep + ([a[p]] + (ReplaceFrom(a, p + 1) + "," + b));
        (sep + ([a[p]] + ReplaceFrom(a, p + 1))) + "," + b;
        ReplaceFrom(a, p) + "," + b;
      }
    }
  }

  /** Before the last three digits of a longer digit string the pattern inserts a comma, and nothing after. */
  lemma LastGroupSeparated(a: string, b: string)
    requires AllDigits(a + b) && |a| >= 1 && |b| == 3
    ensures ReplaceFrom(a + b, |a|) == "," + b
  {
    var d, p := a + b, |a|;
    assert |d| - p == 3;
    SeparatorAtDigits(d, p);
    assert SeparatorAt(d, p);
    NoSeparatorNearEnd(d, p + 1);
    assert d[p + 1..] == b[1..];
    calc {
      ReplaceFrom(d, p);
      "," + ([d[p]] + ReplaceFrom(d, p + 1));
      { assert [d[p]] + b[1..] == b; }
      "," + b;
    }
  }

  lemma {:induction false} InsertSeparatorsIsGroup(d: string)
    requires AllDigits(d)
    ensures InsertSeparators(d) == Group(d)
    decreases |d|
  {
    if |d| == 0 {
      assert !SeparatorAt(d, 0);
    } else if |d| <= 3 {
      SeparatorAtDigits(d, 0);
      NoSeparatorNearEnd(d, 1);
      assert [d[0]] + d[1..] == d;
    } else {
      var a, b := d[..|d| - 3], d[|d| - 3..];
      assert a + b == d;
      InsertSeparatorsIsGroup(a);
      AppendThree(a, b, 0);
    }
  }

  // ---------------------------------------------------------------------------
  // Layout and round trip
  // ---------------------------------------------------------------------------

  /**
   * Digits separated by commas so that the leading group has one to three
   * digits, every comma is followed by exactly three digits and then by the
   * next comma or the end, and there is no leading or trailing comma.
   */
  predicate WellGrouped(t: string) {
    && t != [] && t[0] != ',' && t[|t| - 1] != ','
    && (forall i :: 0 <= i < |t| ==> t[i] == ',' || IsDigit(t[i]))
    && (forall i :: 0 <= i < |t| && t[i] == ',' ==>
          && i + 3 < |t|
          && IsDigit(t[i + 1]) && IsDigit(t[i + 2]) && IsDigit(t[i + 3])
          && (i + 4 == |t| || t[i + 4] == ','))
    && (|t| > 3 ==> t[1] == ',' || t[2] == ',' || t[3] == ',')
  }

  lemma {:induction false} GroupWellGrouped(d: string)
    requires AllDigits(d) && d != []
    ensures WellGrouped(Group(d))
    decreases |d|
  {
    if |d| > 3 {
      var a, b := d[..|d| - 3], d[|d| - 3..];
      assert AllDigits(a) by { assert forall i :: 0 <= i < |a| ==> a[i] == d[i]; }
      assert AllDigits(b) by { assert forall i :: 0 <= i < |b| ==> b[i] == d[|d| - 3 + i]; }
      GroupWellGrouped(a);
      AppendGroup(Group(a), b);
      assert Group(d) == Group(a) + [','] + b;
    }
  }

  /** One more comma and three digits at the end keep a string well grouped. */
  lemma AppendGroup(g: string, b: string)
    requires WellGrouped(g) && |b| == 3 && AllDigits(b)
    ensures WellGrouped(g + [','] + b)
  {
    var t := g + [','] + b;
    assert forall i :: 0 <= i < |g| ==> t[i] == g[i];
    assert t[|g|] == ',';
    assert forall i :: 0 <= i < 3 ==> t[|g| + 1 + i] == b[i];
    forall i | 0 <= i < |t| && t[i] == ','
      ensures i + 3 < |t|
      ensures IsDigit(t[i + 1]) && IsDigit(t[i + 2]) && IsDigit(t[i + 3])
      ensures i + 4 == |t| || t[i + 4] == ','
    {
      if i < |g| {
        assert g[i] == ',';
        if i + 4 < |g| {
          assert t[i + 4] == g[i + 4];
        }
      }
    }
    if |g| > 3 {
      assert t[1] == g[1] && t[2] == g[2] && t[3] == g[3];
    }
  }

  function NotComma(c: char): bool {
    c != ','
  }

  /** The string with every comma deleted. */
  function StripCommas(s: string): string {
    Seqs.Filter(s, NotComma)
  }

  /** Deleting the commas of `g + "," + b`, where `b` has none, deletes those of `g` and the separator. */
  lemma StripSeparated(g: string, b: string)
    requires AllDigits(b)
    ensures StripCommas(g + "," + b) == StripCommas(g) + b
  {
    var sep := Seqs.Filter(",", NotComma);
    assert sep == [] by { assert ","[1..] == []; }
    calc {
      StripCommas(g + "," + b);
      Seqs.Filter((g + ",") + b, NotComma);
      { Seqs.FilterAppend(g + ",", b, NotComma); }
      Seqs.Filter(g + ",", NotComma) + Seqs.Filter(b, NotComma);
      { Seqs.FilterAppend(g, ",", NotComma); }
      (StripCommas(g) + sep) + Seqs.Filter(b, NotComma);
      { Seqs.FilterAllKept(b, NotComma); }
      (StripCommas(g) + sep) + b;
      { assert StripCommas(g) + sep == StripCommas(g); }
      StripCommas(g) + b;
    }
  }

  lemma {:induction false} StripGroup(d: string)
    requires AllDigits(d)
    ensures StripCommas(Group(d)) == d
    decreases |d|
  {
    if |d| <= 3 {
      Seqs.FilterAllKept(d, NotComma);
    } else {
      var a, b := d[..|d| - 3], d[|d| - 3..];
      StripSeparated(Group(a), b);
      StripGroup(a);
      assert a + b == d;
    }
  }

  /**
   * The formatted price starts with "$"; after it come digits grouped by
   * commas as `WellGrouped` says; deleting the commas gives the digits of the
   * price, which read back as the price.
   */
  lemma FormatPriceRoundTrip(price: nat)
    ensures FormatPrice(price)[0] == '$'
    ensures WellGrouped(FormatPrice(price)[1..])
    ensures StripCommas(FormatPrice(price)[1..]) == NatToString(price)
    ensures DigitsValue(StripCommas(FormatPrice(price)[1..])) == price
  {
    var d := NatToString(price);
    InsertSeparatorsIsGroup(d);
    GroupWellGrouped(d);
    StripGroup(d);
    NatToStringValue(price);
    assert FormatPrice(price)[1..] == Group(d);
  }

  /** The listing price of the first catalog entry. */
  lemma FormatPriceExample()
    ensures FormatPrice(1250000) == "$1,250,000"
  {
    var d := NatToString(1250000);
    PrintedExample();
    InsertSeparatorsIsGroup(d);
    GroupedExample();
  }

  lemma PrintedExample()
    ensures NatToString(1250000) == "1250000"
  {
    assert NatToString(12) == "12";
    assert NatToString(125) == NatToString(12) + "5";
    assert NatToString(1250) == NatToString(125) + "0";
    assert NatToString(12500) == NatToString(1250) + "0";
    assert NatToString(125000) == NatToString(12500) + "0";
  }

  lemma GroupedExample()
    ensures Group("1250000") == "1,250,000"
  {
    assert Group("1250") == "1,250";
  }

}
