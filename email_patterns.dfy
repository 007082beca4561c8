/**
 * The two e-mail patterns of the site.
 *
 * The listing wizard tests `/\S+@\S+\.\S+/`, which is not anchored: it
 * accepts a string as soon as some part of it has that shape. The contact page
 * tests `/^[A-Z0-9._%+-]+@[A-Z0-9.-]+\.[A-Z]{2,4}$/i`, which must match the
 * whole string, ignoring case. Both are stated as what a match is (where the
 * pieces of the pattern fall in the string); every address the contact page
 * accepts, the wizard accepts too.
 */
module EmailPatterns {
  import opened Text

  // ---------------------------------------------------------------------------
  // \S+@\S+\.\S+ , unanchored
  // ---------------------------------------------------------------------------

  /**
   * The substring `s[i..j]` matches `\S+@\S+\.\S+` with its `@` at `a` and the
   * `.` of `\.` at `d`: three non-empty runs of non-space characters around them.
   */
  predicate LooseMatch(s: string, i: nat, a: nat, d: nat, j: nat) {
    && i < a && a + 1 < d && d + 1 < j && j <= |s|
    && s[a] == '@' && s[d] == '.'
    && (forall k | i <= k < j :: !IsSpace(s[k]))
  }

  /** `/\S+@\S+\.\S+/.test(s)`. */
  predicate LooseEmail(s: string) {
    exists i, a, d, j | 0 <= i < a < d < j <= |s| :: LooseMatch(s, i, a, d, j)
  }

  // ---------------------------------------------------------------------------
  // ^[A-Z0-9._%+-]+@[A-Z0-9.-]+\.[A-Z]{2,4}$ , case-insensitive
  // ---------------------------------------------------------------------------

  /** `[A-Z0-9._%+-]` under the `i` flag. */
  predicate IsLocalChar(c: char) {
    IsLetter(c) || IsDigit(c) || c == '.' || c == '_' || c == '%' || c == '+' || c == '-'
  }

  /** `[A-Z0-9.-]` under the `i` flag. */
  predicate IsDomainChar(c: char) {
    IsLetter(c) || IsDigit(c) || c == '.' || c == '-'
  }

  /**
   * The whole of `s` matches the contact-page pattern with its `@` at `a` and
   * the `.` before the final label at `d`.
   */
  predicate StrictMatch(s: string, a: nat, d: nat) {
    && 1 <= a && a + 1 < d && d < |s|
    && 2 <= |s| - (d + 1) <= 4
    && s[a] == '@' && s[d] == '.'
    && (forall k | 0 <= k < a :: IsLocalChar(s[k]))
    && (forall k | a < k < d :: IsDomainChar(s[k]))
    && (forall k | d < k < |s| :: IsLetter(s[k]))
  }

  /** `/^[A-Z0-9._%+-]+@[A-Z0-9.-]+\.[A-Z]{2,4}$/i.test(s)`. */
  predicate StrictEmail(s: string) {
    exists a, d | 0 <= a < d < |s| :: StrictMatch(s, a, d)
  }

  // ---------------------------------------------------------------------------
  // Properties
  // ---------------------------------------------------------------------------

  /** Every address the contact page accepts is accepted by the listing wizard. */
  lemma StrictImpliesLoose(s: string)
    requires StrictEmail(s)
    ensures LooseEmail(s)
  {
    var a, d :| 0 <= a < d < |s| && StrictMatch(s, a, d);
    forall k | 0 <= k < |s| ensures !IsSpace(s[k]) {
      if k < a {
        assert IsLocalChar(s[k]);
      } else if a < k < d {
        assert IsDomainChar(s[k]);
      } else if d < k {
        assert IsLetter(s[k]);
      }
    }
    assert LooseMatch(s, 0, a, d, |s|);
  }

  /**
   * An address the contact page accepts has exactly one `@`, and its final
   * label (what follows the last `.`) is two to four letters.
   */
  lemma StrictShape(s: string)
    requires StrictEmail(s)
    ensures exists a | 0 <= a < |s| :: s[a] == '@' && forall k | 0 <= k < |s| && s[k] == '@' :: k == a
    ensures exists d | 0 <= d < |s| :: s[d] == '.' && 2 <= |s| - (d + 1) <= 4
              && forall k | d < k < |s| :: IsLetter(s[k]) && s[k] != '.'
  {
    var a, d :| 0 <= a < d < |s| && StrictMatch(s, a, d);
    forall k | 0 <= k < |s| && k != a ensures s[k] != '@' {
      if k < a {
        assert IsLocalChar(s[k]);
      } else if a < k < d {
        assert IsDomainChar(s[k]);
      } else if d < k {
        assert IsLetter(s[k]);
      }
    }
  }

  /** Where the two patterns part: a one-letter final label, and white space around the address. */
  lemma PatternsDiffer()
    ensures LooseEmail("a@b.c") && !StrictEmail("a@b.c")
    ensures LooseEmail(" jo@site.com") && !StrictEmail(" jo@site.com")
    ensures StrictEmail("jo@site.com")
  {
    assert LooseMatch("a@b.c", 0, 1, 3, 5);
    assert LooseMatch(" jo@site.com", 1, 3, 8, 12);
    assert StrictMatch("jo@site.com", 2, 7);
    var s := " jo@site.com";
    assert !IsLocalChar(s[0]);
    var t := "a@b.c";
    forall a, d | 0 <= a < d < |t| ensures !StrictMatch(t, a, d) {
      if a != 1 {
        assert t[a] != '@';
      } else if d != 3 {
        assert t[d] != '.';
      }
    }
  }

  /** The wizard's pattern needs at least one character between the `@` and the `.`. */
  lemma LooseNeedsDomain()
    ensures !LooseEmail("a@.com")
  {
    var s := "a@.com";
    forall i, a, d, j | 0 <= i < a < d < j <= |s| ensures !LooseMatch(s, i, a, d, j) {
      if a != 1 {
        assert s[a] != '@';
      } else if d != 2 {
        assert d > 2 && s[d] != '.';
      }
    }
  }

}
