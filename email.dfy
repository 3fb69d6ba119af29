/**
  The email check of the contact form, `isValidEmail`: the value must match
  the regular expression `^[^\s@]+@[^\s@]+\.[^\s@]+$` as a whole.
 */
module Email {
  import opened Text

  /** A character of the class `[^\s@]`. */
  predicate IsAtomChar(c: char) {
    !IsWhitespace(c) && c != '@'
  }

  /** A string matched by `[^\s@]+`. */
  predicate IsAtom(t: string) {
    |t| > 0 && forall k :: 0 <= k < |t| ==> IsAtomChar(t[k])
  }

  /** `isValidEmail(s)`: `s` splits as atom `@` atom `.` atom, the split
      points being the `@` at index `a` and the `.` at index `d`. Because `.`
      is itself an atom character, any interior dot of the part after the `@`
      may serve, as the regular expression's backtracking allows. */
  predicate IsValidEmail(s: string) {
    exists a, d :: 0 <= a < d < |s| && s[a] == '@' && s[d] == '.'
      && IsAtom(s[..a]) && IsAtom(s[a + 1..d]) && IsAtom(s[d + 1..])
  }

  /** The number of occurrences of `c` in `s`. */
  function Occurrences(s: string, c: char): (n: nat)
    ensures n <= |s|
    ensures n == 0 <==> forall k :: 0 <= k < |s| ==> s[k] != c
  {
    if s == [] then 0
    else Occurrences(s[..|s| - 1], c) + (if s[|s| - 1] == c then 1 else 0)
  }

  lemma {:induction false} OccurrencesAppend(s: string, t: string, c: char)
    ensures Occurrences(s + t, c) == Occurrences(s, c) + Occurrences(t, c)
  {
    if t != [] {
      assert (s + t)[..|s + t| - 1] == s + t[..|t| - 1];
      OccurrencesAppend(s, t[..|t| - 1], c);
    } else {
      assert s + t == s;
    }
  }

  /** The part after the `@` has a `.` that is neither its first nor its last
      character. */
  predicate HasInteriorDot(t: string) {
    exists k :: 0 < k < |t| - 1 && t[k] == '.'
  }

  /** The direct characterisation: no whitespace, exactly one `@`, a non-empty
      part before it and an interior dot in the part after it. */
  predicate IsWellFormedAddress(s: string) {
    && (forall k :: 0 <= k < |s| ==> !IsWhitespace(s[k]))
    && Occurrences(s, '@') == 1
    && exists i :: 0 < i < |s| && s[i] == '@' && HasInteriorDot(s[i + 1..])
  }

  /** The regular expression accepts exactly the well-formed addresses. */
  lemma IsValidEmailIff(s: string)
    ensures IsValidEmail(s) <==> IsWellFormedAddress(s)
  {
    if IsValidEmail(s) {
      var a, d :| 0 <= a < d < |s| && s[a] == '@' && s[d] == '.'
        && IsAtom(s[..a]) && IsAtom(s[a + 1..d]) && IsAtom(s[d + 1..]);
      ValidEmailShape(s, a, d);
    }
    if IsWellFormedAddress(s) {
      var i :| 0 < i < |s| && s[i] == '@' && HasInteriorDot(s[i + 1..]);
      var k :| 0 < k < |s[i + 1..]| - 1 && s[i + 1..][k] == '.';
      WellFormedIsValid(s, i, i + 1 + k);
    }
  }

  /** Counting around index `i`: the occurrences before it, the character at
      it, and the occurrences after it. */
  lemma OccurrencesAround(s: string, i: nat, c: char)
    requires i < |s|
    ensures Occurrences(s, c) == Occurrences(s[..i], c) + (if s[i] == c then 1 else 0) + Occurrences(s[i + 1..], c)
  {
    assert s == s[..i] + [s[i]] + s[i + 1..];
    OccurrencesAppend(s[..i] + [s[i]], s[i + 1..], c);
    OccurrencesAppend(s[..i], [s[i]], c);
    assert [s[i]][..0] == [];
  }

  /** A character that occurs once, at `i`, occurs nowhere else. */
  lemma OnlyAt(s: string, i: nat, c: char)
    requires i < |s| && s[i] == c && Occurrences(s, c) == 1
    ensures forall k :: 0 <= k < |s| && k != i ==> s[k] != c
  {
    var before, after := s[..i], s[i + 1..];
    OccurrencesAround(s, i, c);
    forall k | 0 <= k < |s| && k != i ensures s[k] != c {
      if k < i {
        assert s[k] == before[k];
      } else {
        assert s[k] == after[k - i - 1];
      }
    }
  }

  /** A slice of `s` is an atom exactly when it is non-empty and each of its
      characters in `s` is an atom character. */
  lemma AtomSlice(s: string, lo: nat, hi: nat)
    requires lo <= hi <= |s|
    ensures IsAtom(s[lo..hi]) <==> lo < hi && forall k :: lo <= k < hi ==> IsAtomChar(s[k])
  {
    var t := s[lo..hi];
    if lo < hi && forall k :: lo <= k < hi ==> IsAtomChar(s[k]) {
      forall k | 0 <= k < |t| ensures IsAtomChar(t[k]) {
        assert t[k] == s[lo + k];
      }
    }
    if IsAtom(t) {
      forall k | lo <= k < hi ensures IsAtomChar(s[k]) {
        assert s[k] == t[k - lo];
      }
    }
  }

  /** A string the pattern accepts, split at the `@` at `a` and the `.` at
      `d`, is a well-formed address. */
  lemma ValidEmailShape(s: string, a: nat, d: nat)
    requires 0 <= a < d < |s| && s[a] == '@' && s[d] == '.'
    requires IsAtom(s[..a]) && IsAtom(s[a + 1..d]) && IsAtom(s[d + 1..])
    ensures IsWellFormedAddress(s)
  {
    assert s[..a] == s[0..a] && s[d + 1..] == s[d + 1..|s|];
    AtomSlice(s, 0, a);
    AtomSlice(s, a + 1, d);
    AtomSlice(s, d + 1, |s|);
    assert forall k :: 0 <= k < |s| && k != a && k != d ==> IsAtomChar(s[k]);
    var before, after := s[..a], s[a + 1..];
    OccurrencesAround(s, a, '@');
    assert forall k :: 0 <= k < |before| ==> before[k] == s[k];
    assert forall k :: 0 <= k < |after| ==> after[k] == s[a + 1 + k];
    assert d - a - 1 > 0 && after[d - a - 1] == '.';
  }

  /** A well-formed address, with its `@` at `i` and an interior dot of the
      part after it at `d`, splits as the pattern requires. */
  lemma WellFormedIsValid(s: string, i: nat, d: nat)
    requires 0 < i && i + 1 < d < |s| - 1 && s[i] == '@' && s[d] == '.'
    requires forall k :: 0 <= k < |s| ==> !IsWhitespace(s[k])
    requires Occurrences(s, '@') == 1
    ensures IsValidEmail(s)
  {
    OnlyAt(s, i, '@');
    assert forall k :: 0 <= k < |s| && k != i ==> IsAtomChar(s[k]);
    assert s[..i] == s[0..i] && s[d + 1..] == s[d + 1..|s|];
    AtomSlice(s, 0, i);
    AtomSlice(s, i + 1, d);
    AtomSlice(s, d + 1, |s|);
    assert IsAtom(s[..i]) && IsAtom(s[i + 1..d]) && IsAtom(s[d + 1..]);
  }
}
