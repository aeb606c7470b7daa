/**
 * Plate normaliser and validator.
 *
 * Every script cleans the OCR output inline with
 * `.strip().replace(" ", "").replace("\n", "")` and then tests it with
 * `re.match(r"^[A-Z]{2}[0-9]{2}[A-Z]{2}[0-9]{4}$", text)`.
 */
module Plates {

  /** Python's `str.isspace()`: the characters `str.strip()` removes. */
  predicate IsPythonSpace(c: char)
  {
    || ('\t' <= c <= '\r')
    || ('\U{1C}' <= c <= ' ')
    || c == '\U{85}' || c == '\U{A0}' || c == '\U{1680}'
    || ('\U{2000}' <= c <= '\U{200A}')
    || c == '\U{2028}' || c == '\U{2029}' || c == '\U{202F}' || c == '\U{205F}' || c == '\U{3000}'
  }

  /** Every character of w is whitespace. */
  predicate AllSpace(w: string)
  {
    forall k :: 0 <= k < |w| ==> IsPythonSpace(w[k])
  }

  /** The index of the first non-whitespace character of s at or after i, or |s|. */
  function SkipSpace(s: string, i: nat): (n: nat)
    requires i <= |s|
    ensures i <= n <= |s|
    ensures forall k :: i <= k < n ==> IsPythonSpace(s[k])
    ensures n < |s| ==> !IsPythonSpace(s[n])
    decreases |s| - i
  {
    if i < |s| && IsPythonSpace(s[i]) then SkipSpace(s, i + 1) else i
  }

  /** The end of s[lo..j] once the whitespace just before j is dropped. */
  function SkipSpaceBack(s: string, lo: nat, j: nat): (m: nat)
    requires lo <= j <= |s|
    ensures lo <= m <= j
    ensures forall k :: m <= k < j ==> IsPythonSpace(s[k])
    ensures m > lo ==> !IsPythonSpace(s[m - 1])
    decreases j
  {
    if j > lo && IsPythonSpace(s[j - 1]) then SkipSpaceBack(s, lo, j - 1) else j
  }

  /** r is s[i..j] and every character of s outside [i, j) is whitespace. */
  predicate StrippedAt(s: string, r: string, i: int, j: int)
  {
    && 0 <= i <= j <= |s| && r == s[i..j]
    && (forall k :: 0 <= k < i ==> IsPythonSpace(s[k]))
    && (forall k :: j <= k < |s| ==> IsPythonSpace(s[k]))
  }

  /**
   * `s.strip()`: the slice of s left once the whitespace at both ends is
   * dropped; it neither starts nor ends with whitespace.
   */
  function Strip(s: string): (r: string)
    ensures exists i, j :: StrippedAt(s, r, i, j)
    ensures r == [] || (!IsPythonSpace(r[0]) && !IsPythonSpace(r[|r| - 1]))
    ensures forall x :: x in r ==> x in s
  {
    var i := SkipSpace(s, 0);
    var j := SkipSpaceBack(s, i, |s|);
    SliceChars(s, s[i..j], i);
    assert StrippedAt(s, s[i..j], i, j);
    s[i..j]
  }

  /** Every character of a slice of s occurs in s. */
  lemma SliceChars(s: string, t: string, from: nat)
    requires from + |t| <= |s| && t == s[from..from + |t|]
    ensures forall x :: x in t ==> x in s
  {
    forall x | x in t ensures x in s {
      var i :| 0 <= i < |t| && t[i] == x;
      assert s[from + i] == x;
    }
  }

  /**
   * `s.replace(c, "")` for a one-character string c: every c is dropped and
   * every other character kept, as often as it occurs in s.
   */
  function RemoveChar(s: string, c: char): (r: string)
    ensures c !in r
    ensures forall x :: x in r ==> x in s
    ensures c !in s ==> r == s
    ensures |s| > 0 && s[0] != c ==> |r| > 0 && r[0] == s[0]
    ensures |s| > 0 && s[|s| - 1] != c ==> |r| > 0 && r[|r| - 1] == s[|s| - 1]
  {
    if s == [] then []
    else
      assert s == [s[0]] + s[1..];
      if s[0] == c then RemoveChar(s[1..], c)
      else [s[0]] + RemoveChar(s[1..], c)
  }

  /** Every character other than c occurs in the result as often as in the input. */
  lemma {:induction false} RemoveCharCounts(s: string, c: char)
    ensures forall x :: x != c ==> multiset(RemoveChar(s, c))[x] == multiset(s)[x]
  {
    if s != [] {
      assert s == [s[0]] + s[1..];
      RemoveCharCounts(s[1..], c);
    }
  }

  /** The inline clean-up `text.strip().replace(" ", "").replace("\n", "")`. */
  function Normalize(text: string): (plate: string)
    ensures ' ' !in plate && '\n' !in plate
    ensures forall x :: x in plate ==> x in text
    ensures plate == [] || (!IsPythonSpace(plate[0]) && !IsPythonSpace(plate[|plate| - 1]))
  {
    RemoveChar(RemoveChar(Strip(text), ' '), '\n')
  }

  /**
   * Removing c from a concatenation removes it from each part, so with its
   * action on a single character RemoveChar is the filter that keeps the
   * order of the characters other than c.
   */
  lemma {:induction false} RemoveCharAppend(a: string, b: string, c: char)
    ensures RemoveChar(a + b, c) == RemoveChar(a, c) + RemoveChar(b, c)
    decreases |a|
  {
    if a != [] {
      assert (a + b)[1..] == a[1..] + b;
      RemoveCharAppend(a[1..], b, c);
    } else {
      assert a + b == b;
    }
  }

  lemma RemoveCharSingle(x: char, c: char)
    ensures RemoveChar([x], c) == if x == c then [] else [x]
  {
    assert [x][1..] == [];
  }

  predicate IsUpper(c: char) { 'A' <= c <= 'Z' }

  predicate IsDigit(c: char) { '0' <= c <= '9' }

  /** The plate grammar LLDDLLDDDD: exactly ten characters, L in A-Z and D in 0-9. */
  predicate IsPlate(t: string)
  {
    && |t| == 10
    && IsUpper(t[0]) && IsUpper(t[1])
    && IsDigit(t[2]) && IsDigit(t[3])
    && IsUpper(t[4]) && IsUpper(t[5])
    && IsDigit(t[6]) && IsDigit(t[7]) && IsDigit(t[8]) && IsDigit(t[9])
  }

  /**
   * `is_valid_plate(text)` as Python's `re.match` evaluates the anchored
   * pattern: `$` also matches just before a final newline, so a plate
   * followed by one `\n` is accepted too.
   */
  predicate MatchesPlatePattern(text: string)
  {
    || IsPlate(text)
    || (|text| == 11 && IsPlate(text[..10]) && text[10] == '\n')
  }

  /** On normalised text the validator accepts exactly the grammar LLDDLLDDDD. */
  lemma PatternOnNormalized(text: string)
    ensures MatchesPlatePattern(Normalize(text)) <==> IsPlate(Normalize(text))
  {
    var plate := Normalize(text);
    if |plate| == 11 {
      assert plate[10] in plate;
    }
  }

  /** Every character of a plate is a capital letter or a digit, so none is whitespace. */
  lemma PlateHasNoSpace(p: string)
    requires IsPlate(p)
    ensures forall k :: 0 <= k < |p| ==> !IsPythonSpace(p[k]) && p[k] != ' ' && p[k] != '\n'
  {
    forall k | 0 <= k < |p|
      ensures !IsPythonSpace(p[k]) && p[k] != ' ' && p[k] != '\n'
    {
      assert k in {0, 1, 2, 3, 4, 5, 6, 7, 8, 9};
      assert IsUpper(p[k]) || IsDigit(p[k]);
    }
  }

  /** A plate has no whitespace, so it is its own normal form. */
  lemma PlateIsNormal(p: string)
    requires IsPlate(p)
    ensures Normalize(p) == p
  {
    PlateHasNoSpace(p);
    assert ' ' !in p && '\n' !in p;
    StripPadded([], p, []);
    assert [] + p + [] == p;
  }

  /** `strip()` returns text padded with whitespace on either side unpadded. */
  lemma StripPadded(w1: string, m: string, w2: string)
    requires AllSpace(w1) && AllSpace(w2)
    requires m != [] && !IsPythonSpace(m[0]) && !IsPythonSpace(m[|m| - 1])
    ensures Strip(w1 + m + w2) == m
  {
    var s := w1 + m + w2;
    var a, b := |w1|, |w1| + |m|;
    assert s[a] == m[0] && s[b - 1] == m[|m| - 1];
    assert forall k :: 0 <= k < a ==> s[k] == w1[k];
    assert forall k :: b <= k < |s| ==> s[k] == w2[k - b];
    var i := SkipSpace(s, 0);
    assert i == a;
    var j := SkipSpaceBack(s, i, |s|);
    assert j == b;
    assert s[a..b] == m;
  }

  /** A gap the OCR may put between two plate characters: spaces and newlines only. */
  predicate IsGap(g: string)
  {
    forall k :: 0 <= k < |g| ==> g[k] == ' ' || g[k] == '\n'
  }

  /** The characters of p with gaps[k] inserted after p[k]. */
  function Spaced(p: string, gaps: seq<string>): (t: string)
    requires |p| == |gaps| + 1
    ensures t != [] && t[0] == p[0] && t[|t| - 1] == p[|p| - 1]
    decreases |gaps|
  {
    if gaps == [] then p
    else [p[0]] + gaps[0] + Spaced(p[1..], gaps[1..])
  }

  /** The two character removals of the clean-up. */
  function DropSpacing(t: string): string
  {
    RemoveChar(RemoveChar(t, ' '), '\n')
  }

  lemma DropSpacingAppend(a: string, b: string)
    ensures DropSpacing(a + b) == DropSpacing(a) + DropSpacing(b)
  {
    RemoveCharAppend(a, b, ' ');
    RemoveCharAppend(RemoveChar(a, ' '), RemoveChar(b, ' '), '\n');
  }

  lemma {:induction false} GapVanishes(g: string)
    requires IsGap(g)
    ensures DropSpacing(g) == []
    decreases |g|
  {
    if g != [] {
      assert g == [g[0]] + g[1..];
      DropSpacingAppend([g[0]], g[1..]);
      RemoveCharSingle(g[0], ' ');
      if g[0] == '\n' {
        RemoveCharSingle('\n', '\n');
      }
      GapVanishes(g[1..]);
    }
  }

  lemma DropSpacingKeeps(x: char)
    requires x != ' ' && x != '\n'
    ensures DropSpacing([x]) == [x]
  {
    RemoveCharSingle(x, ' ');
    RemoveCharSingle(x, '\n');
  }

  /** A kept character followed by a gap: the gap vanishes, the character stays. */
  lemma DropCharAndGap(x: char, g: string, rest: string)
    requires x != ' ' && x != '\n' && IsGap(g)
    ensures DropSpacing([x] + (g + rest)) == [x] + DropSpacing(rest)
  {
    DropSpacingAppend([x], g + rest);
    DropSpacingAppend(g, rest);
    GapVanishes(g);
    DropSpacingKeeps(x);
    assert [] + DropSpacing(rest) == DropSpacing(rest);
  }

  lemma {:induction false} SpacedDropsToPlate(p: string, gaps: seq<string>)
    requires |p| == |gaps| + 1
    requires forall k :: 0 <= k < |gaps| ==> IsGap(gaps[k])
    requires forall k :: 0 <= k < |p| ==> p[k] != ' ' && p[k] != '\n'
    ensures DropSpacing(Spaced(p, gaps)) == p
    decreases |gaps|
  {
    if gaps == [] {
      assert p == [p[0]];
      DropSpacingKeeps(p[0]);
    } else {
      SpacedDropStep(p, gaps);
      SpacedDropsToPlate(p[1..], gaps[1..]);
      assert [p[0]] + p[1..] == p;
    }
  }

  /** One unfolding of Spaced: its first character stays, its first gap vanishes. */
  lemma SpacedDropStep(p: string, gaps: seq<string>)
    requires |p| == |gaps| + 1 && gaps != []
    requires IsGap(gaps[0]) && p[0] != ' ' && p[0] != '\n'
    ensures DropSpacing(Spaced(p, gaps)) == [p[0]] + DropSpacing(Spaced(p[1..], gaps[1..]))
  {
    var rest := Spaced(p[1..], gaps[1..]);
    assert Spaced(p, gaps) == [p[0]] + (gaps[0] + rest);
    DropCharAndGap(p[0], gaps[0], rest);
  }

  /**
   * A plate read with whitespace around it and spaces or newlines between
   * its characters cleans up to that plate.
   */
  lemma NormalizeSpacedPlate(w1: string, p: string, gaps: seq<string>, w2: string)
    requires IsPlate(p) && |gaps| + 1 == |p|
    requires forall k :: 0 <= k < |gaps| ==> IsGap(gaps[k])
    requires AllSpace(w1)
    requires AllSpace(w2)
    ensures Normalize(w1 + Spaced(p, gaps) + w2) == p
  {
    var m := Spaced(p, gaps);
    SpacedPlate(p, gaps);
    StripPadded(w1, m, w2);
    assert Normalize(w1 + m + w2) == DropSpacing(m);
  }

  /** A spaced-out plate starts and ends on a plate character and drops back to the plate. */
  lemma SpacedPlate(p: string, gaps: seq<string>)
    requires IsPlate(p) && |gaps| + 1 == |p|
    requires forall k :: 0 <= k < |gaps| ==> IsGap(gaps[k])
    ensures var m := Spaced(p, gaps);
      && !IsPythonSpace(m[0]) && !IsPythonSpace(m[|m| - 1])
      && DropSpacing(m) == p
  {
    PlateHasNoSpace(p);
    SpacedDropsToPlate(p, gaps);
  }

  /** Normalising twice is normalising once. */
  lemma NormalizeIdempotent(text: string)
    ensures Normalize(Normalize(text)) == Normalize(text)
  {
    var plate := Normalize(text);
    if plate != [] {
      StripPadded([], plate, []);
      assert [] + plate + [] == plate;
    }
  }
}
