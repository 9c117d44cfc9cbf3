/**
 * The two version scanners of the agent, written as explicit scanners over the
 * text instead of a regular-expression engine.
 *
 *  - `ExtractVersion` is `utils.extract_version`: the patterns `\d+\.\d+\.\d+\.\d+`,
 *    `\d+\.\d+\.\d+` and `\d+\.\d+` are tried in that order, each with `re.search`
 *    over the whole text, and the first pattern that matches anywhere wins.
 *  - `BoundedVersion` is the pattern `\b(\d+\.\d+\.\d+(?:\.\d+)?)\b` that
 *    `SoftwareDetector._extract_version` applies to the detection output.
 *
 * Why a deterministic scanner is exact here: every `\d+` that is followed by a
 * literal `.` must take the whole run of digits (a shorter run is followed by a
 * digit, not a dot), and the last `\d+` is greedy with nothing after it that a
 * shorter run could satisfy (for the bounded pattern a shorter run would put a
 * digit after it, which is no word boundary). So at each start index the regex
 * engine can produce at most one match, and `re.search` takes the leftmost start.
 */
module Versions {
  import opened Wrappers
  import opened Text

  predicate IsDigit(c: char) {
    '0' <= c <= '9'
  }

  predicate AllDigits(s: string) {
    forall k :: 0 <= k < |s| ==> IsDigit(s[k])
  }

  /**
   * A dotted number with exactly `k` components: digits and dots only, a digit at
   * both ends and after every dot, and `k - 1` dots.
   */
  predicate DottedNumber(v: string, k: nat) {
    && k >= 1 && v != [] && IsDigit(v[0]) && IsDigit(v[|v| - 1])
    && (forall j :: 0 <= j < |v| ==> IsDigit(v[j]) || v[j] == '.')
    && (forall j :: 0 <= j < |v| - 1 && v[j] == '.' ==> IsDigit(v[j + 1]))
    && multiset(v)['.'] == k - 1
  }

  /** A half-open window of the scanned text. */
  datatype Span = Span(start: nat, end: nat)

  // ---------------------------------------------------------------- digit runs

  /** The end of the run of digits that starts at `i` (`i` itself when `s[i]` is no digit). */
  function RunEnd(s: string, i: nat): (e: nat)
    requires i <= |s|
    ensures i <= e <= |s|
    ensures e == |s| || !IsDigit(s[e])
    decreases |s| - i
  {
    if i < |s| && IsDigit(s[i]) then RunEnd(s, i + 1) else i
  }

  /** Everything a digit run covers is a digit. */
  lemma {:induction false} RunEndDigits(s: string, i: nat)
    requires i <= |s|
    ensures forall k :: i <= k < RunEnd(s, i) ==> IsDigit(s[k])
    decreases |s| - i
  {
    if i < |s| && IsDigit(s[i]) {
      RunEndDigits(s, i + 1);
    }
  }

  /**
   * Where `\d+(\.\d+){k-1}` matches when it is tried at index `i`, or `None` when
   * it does not match there.
   */
  function DottedEnd(s: string, i: nat, k: nat): (r: Option<nat>)
    requires i <= |s| && k >= 1
    ensures r.Some? ==> i < r.value <= |s|
    decreases k
  {
    if i < |s| && IsDigit(s[i]) then
      var e := RunEnd(s, i);
      if k == 1 then Some(e)
      else if e < |s| && s[e] == '.' then DottedEnd(s, e + 1, k - 1)
      else None
    else None
  }

  /** `re.search` of the `k`-component pattern in `s` from index `from` on: the leftmost match. */
  function Search(s: string, k: nat, from: nat): (r: Option<Span>)
    requires from <= |s| && k >= 1
    ensures r.Some? ==>
      from <= r.value.start <= |s| && DottedEnd(s, r.value.start, k) == Some(r.value.end)
      && forall j :: from <= j < r.value.start ==> DottedEnd(s, j, k).None?
    ensures r.None? ==> forall j :: from <= j <= |s| ==> DottedEnd(s, j, k).None?
    decreases |s| - from
  {
    match DottedEnd(s, from, k)
    case Some(e) => Some(Span(from, e))
    case None => if from == |s| then None else Search(s, k, from + 1)
  }

  // ---------------------------------------------------------------- what a match looks like

  lemma {:induction false} AllDigitsNoDot(x: string)
    requires AllDigits(x)
    ensures multiset(x)['.'] == 0
  {
    assert '.' !in x;
  }

  /** The text a match covers, described position by position. */
  lemma {:induction false} DottedEndCovers(s: string, i: nat, k: nat)
    requires i <= |s| && k >= 1 && DottedEnd(s, i, k).Some?
    ensures var e := DottedEnd(s, i, k).value;
      && IsDigit(s[i]) && IsDigit(s[e - 1]) && (e == |s| || !IsDigit(s[e]))
      && (forall j :: i <= j < e ==> IsDigit(s[j]) || s[j] == '.')
      && (forall j :: i <= j < e - 1 && s[j] == '.' ==> IsDigit(s[j + 1]))
      && multiset(s[i..e])['.'] == k - 1
  {
    DottedEndPositions(s, i, k);
    DottedEndDots(s, i, k);
  }

  lemma {:induction false} DottedEndPositions(s: string, i: nat, k: nat)
    requires i <= |s| && k >= 1 && DottedEnd(s, i, k).Some?
    ensures var e := DottedEnd(s, i, k).value;
      && IsDigit(s[i]) && IsDigit(s[e - 1]) && (e == |s| || !IsDigit(s[e]))
      && (forall j :: i <= j < e ==> IsDigit(s[j]) || s[j] == '.')
      && (forall j :: i <= j < e - 1 && s[j] == '.' ==> IsDigit(s[j + 1]))
    decreases k
  {
    RunEndDigits(s, i);
    if k > 1 {
      DottedEndPositions(s, RunEnd(s, i) + 1, k - 1);
    }
  }

  lemma {:induction false} DottedEndDots(s: string, i: nat, k: nat)
    requires i <= |s| && k >= 1 && DottedEnd(s, i, k).Some?
    ensures multiset(s[i..DottedEnd(s, i, k).value])['.'] == k - 1
    decreases k
  {
    var e := DottedEnd(s, i, k).value;
    var e1 := RunEnd(s, i);
    RunEndDigits(s, i);
    AllDigitsNoDot(s[i..e1]);
    if k > 1 {
      DottedEndDots(s, e1 + 1, k - 1);
      assert s[i..e] == s[i..e1] + [s[e1]] + s[e1 + 1..e];
    }
  }

  /**
   * A match of the `k`-component pattern is a `k`-component dotted number, and it
   * is not followed by another digit.
   */
  lemma DottedEndShape(s: string, i: nat, k: nat)
    requires i <= |s| && k >= 1 && DottedEnd(s, i, k).Some?
    ensures var e := DottedEnd(s, i, k).value;
      DottedNumber(s[i..e], k) && (e == |s| || !IsDigit(s[e]))
  {
    DottedEndCovers(s, i, k);
    var e := DottedEnd(s, i, k).value;
    var v := s[i..e];
    forall j | 0 <= j < |v| - 1 && v[j] == '.'
      ensures IsDigit(v[j + 1])
    {
      assert v[j] == s[i + j] && v[j + 1] == s[i + j + 1];
    }
  }

  /** A match of more components also matches with fewer, from the same index. */
  lemma {:induction false} DottedEndFewer(s: string, i: nat, k: nat)
    requires i <= |s| && k >= 2 && DottedEnd(s, i, k).Some?
    ensures DottedEnd(s, i, k - 1).Some?
    decreases k
  {
    if k > 2 {
      DottedEndFewer(s, RunEnd(s, i) + 1, k - 1);
    }
  }

  lemma {:induction false} RunEndTake(s: string, hi: nat, i: nat)
    requires i <= hi <= |s| && RunEnd(s, i) <= hi
    ensures RunEnd(s[..hi], i) == RunEnd(s, i)
    decreases hi - i
  {
    if i < hi {
      assert s[..hi][i] == s[i];
      if IsDigit(s[i]) {
        RunEndTake(s, hi, i + 1);
      }
    }
  }

  lemma {:induction false} RunEndDrop(s: string, lo: nat, j: nat)
    requires lo + j <= |s|
    ensures lo + RunEnd(s[lo..], j) == RunEnd(s, lo + j)
    decreases |s| - lo - j
  {
    if lo + j < |s| {
      assert s[lo..][j] == s[lo + j];
      if IsDigit(s[lo + j]) {
        RunEndDrop(s, lo, j + 1);
      }
    }
  }

  /** Cutting the text after a match leaves the match as it was. */
  lemma {:induction false} DottedEndTake(s: string, hi: nat, i: nat, k: nat)
    requires i <= hi <= |s| && k >= 1 && DottedEnd(s, i, k).Some? && DottedEnd(s, i, k).value <= hi
    ensures DottedEnd(s[..hi], i, k) == DottedEnd(s, i, k)
    decreases k
  {
    var t := s[..hi];
    var e1 := RunEnd(s, i);
    DottedEndUnfold(s, i, k);
    RunEndTake(s, hi, i);
    assert t[i] == s[i];
    if k > 1 {
      DottedEndTake(s, hi, e1 + 1, k - 1);
      assert t[e1] == s[e1];
    }
    DottedEndFold(t, i, k);
  }

  /** Cutting the text before index `lo` shifts every match by `lo`. */
  lemma {:induction false} DottedEndDrop(s: string, lo: nat, j: nat, k: nat)
    requires lo + j <= |s| && k >= 1 && DottedEnd(s, lo + j, k).Some?
    ensures DottedEnd(s[lo..], j, k) == Some(DottedEnd(s, lo + j, k).value - lo)
    decreases k
  {
    var t := s[lo..];
    var r := RunEnd(t, j);
    var e1 := RunEnd(s, lo + j);
    DottedEndUnfold(s, lo + j, k);
    RunEndDrop(s, lo, j);
    assert e1 == lo + r;
    assert t[j] == s[lo + j];
    DottedEndFold(t, j, k);
    if k == 1 {
      assert DottedEnd(t, j, k) == Some(r);
    } else {
      assert t[r] == s[e1];
      var n := r + 1;
      assert lo + n == e1 + 1;
      DottedEndDrop(s, lo, n, k - 1);
      assert DottedEnd(t, j, k) == DottedEnd(t, n, k - 1);
      assert DottedEnd(s, lo + j, k) == DottedEnd(s, lo + n, k - 1);
    }
  }

  /** A match read again inside any window that holds it ends at the same place. */
  lemma DottedEndSlice(s: string, lo: nat, hi: nat, k: nat)
    requires lo <= hi <= |s| && k >= 1 && DottedEnd(s, lo, k).Some? && DottedEnd(s, lo, k).value <= hi
    ensures DottedEnd(s[lo..hi], 0, k) == Some(DottedEnd(s, lo, k).value - lo)
  {
    assert s[lo..hi] == s[..hi][lo..];
    DottedEndTake(s, hi, lo, k);
    DottedEndDrop(s[..hi], lo, 0, k);
  }

  /** A digit run starts a match, of one component or of a dot and `k - 1` more. */
  lemma DottedEndFold(s: string, i: nat, k: nat)
    requires i < |s| && IsDigit(s[i]) && k >= 1
    ensures k == 1 ==> DottedEnd(s, i, k) == Some(RunEnd(s, i))
    ensures k > 1 && RunEnd(s, i) < |s| && s[RunEnd(s, i)] == '.' ==>
      DottedEnd(s, i, k) == DottedEnd(s, RunEnd(s, i) + 1, k - 1)
  {
  }

  /** One step of a match: a digit run, then either the end or a dot and the rest. */
  lemma DottedEndUnfold(s: string, i: nat, k: nat)
    requires i <= |s| && k >= 1 && DottedEnd(s, i, k).Some?
    ensures i < |s| && IsDigit(s[i])
    ensures k == 1 ==> DottedEnd(s, i, k) == Some(RunEnd(s, i))
    ensures k > 1 ==> (RunEnd(s, i) < |s| && s[RunEnd(s, i)] == '.'
                       && DottedEnd(s, i, k) == DottedEnd(s, RunEnd(s, i) + 1, k - 1))
  {
  }

  /** A `k`-component match needs at least `k - 1` dots in the text. */
  lemma DottedEndNeedsDots(s: string, i: nat, k: nat)
    requires i <= |s| && k >= 1 && DottedEnd(s, i, k).Some?
    ensures k - 1 <= multiset(s)['.']
  {
    var e := DottedEnd(s, i, k).value;
    DottedEndCovers(s, i, k);
    assert s == s[..i] + s[i..e] + s[e..];
  }

  /** A whole dotted number of `k` components holds no match of more components. */
  lemma NoLongerMatch(v: string, k: nat, j: nat, k': nat)
    requires k >= 1 && DottedEnd(v, 0, k) == Some(|v|)
    requires j <= |v| && k' > k
    ensures DottedEnd(v, j, k').None?
  {
    DottedEndCovers(v, 0, k);
    assert v[0..|v|] == v;
    if DottedEnd(v, j, k').Some? {
      DottedEndNeedsDots(v, j, k');
    }
  }

  /** Where the pattern matches at index 0, the leftmost search finds that match. */
  lemma SearchFromStart(s: string, k: nat)
    requires k >= 1 && DottedEnd(s, 0, k).Some?
    ensures Search(s, k, 0) == Some(Span(0, DottedEnd(s, 0, k).value))
  {
  }

  /** A digit, a dot and a digit in a row: the least that `\d+\.\d+` needs. */
  predicate HasDigitDotDigit(s: string) {
    exists i :: 0 <= i && i + 2 < |s| && IsDigit(s[i]) && s[i + 1] == '.' && IsDigit(s[i + 2])
  }

  lemma DigitDotDigitMatches(s: string, i: nat)
    requires i + 2 < |s| && IsDigit(s[i]) && s[i + 1] == '.' && IsDigit(s[i + 2])
    ensures DottedEnd(s, i, 2).Some?
  {
    assert RunEnd(s, i + 1) == i + 1;
  }

  lemma {:induction false} MatchHasDigitDotDigit(s: string, i: nat, k: nat)
    requires i <= |s| && k >= 2 && DottedEnd(s, i, k).Some?
    ensures HasDigitDotDigit(s)
  {
    var e1 := RunEnd(s, i);
    RunEndDigits(s, i);
    assert IsDigit(s[e1 - 1]) && s[e1] == '.' && IsDigit(s[e1 + 1]);
  }

  // ---------------------------------------------------------------- utils.extract_version

  /** The component counts of the patterns `extract_version` tries, in order. */
  const VersionPatterns: seq<nat> := [4, 3, 2]

  /** The first of the patterns `ks` that matches anywhere in `s` decides the result. */
  function MatchFirst(s: string, ks: seq<nat>): (r: Option<string>)
    requires forall n :: 0 <= n < |ks| ==> ks[n] >= 1
  {
    if ks == [] then None
    else
      match Search(s, ks[0], 0)
      case Some(m) => Some(s[m.start..m.end])
      case None => MatchFirst(s, ks[1..])
  }

  /** `utils.extract_version` as a value: four components before three before two. */
  function ExtractVersion(s: string): Option<string> {
    MatchFirst(s, VersionPatterns)
  }

  /** The loop of `extract_version`: patterns in order, returning at the first match. */
  method ExtractVersionScan(output: string) returns (r: Option<string>)
    ensures r == ExtractVersion(output)
  {
    var n := 0;
    while n < |VersionPatterns|
      invariant 0 <= n <= |VersionPatterns|
      invariant MatchFirst(output, VersionPatterns[n..]) == ExtractVersion(output)
    {
      var m := Search(output, VersionPatterns[n], 0);
      if m.Some? {
        return Some(output[m.value.start..m.value.end]);
      }
      n := n + 1;
    }
    return None;
  }

  /** Which pattern produced the result: the first that matches anywhere. */
  lemma ExtractVersionPicks(s: string)
    ensures Search(s, 4, 0).Some? ==> ExtractVersion(s) == Some(s[Search(s, 4, 0).value.start..Search(s, 4, 0).value.end])
    ensures Search(s, 4, 0).None? && Search(s, 3, 0).Some? ==>
      ExtractVersion(s) == Some(s[Search(s, 3, 0).value.start..Search(s, 3, 0).value.end])
    ensures Search(s, 4, 0).None? && Search(s, 3, 0).None? ==>
      ExtractVersion(s) == (if Search(s, 2, 0).Some? then Some(s[Search(s, 2, 0).value.start..Search(s, 2, 0).value.end]) else None)
  {
    var m2 := Search(s, 2, 0);
    var m3 := Search(s, 3, 0);
    assert [2][1..] == [];
    assert MatchFirst(s, [2]) == (if m2.Some? then Some(s[m2.value.start..m2.value.end]) else None);
    assert [3, 2][1..] == [2];
    assert MatchFirst(s, [3, 2]) == (if m3.Some? then Some(s[m3.value.start..m3.value.end]) else MatchFirst(s, [2]));
    assert VersionPatterns[1..] == [3, 2];
  }

  /**
   * Pattern priority outranks position: if a four-component number occurs anywhere,
   * the result has four components, and otherwise a three-component number wins
   * over any two-component one.
   */
  lemma ExtractVersionPriority(s: string, i: nat)
    requires i <= |s|
    ensures DottedEnd(s, i, 4).Some? ==>
      ExtractVersion(s).Some? && DottedNumber(ExtractVersion(s).value, 4)
    ensures (forall j :: 0 <= j <= |s| ==> DottedEnd(s, j, 4).None?) && DottedEnd(s, i, 3).Some? ==>
      ExtractVersion(s).Some? && DottedNumber(ExtractVersion(s).value, 3)
  {
    ExtractVersionPicks(s);
    var m4 := Search(s, 4, 0);
    var m3 := Search(s, 3, 0);
    if m4.Some? {
      DottedEndShape(s, m4.value.start, 4);
    } else if m3.Some? {
      DottedEndShape(s, m3.value.start, 3);
    }
  }

  /** The four-component number later in the text beats the two-component one before it. */
  lemma ExtractVersionExample()
    ensures ExtractVersion("1.2 3.4.5.6") == Some("3.4.5.6")
  {
    var s := "1.2 3.4.5.6";
    assert RunEnd(s, 11) == 11;
    assert RunEnd(s, 10) == 11;
    assert RunEnd(s, 9) == 9;
    assert RunEnd(s, 8) == 9;
    assert RunEnd(s, 7) == 7;
    assert RunEnd(s, 6) == 7;
    assert RunEnd(s, 5) == 5;
    assert RunEnd(s, 4) == 5;
    assert RunEnd(s, 3) == 3;
    assert RunEnd(s, 2) == 3;
    assert RunEnd(s, 1) == 1;
    assert RunEnd(s, 0) == 1;
    assert DottedEnd(s, 10, 1) == Some(11);
    assert DottedEnd(s, 8, 2) == Some(11);
    assert DottedEnd(s, 6, 3) == Some(11);
    assert DottedEnd(s, 4, 4) == Some(11);
    assert DottedEnd(s, 2, 3).None?;
    assert DottedEnd(s, 0, 4).None?;
    assert Search(s, 4, 4) == Some(Span(4, 11));
    assert Search(s, 4, 3) == Search(s, 4, 4);
    assert Search(s, 4, 2) == Search(s, 4, 3);
    assert Search(s, 4, 1) == Search(s, 4, 2);
    assert Search(s, 4, 0) == Search(s, 4, 1);
    ExtractVersionPicks(s);
    assert s[4..11] == "3.4.5.6";
  }

  lemma MatchShape(s: string, k: nat, m: Span)
    requires k >= 1 && m.start <= |s| && DottedEnd(s, m.start, k) == Some(m.end)
    ensures Contains(s, s[m.start..m.end]) && DottedNumber(s[m.start..m.end], k)
  {
    DottedEndShape(s, m.start, k);
    ContainsAt(s, s[m.start..m.end], m.start);
  }

  /** The result is a dotted number of two to four components taken from the text. */
  lemma ExtractVersionShape(s: string)
    ensures ExtractVersion(s).Some? ==>
      var v := ExtractVersion(s).value;
      Contains(s, v) && (DottedNumber(v, 4) || DottedNumber(v, 3) || DottedNumber(v, 2))
  {
    ExtractVersionPicks(s);
    var m4 := Search(s, 4, 0);
    var m3 := Search(s, 3, 0);
    var m2 := Search(s, 2, 0);
    if m4.Some? {
      MatchShape(s, 4, m4.value);
    } else if m3.Some? {
      MatchShape(s, 3, m3.value);
    } else if m2.Some? {
      MatchShape(s, 2, m2.value);
    }
  }

  /** `extract_version` finds nothing exactly when no digit-dot-digit occurs in the text. */
  lemma ExtractVersionNone(s: string)
    ensures ExtractVersion(s).None? <==> !HasDigitDotDigit(s)
  {
    ExtractVersionPicks(s);
    var m4 := Search(s, 4, 0);
    var m3 := Search(s, 3, 0);
    var m2 := Search(s, 2, 0);
    if m4.Some? {
      MatchHasDigitDotDigit(s, m4.value.start, 4);
    } else if m3.Some? {
      MatchHasDigitDotDigit(s, m3.value.start, 3);
    } else if m2.Some? {
      MatchHasDigitDotDigit(s, m2.value.start, 2);
    } else if HasDigitDotDigit(s) {
      var i :| 0 <= i && i + 2 < |s| && IsDigit(s[i]) && s[i + 1] == '.' && IsDigit(s[i + 2]);
      DigitDotDigitMatches(s, i);
    }
  }

  /**
   * Searching inside a `k`-component match again finds all of it, and finds no
   * match of more components.
   */
  lemma SearchInsideMatch(s: string, k: nat, m: Span)
    requires k >= 1 && m.start <= |s| && DottedEnd(s, m.start, k) == Some(m.end)
    ensures var v := s[m.start..m.end];
      Search(v, k, 0) == Some(Span(0, |v|))
      && forall k' :: k < k' ==> Search(v, k', 0).None?
  {
    var v := s[m.start..m.end];
    DottedEndSlice(s, m.start, m.end, k);
    assert DottedEnd(v, 0, k) == Some(|v|);
    SearchFromStart(v, k);
    forall k' | k < k'
      ensures Search(v, k', 0).None?
    {
      if Search(v, k', 0).Some? {
        NoLongerMatch(v, k, Search(v, k', 0).value.start, k');
      }
    }
  }

  lemma ExtractWhole(v: string, k: nat)
    requires 2 <= k <= 4 && Search(v, k, 0) == Some(Span(0, |v|))
    requires forall k' :: k < k' ==> Search(v, k', 0).None?
    ensures ExtractVersion(v) == Some(v)
  {
    ExtractVersionPicks(v);
    assert v[0..|v|] == v;
  }

  /** Extracting from an extracted version gives it back unchanged. */
  lemma ExtractVersionIdempotent(s: string)
    requires ExtractVersion(s).Some?
    ensures ExtractVersion(ExtractVersion(s).value) == ExtractVersion(s)
  {
    ExtractVersionPicks(s);
    var m4 := Search(s, 4, 0);
    var m3 := Search(s, 3, 0);
    var m2 := Search(s, 2, 0);
    if m4.Some? {
      SearchInsideMatch(s, 4, m4.value);
      ExtractWhole(s[m4.value.start..m4.value.end], 4);
    } else if m3.Some? {
      SearchInsideMatch(s, 3, m3.value);
      ExtractWhole(s[m3.value.start..m3.value.end], 3);
    } else {
      SearchInsideMatch(s, 2, m2.value);
      ExtractWhole(s[m2.value.start..m2.value.end], 2);
    }
  }

  // ---------------------------------------------------------------- SoftwareDetector._extract_version

  /** The characters `\b` treats as word characters (ASCII letters, digits, underscore). */
  predicate IsWordChar(c: char) {
    IsDigit(c) || 'a' <= c <= 'z' || 'A' <= c <= 'Z' || c == '_'
  }

  /** `\b` before a word character at `i`. */
  predicate BoundaryBefore(s: string, i: nat)
    requires i <= |s|
  {
    i == 0 || !IsWordChar(s[i - 1])
  }

  /** `\b` after a word character that ends at `e`. */
  predicate BoundaryAfter(s: string, e: nat)
    requires e <= |s|
  {
    e == |s| || !IsWordChar(s[e])
  }

  /**
   * Where `\b(\d+\.\d+\.\d+(?:\.\d+)?)\b` matches when tried at `i`: the optional
   * fourth component is taken when the boundary holds after it, otherwise the match
   * ends after three components if the boundary holds there.
   */
  function BoundedAt(s: string, i: nat): (r: Option<nat>)
    requires i <= |s|
    ensures r.Some? ==> i < r.value <= |s|
  {
    if !BoundaryBefore(s, i) then None
    else
      match DottedEnd(s, i, 3)
      case None => None
      case Some(e3) =>
        match DottedEnd(s, i, 4)
        case Some(e4) =>
          if BoundaryAfter(s, e4) then Some(e4)
          else if BoundaryAfter(s, e3) then Some(e3) else None
        case None =>
          if BoundaryAfter(s, e3) then Some(e3) else None
  }

  /** The leftmost bounded match from `from` on. */
  function BoundedSearch(s: string, from: nat): (r: Option<Span>)
    requires from <= |s|
    ensures r.Some? ==>
      from <= r.value.start <= |s| && BoundedAt(s, r.value.start) == Some(r.value.end)
      && forall j :: from <= j < r.value.start ==> BoundedAt(s, j).None?
    ensures r.None? ==> forall j :: from <= j <= |s| ==> BoundedAt(s, j).None?
    decreases |s| - from
  {
    match BoundedAt(s, from)
    case Some(e) => Some(Span(from, e))
    case None => if from == |s| then None else BoundedSearch(s, from + 1)
  }

  /** The version the bounded pattern extracts from a detection output, if any. */
  function BoundedVersion(s: string): Option<string> {
    match BoundedSearch(s, 0)
    case Some(m) => Some(s[m.start..m.end])
    case None => None
  }

  /** A bounded match is a three- or four-component number standing as a whole word. */
  lemma BoundedAtShape(s: string, i: nat)
    requires i <= |s| && BoundedAt(s, i).Some?
    ensures var e := BoundedAt(s, i).value;
      (DottedNumber(s[i..e], 3) || DottedNumber(s[i..e], 4))
      && BoundaryBefore(s, i) && BoundaryAfter(s, e)
      && (DottedNumber(s[i..e], 3) ==> DottedEnd(s, i, 3) == Some(e))
      && (DottedNumber(s[i..e], 4) ==> DottedEnd(s, i, 4) == Some(e))
  {
    DottedEndShape(s, i, 3);
    if DottedEnd(s, i, 4).Some? {
      DottedEndShape(s, i, 4);
    }
  }

  /**
   * The version found is a three- or four-component number delimited by word
   * boundaries in the output; a two-component number is never the result.
   */
  lemma BoundedVersionShape(s: string)
    ensures BoundedVersion(s).Some? ==>
      var v := BoundedVersion(s).value;
      (DottedNumber(v, 3) || DottedNumber(v, 4)) && !DottedNumber(v, 2)
      && (exists i :: 0 <= i && i + |v| <= |s| && s[i..i + |v|] == v
            && BoundaryBefore(s, i) && BoundaryAfter(s, i + |v|))
  {
    if BoundedSearch(s, 0).Some? {
      var m := BoundedSearch(s, 0).value;
      BoundedAtShape(s, m.start);
      assert s[m.start..m.start + (m.end - m.start)] == s[m.start..m.end];
    }
  }

  /** Text with fewer than two dots holds no bounded version, so "1.2" alone yields none. */
  lemma BoundedVersionNeedsTwoDots(s: string)
    requires multiset(s)['.'] < 2
    ensures BoundedVersion(s).None?
  {
    if BoundedSearch(s, 0).Some? {
      var m := BoundedSearch(s, 0).value;
      DottedEndNeedsDots(s, m.start, 3);
    }
  }

  /** A whole dotted number of three or four components is its own bounded match. */
  lemma BoundedAtWhole(v: string, k: nat)
    requires (k == 3 || k == 4) && DottedEnd(v, 0, k) == Some(|v|)
    ensures BoundedAt(v, 0) == Some(|v|)
  {
    if k == 4 {
      DottedEndFewer(v, 0, 4);
    } else {
      NoLongerMatch(v, 3, 0, 4);
    }
  }

  /** Applying the bounded pattern to the version it found gives that version back. */
  lemma BoundedVersionIdempotent(s: string)
    requires BoundedVersion(s).Some?
    ensures BoundedVersion(BoundedVersion(s).value) == BoundedVersion(s)
  {
    var m := BoundedSearch(s, 0).value;
    var v := s[m.start..m.end];
    BoundedAtShape(s, m.start);
    var k := if DottedNumber(v, 4) then 4 else 3;
    DottedEndSlice(s, m.start, m.end, k);
    BoundedAtWhole(v, k);
    assert BoundedSearch(v, 0) == Some(Span(0, |v|));
    assert v[0..|v|] == v;
  }
}
