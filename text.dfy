/**
 * The parts of Python's `str` that the agent relies on: `strip`, `split()`,
 * `split(sep)`, `join`, `replace`, `in`, `startswith`, `lower` and `str(int)`.
 * Each is written as the scan CPython performs, and its contract says what the
 * result means rather than how it is computed.
 */
module Text {
  import opened Wrappers

  /** Python's `str.isspace` for a single character (the full Unicode list). */
  predicate IsSpace(c: char) {
    var n := c as int;
    n == 0x20 || 0x09 <= n <= 0x0D || 0x1C <= n <= 0x1F || n == 0x85 || n == 0xA0
    || n == 0x1680 || 0x2000 <= n <= 0x200A || n == 0x2028 || n == 0x2029
    || n == 0x202F || n == 0x205F || n == 0x3000
  }

  predicate AllSpace(s: string) {
    forall k :: 0 <= k < |s| ==> IsSpace(s[k])
  }

  predicate NoSpace(s: string) {
    forall k :: 0 <= k < |s| ==> !IsSpace(s[k])
  }

  /** No whitespace at either end: the shape of everything `strip` returns. */
  predicate IsStripped(s: string) {
    s == [] || (!IsSpace(s[0]) && !IsSpace(s[|s| - 1]))
  }

  /** Every whitespace character is a single blank between two non-blank characters. */
  predicate SingleSpaced(s: string) {
    forall k :: 0 <= k < |s| && IsSpace(s[k]) ==>
      s[k] == ' ' && 0 < k < |s| - 1 && !IsSpace(s[k - 1]) && !IsSpace(s[k + 1])
  }

  // ---------------------------------------------------------------- strip

  /** The first index at or after `i` that does not hold whitespace (`|s|` if there is none). */
  function SkipSpaces(s: string, i: nat): (j: nat)
    requires i <= |s|
    ensures i <= j <= |s|
    ensures forall k :: i <= k < j ==> IsSpace(s[k])
    ensures j < |s| ==> !IsSpace(s[j])
    decreases |s| - i
  {
    if i < |s| && IsSpace(s[i]) then SkipSpaces(s, i + 1) else i
  }

  /** The end of `s[..j]` once its trailing whitespace is dropped. */
  function DropTrailing(s: string, j: nat): (e: nat)
    requires j <= |s|
    ensures e <= j
    ensures forall k :: e <= k < j ==> IsSpace(s[k])
    ensures e > 0 ==> !IsSpace(s[e - 1])
  {
    if j > 0 && IsSpace(s[j - 1]) then DropTrailing(s, j - 1) else j
  }

  /** `s.lstrip()` */
  function TrimStart(s: string): (r: string)
    ensures r == [] || !IsSpace(r[0])
  {
    s[SkipSpaces(s, 0)..]
  }

  /**
   * `s.strip()`: `s` without the whitespace at both of its ends; it starts where
   * `lstrip` starts, and everything cut away is whitespace.
   */
  function Strip(s: string): (r: string)
    ensures IsStripped(r)
    ensures var i := SkipSpaces(s, 0);
      i + |r| <= |s| && r == s[i..i + |r|]
      && (forall k :: 0 <= k < i ==> IsSpace(s[k]))
      && (forall k :: i + |r| <= k < |s| ==> IsSpace(s[k]))
    ensures r == [] <==> AllSpace(s)
    ensures IsStripped(s) ==> r == s
  {
    var i := SkipSpaces(s, 0);
    var e := DropTrailing(s, |s|);
    if i == |s| then []
    else
      assert i < e;
      s[i..e]
  }

  // ---------------------------------------------------------------- split() and join

  /** The longest prefix of `s` that holds no whitespace. */
  function TakeWord(s: string): (w: string)
    ensures w <= s && NoSpace(w)
    ensures |w| < |s| ==> IsSpace(s[|w|])
    ensures s != [] && !IsSpace(s[0]) ==> w != []
  {
    if s == [] || IsSpace(s[0]) then [] else [s[0]] + TakeWord(s[1..])
  }

  /** Python's `s.split()`: the maximal runs of non-whitespace characters, in order. */
  function Words(s: string): (ws: seq<string>)
    ensures forall i :: 0 <= i < |ws| ==> ws[i] != [] && NoSpace(ws[i])
    ensures ws == [] <==> AllSpace(s)
    decreases |s|
  {
    var i := SkipSpaces(s, 0);
    if i == |s| then []
    else
      var t := s[i..];
      var w := TakeWord(t);
      assert w != [] && !AllSpace(s) by { assert !IsSpace(s[i]); }
      [w] + Words(t[|w|..])
  }

  /** Python's `sep.join(parts)`. */
  function Join(parts: seq<string>, sep: string): string {
    if |parts| == 0 then ""
    else if |parts| == 1 then parts[0]
    else parts[0] + sep + Join(parts[1..], sep)
  }

  lemma {:induction false} JoinHeadPrefix(parts: seq<string>, sep: string)
    requires |parts| >= 1
    ensures parts[0] <= Join(parts, sep)
  {
  }

  lemma {:induction false} JoinPrepend(c: char, parts: seq<string>, sep: string)
    requires |parts| >= 1
    ensures Join([[c] + parts[0]] + parts[1..], sep) == [c] + Join(parts, sep)
  {
    var ps := [[c] + parts[0]] + parts[1..];
    if |parts| > 1 {
      assert ps[1..] == parts[1..];
    }
  }

  lemma {:induction false} TakeWordOfWord(w: string, x: string)
    requires NoSpace(w)
    requires x == [] || IsSpace(x[0])
    ensures TakeWord(w + x) == w
  {
    if w != [] {
      assert (w + x)[1..] == w[1..] + x;
      TakeWordOfWord(w[1..], x);
    } else {
      assert w + x == x;
    }
  }

  lemma WordsOfWordThen(w: string, rest: string)
    requires w != [] && NoSpace(w)
    ensures Words(w + " " + rest) == [w] + Words(rest)
  {
    var x := " " + rest;
    var s := w + x;
    assert w + " " + rest == s;
    TrimStartOfWord(w, x);
    TakeWordOfWord(w, x);
    assert s[|w|..] == x;
    WordsOfBlank(rest);
  }

  lemma TrimStartOfWord(w: string, x: string)
    requires w != [] && NoSpace(w)
    ensures TrimStart(w + x) == w + x
  {
    assert (w + x)[0] == w[0];
  }

  lemma WordsOfBlank(rest: string)
    ensures Words(" " + rest) == Words(rest)
  {
    SkipSpacesShift(rest, ' ');
    assert (" " + rest)[SkipSpaces(" " + rest, 0)..] == rest[SkipSpaces(rest, 0)..];
  }

  lemma SkipSpacesShift(s: string, c: char)
    requires IsSpace(c)
    ensures SkipSpaces([c] + s, 0) == SkipSpaces(s, 0) + 1
  {
    SkipSpacesFrom(s, c, 0);
  }

  lemma {:induction false} SkipSpacesFrom(s: string, c: char, i: nat)
    requires i <= |s|
    ensures SkipSpaces([c] + s, i + 1) == SkipSpaces(s, i) + 1
    decreases |s| - i
  {
    var x := [c] + s;
    if i < |s| {
      assert x[i + 1] == s[i];
      if IsSpace(s[i]) {
        SkipSpacesFrom(s, c, i + 1);
      }
    }
  }

  /** Joining non-empty, blank-free words with single blanks and splitting again gives them back. */
  lemma {:induction false} WordsOfJoin(ws: seq<string>)
    requires forall i :: 0 <= i < |ws| ==> ws[i] != [] && NoSpace(ws[i])
    ensures Words(Join(ws, " ")) == ws
  {
    if |ws| == 1 {
      WordsOfWord(ws[0]);
    } else if |ws| > 1 {
      var rest := Join(ws[1..], " ");
      assert Join(ws, " ") == ws[0] + " " + rest;
      WordsOfWordThen(ws[0], rest);
      WordsOfJoin(ws[1..]);
      assert [ws[0]] + ws[1..] == ws;
    }
  }

  /** A single non-empty, blank-free word splits into itself. */
  lemma WordsOfWord(w: string)
    requires w != [] && NoSpace(w)
    ensures Words(w) == [w]
  {
    TakeWordOfWord(w, []);
    assert w + [] == w;
    assert SkipSpaces(w, 0) == 0;
    assert w[|w|..] == [];
  }

  lemma {:induction false} JoinWordsSingleSpaced(ws: seq<string>)
    requires forall i :: 0 <= i < |ws| ==> ws[i] != [] && NoSpace(ws[i])
    ensures SingleSpaced(Join(ws, " "))
    ensures ws != [] ==> Join(ws, " ") != [] && !IsSpace(Join(ws, " ")[0])
  {
    if |ws| == 1 {
    } else if |ws| > 1 {
      var w := ws[0];
      var r := Join(ws[1..], " ");
      JoinWordsSingleSpaced(ws[1..]);
      var s := w + " " + r;
      assert Join(ws, " ") == s;
      forall k | 0 <= k < |s|
        ensures IsSpace(s[k]) ==> s[k] == ' ' && 0 < k < |s| - 1 && !IsSpace(s[k - 1]) && !IsSpace(s[k + 1])
      {
        if k < |w| {
          assert s[k] == w[k];
        } else if k == |w| {
          assert s[k - 1] == w[|w| - 1];
          assert s[k + 1] == r[0];
        } else {
          assert s[k] == r[k - |w| - 1];
          if k - |w| - 1 > 0 {
            assert s[k - 1] == r[k - |w| - 2];
          }
          if k + 1 < |s| {
            assert s[k + 1] == r[k - |w|];
          }
        }
      }
    }
  }

  // ---------------------------------------------------------------- in, startswith

  /** `s.startswith(prefix)` */
  predicate StartsWith(s: string, prefix: string) {
    |prefix| <= |s| && s[..|prefix|] == prefix
  }

  /** Python's substring test `pat in s`. */
  predicate Contains(s: string, pat: string)
    decreases |s|
  {
    StartsWith(s, pat) || (s != [] && Contains(s[1..], pat))
  }

  lemma {:induction false} ContainsAt(s: string, pat: string, i: nat)
    requires i + |pat| <= |s| && s[i..i + |pat|] == pat
    ensures Contains(s, pat)
  {
    if i > 0 {
      assert s[1..][i - 1..i - 1 + |pat|] == s[i..i + |pat|];
      ContainsAt(s[1..], pat, i - 1);
    }
  }

  lemma {:induction false} ContainsWitness(s: string, pat: string) returns (i: nat)
    requires Contains(s, pat)
    ensures i + |pat| <= |s| && s[i..i + |pat|] == pat
    decreases |s|
  {
    if StartsWith(s, pat) {
      i := 0;
    } else {
      var j := ContainsWitness(s[1..], pat);
      i := j + 1;
      assert s[i..i + |pat|] == s[1..][j..j + |pat|];
    }
  }

  /** For a one-character pattern, `[c] in s` is plain membership. */
  lemma ContainsChar(s: string, c: char)
    ensures Contains(s, [c]) <==> c in s
  {
    if Contains(s, [c]) {
      var i := ContainsWitness(s, [c]);
      assert s[i] == s[i..i + 1][0];
    }
    if c in s {
      var i :| 0 <= i < |s| && s[i] == c;
      assert s[i..i + 1] == [c];
      ContainsAt(s, [c], i);
    }
  }

  // ---------------------------------------------------------------- split(sep), replace

  /** Python's `s.split(sep)` for a non-empty separator: cut at the leftmost, non-overlapping occurrences. */
  function SplitOn(s: string, sep: string): (parts: seq<string>)
    requires sep != []
    ensures |parts| >= 1
    decreases |s|
  {
    if |s| < |sep| then [s]
    else if s[..|sep|] == sep then
      [""] + SplitOn(s[|sep|..], sep)
    else
      var rest := SplitOn(s[1..], sep);
      [[s[0]] + rest[0]] + rest[1..]
  }

  /** Joining the pieces with the separator gives the text back. */
  lemma {:induction false} SplitOnRejoins(s: string, sep: string)
    requires sep != []
    ensures Join(SplitOn(s, sep), sep) == s
    decreases |s|
  {
    if |s| >= |sep| {
      if s[..|sep|] == sep {
        var rest := SplitOn(s[|sep|..], sep);
        SplitOnRejoins(s[|sep|..], sep);
        assert ([""] + rest)[1..] == rest;
        assert s == sep + s[|sep|..];
      } else {
        var rest := SplitOn(s[1..], sep);
        SplitOnRejoins(s[1..], sep);
        JoinPrepend(s[0], rest, sep);
        assert s == [s[0]] + s[1..];
      }
    }
  }

  /** No piece that `split` returns contains the separator. */
  lemma {:induction false} SplitOnPiecesFree(s: string, sep: string)
    requires sep != []
    ensures forall i :: 0 <= i < |SplitOn(s, sep)| ==> !Contains(SplitOn(s, sep)[i], sep)
    decreases |s|
  {
    var parts := SplitOn(s, sep);
    if |s| < |sep| {
      if Contains(s, sep) {
        var i := ContainsWitness(s, sep);
      }
    } else if s[..|sep|] == sep {
      SplitOnPiecesFree(s[|sep|..], sep);
      assert !Contains("", sep);
    } else {
      var rest := SplitOn(s[1..], sep);
      SplitOnPiecesFree(s[1..], sep);
      SplitOnRejoins(s[1..], sep);
      JoinHeadPrefix(rest, sep);
      var head := [s[0]] + rest[0];
      assert head <= s;
      assert |sep| <= |head| ==> head[..|sep|] == s[..|sep|];
      assert head[1..] == rest[0];
      assert parts[1..] == rest[1..];
    }
  }

  /** `split` cuts anywhere exactly when the separator occurs. */
  lemma SplitOnSingle(s: string, sep: string)
    requires sep != []
    ensures |SplitOn(s, sep)| == 1 <==> !Contains(s, sep)
  {
    var parts := SplitOn(s, sep);
    SplitOnPiecesFree(s, sep);
    SplitOnRejoins(s, sep);
    if |parts| > 1 {
      assert s == parts[0] + sep + Join(parts[1..], sep);
      assert s[|parts[0]|..|parts[0]| + |sep|] == sep;
      ContainsAt(s, sep, |parts[0]|);
    }
  }

  lemma {:induction false} SplitOnAfterSeparator(a: string, c: char, b: string)
    requires c !in a
    ensures SplitOn(a + [c] + b, [c]) == [a] + SplitOn(b, [c])
  {
    var s := a + [c] + b;
    if a == [] {
      assert s == [c] + b;
      assert s[1..] == b;
    } else {
      assert s[..1] == [a[0]];
      assert s[1..] == a[1..] + [c] + b;
      SplitOnAfterSeparator(a[1..], c, b);
      assert [a[0]] + a[1..] == a;
    }
  }

  /** Splitting on a character undoes joining with it, when no piece holds that character. */
  lemma {:induction false} SplitOnJoin(ls: seq<string>, c: char)
    requires |ls| >= 1
    requires forall i :: 0 <= i < |ls| ==> c !in ls[i]
    ensures SplitOn(Join(ls, [c]), [c]) == ls
  {
    if |ls| == 1 {
      ContainsChar(ls[0], c);
      SplitOnSingle(ls[0], [c]);
      SplitOnRejoins(ls[0], [c]);
      JoinHeadPrefix(SplitOn(ls[0], [c]), [c]);
    } else {
      SplitOnJoin(ls[1..], c);
      assert Join(ls, [c]) == ls[0] + [c] + Join(ls[1..], [c]);
      SplitOnAfterSeparator(ls[0], c, Join(ls[1..], [c]));
      assert [ls[0]] + ls[1..] == ls;
    }
  }

  /** Python's `s.replace(pat, rep)`: every leftmost, non-overlapping occurrence replaced. */
  function ReplaceAll(s: string, pat: string, rep: string): (r: string)
    requires pat != []
    ensures r == Join(SplitOn(s, pat), rep)
    decreases |s|
  {
    if |s| < |pat| then s
    else if s[..|pat|] == pat then
      var rest := ReplaceAll(s[|pat|..], pat, rep);
      assert ([""] + SplitOn(s[|pat|..], pat))[1..] == SplitOn(s[|pat|..], pat);
      rep + rest
    else
      var rest := ReplaceAll(s[1..], pat, rep);
      JoinPrepend(s[0], SplitOn(s[1..], pat), rep);
      [s[0]] + rest
  }

  /** Replacing a pattern that does not occur changes nothing. */
  lemma ReplaceAbsent(s: string, pat: string, rep: string)
    requires pat != [] && !Contains(s, pat)
    ensures ReplaceAll(s, pat, rep) == s
  {
    SplitOnSingle(s, pat);
    JoinHeadPrefix(SplitOn(s, pat), pat);
  }

  /** Where the pattern occurs, its replacement occurs in the result. */
  lemma ReplacePresent(s: string, pat: string, rep: string)
    requires pat != [] && Contains(s, pat)
    ensures Contains(ReplaceAll(s, pat, rep), rep)
  {
    var parts := SplitOn(s, pat);
    SplitOnSingle(s, pat);
    var r := ReplaceAll(s, pat, rep);
    assert r == parts[0] + rep + Join(parts[1..], rep);
    assert r[|parts[0]|..|parts[0]| + |rep|] == rep;
    ContainsAt(r, rep, |parts[0]|);
  }

  /** A character that is in neither the text nor the replacement is not in the result. */
  lemma {:induction false} ReplaceKeepsOut(s: string, pat: string, rep: string, x: char)
    requires pat != [] && x !in s && x !in rep
    ensures x !in ReplaceAll(s, pat, rep)
    decreases |s|
  {
    if |s| < |pat| {
    } else if s[..|pat|] == pat {
      ReplaceKeepsOut(s[|pat|..], pat, rep, x);
    } else {
      ReplaceKeepsOut(s[1..], pat, rep, x);
    }
  }

  /** Replacing a one-character pattern by a different text removes that character. */
  lemma {:induction false} ReplaceCharRemoves(s: string, c: char, rep: string)
    requires c !in rep
    ensures c !in ReplaceAll(s, [c], rep)
    decreases |s|
  {
    if |s| >= 1 {
      if s[..1] == [c] {
        ReplaceCharRemoves(s[1..], c, rep);
      } else {
        assert s[0] != c by { assert s[..1][0] == s[0]; }
        ReplaceCharRemoves(s[1..], c, rep);
      }
    }
  }

  /** Replacing one character by another is a character-by-character map. */
  lemma {:induction false} ReplaceCharByChar(s: string, c: char, d: char)
    ensures |ReplaceAll(s, [c], [d])| == |s|
    ensures forall i :: 0 <= i < |s| ==> ReplaceAll(s, [c], [d])[i] == (if s[i] == c then d else s[i])
    decreases |s|
  {
    if |s| >= 1 {
      ReplaceCharByChar(s[1..], c, d);
      var r := ReplaceAll(s, [c], [d]);
      var rest := ReplaceAll(s[1..], [c], [d]);
      if s[..1] == [c] {
        assert s[0] == c by { assert s[..1][0] == s[0]; }
        assert r == [d] + rest;
      } else {
        assert s[0] != c by { assert s[..1][0] == s[0]; }
        assert r == [s[0]] + rest;
      }
      forall i | 0 <= i < |s|
        ensures r[i] == (if s[i] == c then d else s[i])
      {
        if i > 0 {
          assert r[i] == rest[i - 1] && s[1..][i - 1] == s[i];
        }
      }
    }
  }

  // ---------------------------------------------------------------- lines and fields

  /** `s.strip().split('\n')[0]`: the first line of the stripped text. */
  function FirstLine(s: string): (r: string)
    ensures r <= Strip(s) && '\n' !in r
    ensures |r| < |Strip(s)| ==> Strip(s)[|r|] == '\n'
    ensures Strip(s) != [] ==> r != []
  {
    var t := Strip(s);
    var parts := SplitOn(t, "\n");
    SplitOnPiecesFree(t, "\n");
    SplitOnRejoins(t, "\n");
    ContainsChar(parts[0], '\n');
    JoinHeadPrefix(parts, "\n");
    assert |parts| > 1 ==> t[|parts[0]|] == '\n' by {
      if |parts| > 1 {
        assert t == parts[0] + "\n" + Join(parts[1..], "\n");
      }
    }
    assert t != [] && parts[0] == [] ==> t[0] == '\n' && IsSpace(t[0]);
    parts[0]
  }

  /** `s.split(c, 1)[1]`: what follows the first `c`; `None` where Python raises IndexError. */
  function AfterFirst(s: string, c: char): (r: Option<string>)
    ensures r.Some? <==> c in s
    ensures r.Some? ==>
      |r.value| < |s| && s[|s| - |r.value| - 1] == c && c !in s[..|s| - |r.value| - 1]
      && r.value == s[|s| - |r.value|..]
  {
    if s == [] then None
    else if s[0] == c then Some(s[1..])
    else
      var r := AfterFirst(s[1..], c);
      assert r.Some? ==> s[..|s| - |r.value| - 1] == [s[0]] + s[1..][..|s| - 1 - |r.value| - 1];
      assert c in s ==> c in s[1..] by {
        if c in s {
          var k :| 0 <= k < |s| && s[k] == c;
          assert s[1..][k - 1] == c;
        }
      }
      r
  }

  // ---------------------------------------------------------------- lower, str(int)

  function LowerChar(c: char): char {
    if 'A' <= c <= 'Z' then (c as int + 32) as char else c
  }

  /**
   * `s.lower()` restricted to ASCII. For the comparisons the agent makes against
   * "darwin", "linux" and "windows" this agrees with Python: no other character
   * lower-cases to a single one of the letters those words use.
   */
  function AsciiLower(s: string): string {
    if s == [] then [] else [LowerChar(s[0])] + AsciiLower(s[1..])
  }

  function DigitChar(d: nat): char
    requires d < 10
  {
    "0123456789"[d]
  }

  /** Python's `str(n)` for a natural number: decimal digits, no leading zero. */
  function NatToString(n: nat): (r: string)
    ensures r != [] && forall k :: 0 <= k < |r| ==> '0' <= r[k] <= '9'
    ensures |r| > 1 ==> r[0] != '0'
  {
    if n < 10 then [DigitChar(n)] else NatToString(n / 10) + [DigitChar(n % 10)]
  }

  /** Python's `str(i)` for an integer. */
  function IntToString(i: int): string {
    if i < 0 then "-" + NatToString(-i) else NatToString(i)
  }
}
