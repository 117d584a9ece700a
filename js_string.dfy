/**
 * The JavaScript string operations the bot relies on, following the
 * ECMAScript built-ins it calls: `startsWith`, `endsWith`, `trim`,
 * `split(' ')`, `split(/ +/)`, `toLowerCase` and the `\d` class.  Two
 * simplifications: `toLowerCase` folds ASCII letters only, and positions
 * count characters rather than UTF-16 code units.
 */
module JsString {

  /** `s.startsWith(p)`. */
  predicate StartsWith(s: string, p: string) {
    |p| <= |s| && s[..|p|] == p
  }

  /** `s.endsWith(p)`. */
  predicate EndsWith(s: string, p: string) {
    |p| <= |s| && s[|s| - |p|..] == p
  }

  /** The characters `trim` removes: ECMAScript WhiteSpace and LineTerminator. */
  predicate IsWhite(c: char) {
    c == '\t' || c == '\n' || c == '\U{000B}' || c == '\U{000C}' || c == '\r' || c == ' '
    || c == '\U{00A0}' || c == '\U{1680}' || ('\U{2000}' <= c <= '\U{200A}')
    || c == '\U{2028}' || c == '\U{2029}' || c == '\U{202F}' || c == '\U{205F}'
    || c == '\U{3000}' || c == '\U{FEFF}'
  }

  /** The regular-expression class `\d`: ASCII digits only. */
  predicate IsDigit(c: char) {
    '0' <= c <= '9'
  }

  /** The leading-whitespace half of `trim`: the longest suffix not starting with whitespace. */
  function TrimStart(s: string): (r: string)
    ensures |r| <= |s| && r == s[|s| - |r|..]
    ensures forall k :: 0 <= k < |s| - |r| ==> IsWhite(s[k])
    ensures r != [] ==> !IsWhite(r[0])
  {
    if s != [] && IsWhite(s[0]) then TrimStart(s[1..]) else s
  }

  /** The trailing-whitespace half of `trim`: the longest prefix not ending in whitespace. */
  function TrimEnd(s: string): (r: string)
    ensures |r| <= |s| && r == s[..|r|]
    ensures forall k :: |r| <= k < |s| ==> IsWhite(s[k])
    ensures r != [] ==> !IsWhite(r[|r| - 1])
  {
    if s != [] && IsWhite(s[|s| - 1]) then TrimEnd(s[..|s| - 1]) else s
  }

  /**
   * `s.trim()`: a contiguous piece of `s`, everything cut on either side is
   * whitespace, and the piece neither starts nor ends with whitespace.
   */
  function Trim(s: string): (r: string)
    ensures var a := |s| - |TrimStart(s)|;
      a + |r| <= |s| && r == s[a..a + |r|]
      && (forall k :: 0 <= k < a ==> IsWhite(s[k]))
      && (forall k :: a + |r| <= k < |s| ==> IsWhite(s[k]))
    ensures r != [] ==> !IsWhite(r[0]) && !IsWhite(r[|r| - 1])
  {
    var t := TrimStart(s);
    var r := TrimEnd(t);
    TrimSlice(s, t, r, |s| - |t|);
    r
  }

  /** The two halves of `Trim` compose into one slice with whitespace cut on both sides. */
  lemma TrimSlice(s: string, t: string, r: string, a: nat)
    requires a + |t| == |s| && t == s[a..]
    requires |r| <= |t| && r == t[..|r|]
    requires forall k :: |r| <= k < |t| ==> IsWhite(t[k])
    ensures a + |r| <= |s| && r == s[a..a + |r|]
    ensures forall k :: a + |r| <= k < |s| ==> IsWhite(s[k])
  {
    forall k | a + |r| <= k < |s|
      ensures IsWhite(s[k])
    {
      assert s[k] == t[k - a];
    }
  }

  /** Glues pieces back together with `sep` between neighbours (`parts.join(sep)`). */
  function Join(parts: seq<string>, sep: char): string
    requires |parts| >= 1
  {
    if |parts| == 1 then parts[0] else parts[0] + [sep] + Join(parts[1..], sep)
  }

  lemma JoinConsHead(c: char, parts: seq<string>, sep: char)
    requires |parts| >= 1
    ensures Join([[c] + parts[0]] + parts[1..], sep) == [c] + Join(parts, sep)
  {
    var q := [[c] + parts[0]] + parts[1..];
    assert q[1..] == parts[1..];
  }

  /**
   * `s.split(sep)` for a one-character string separator: the pieces never
   * contain the separator and joining them with it gives `s` back, so no
   * character is lost or invented.  Empty pieces are kept, and splitting the
   * empty string gives one empty piece.
   */
  function SplitOn(s: string, sep: char): (r: seq<string>)
    ensures |r| >= 1
    ensures forall i :: 0 <= i < |r| ==> sep !in r[i]
    ensures Join(r, sep) == s
  {
    if s == [] then [[]]
    else
      var rest := SplitOn(s[1..], sep);
      if s[0] == sep then
        assert ([[]] + rest)[1..] == rest;
        [[]] + rest
      else
        JoinConsHead(s[0], rest, sep);
        assert s == [s[0]] + s[1..];
        [[s[0]] + rest[0]] + rest[1..]
  }

  /**
   * The first piece of `SplitOn(s, sep)` is the longest prefix of `s` free of
   * `sep`: it is a prefix of `s`, and it either is all of `s` or is followed by `sep`.
   */
  lemma {:induction false} SplitOnFirst(s: string, sep: char)
    ensures var w := SplitOn(s, sep)[0];
      StartsWith(s, w) && sep !in w && (|w| == |s| || s[|w|] == sep)
  {
    var r := SplitOn(s, sep);
    if |r| > 1 {
      assert s == r[0] + [sep] + Join(r[1..], sep);
      assert s[..|r[0]|] == r[0];
    }
  }

  /** The concatenation of all pieces. */
  function Concat(parts: seq<string>): string {
    if parts == [] then [] else parts[0] + Concat(parts[1..])
  }

  /** `s` with every space removed. */
  function RemoveSpaces(s: string): (r: string)
    ensures ' ' !in r
  {
    if s == [] then [] else (if s[0] == ' ' then [] else [s[0]]) + RemoveSpaces(s[1..])
  }

  /**
   * `s.split(/ +/)`: splits at every maximal run of spaces (other whitespace
   * stays inside the pieces).  What the pieces are is stated by the lemmas
   * below: they hold no space, together they hold exactly the non-space
   * characters of `s` in order, and only a piece at either end can be empty.
   */
  function SplitSpaceRuns(s: string): (r: seq<string>)
    ensures |r| >= 1
  {
    if s == [] then [[]]
    else if s[0] == ' ' then
      if |s| > 1 && s[1] == ' ' then SplitSpaceRuns(s[1..])
      else [[]] + SplitSpaceRuns(s[1..])
    else
      var rest := SplitSpaceRuns(s[1..]);
      [[s[0]] + rest[0]] + rest[1..]
  }

  /** No piece holds a space, and the pieces hold every other character of `s`, in order. */
  lemma {:induction false} SplitSpaceRunsContents(s: string)
    ensures var r := SplitSpaceRuns(s);
      (forall i :: 0 <= i < |r| ==> ' ' !in r[i]) && Concat(r) == RemoveSpaces(s)
  {
    if s != [] {
      SplitSpaceRunsContents(s[1..]);
      var rest := SplitSpaceRuns(s[1..]);
      var r := SplitSpaceRuns(s);
      if s[0] == ' ' {
        assert RemoveSpaces(s) == RemoveSpaces(s[1..]);
        if !(|s| > 1 && s[1] == ' ') {
          assert r == [[]] + rest && r[1..] == rest;
        }
      } else {
        assert r == [[s[0]] + rest[0]] + rest[1..];
        assert r[1..] == rest[1..];
        assert Concat(rest) == rest[0] + Concat(rest[1..]);
        assert RemoveSpaces(s) == [s[0]] + RemoveSpaces(s[1..]);
        assert forall i :: 1 <= i < |r| ==> r[i] == rest[i];
      }
    }
  }

  /** Every piece strictly between the first and the last is non-empty. */
  predicate InnerPiecesNonEmpty(r: seq<string>) {
    forall i :: 0 < i < |r| - 1 ==> r[i] != []
  }

  /** The first piece is empty only when `s` is empty or begins with a space. */
  lemma SplitSpaceRunsFirst(s: string)
    requires s != [] && s[0] != ' '
    ensures SplitSpaceRuns(s)[0] != []
  {
  }

  /** The last piece is empty only when `s` is empty or ends with a space. */
  lemma {:induction false} SplitSpaceRunsLast(s: string)
    ensures s != [] && s[|s| - 1] != ' ' ==> SplitSpaceRuns(s)[|SplitSpaceRuns(s)| - 1] != []
  {
    var r := SplitSpaceRuns(s);
    if s == [] || s[|s| - 1] == ' ' {
    } else if |s| == 1 {
      var rest := SplitSpaceRuns(s[1..]);
      assert s[1..] == [] && rest == [[]];
      assert r == [[s[0]] + rest[0]] + rest[1..];
    } else {
      var rest := SplitSpaceRuns(s[1..]);
      assert s[|s| - 1] == s[1..][|s[1..]| - 1];
      SplitSpaceRunsLast(s[1..]);
      if s[0] == ' ' && s[1] != ' ' {
        assert r == [[]] + rest;
      } else if s[0] != ' ' {
        assert r == [[s[0]] + rest[0]] + rest[1..];
      }
    }
  }

  /** Only the pieces at either end can be empty. */
  lemma {:induction false} SplitSpaceRunsNonEmpty(s: string)
    ensures InnerPiecesNonEmpty(SplitSpaceRuns(s))
  {
    if s != [] {
      SplitSpaceRunsNonEmpty(s[1..]);
      var rest := SplitSpaceRuns(s[1..]);
      var r := SplitSpaceRuns(s);
      if s[0] == ' ' {
        if !(|s| > 1 && s[1] == ' ') {
          assert r == [[]] + rest;
          if |s| > 1 {
            SplitSpaceRunsFirst(s[1..]);
          }
          assert forall i :: 1 <= i < |r| ==> r[i] == rest[i - 1];
        }
      } else {
        assert r == [[s[0]] + rest[0]] + rest[1..];
        assert forall i :: 0 < i < |r| ==> r[i] == rest[i];
      }
    }
  }

  /** `s` with every run of spaces shrunk to a single space. */
  function CollapseSpaces(s: string): string {
    if s == [] then []
    else if s[0] == ' ' && |s| > 1 && s[1] == ' ' then CollapseSpaces(s[1..])
    else [s[0]] + CollapseSpaces(s[1..])
  }

  /**
   * Joining the pieces with single spaces gives `s` with its space runs
   * collapsed: together with the pieces holding no space, this fixes exactly
   * where each piece starts and ends.
   */
  lemma {:induction false} SplitSpaceRunsJoin(s: string)
    ensures Join(SplitSpaceRuns(s), ' ') == CollapseSpaces(s)
  {
    if s != [] {
      SplitSpaceRunsJoin(s[1..]);
      var rest := SplitSpaceRuns(s[1..]);
      if s[0] == ' ' {
        if !(|s| > 1 && s[1] == ' ') {
          var r := [[]] + rest;
          assert r[1..] == rest;
          assert Join(r, ' ') == [] + [' '] + Join(rest, ' ');
        }
      } else {
        JoinConsHead(s[0], rest, ' ');
      }
    }
  }

  /** A string with no space is a single piece. */
  lemma {:induction false} SplitSpaceRunsWord(w: string)
    requires ' ' !in w
    ensures SplitSpaceRuns(w) == [w]
  {
    if w != [] {
      SplitSpaceRunsWord(w[1..]);
      assert w == [w[0]] + w[1..];
    }
  }

  /** A word followed by one space splits off as the first piece. */
  lemma {:induction false} SplitSpaceRunsCons(w: string, rest: string)
    requires ' ' !in w
    requires rest == [] || rest[0] != ' '
    ensures SplitSpaceRuns(w + " " + rest) == [w] + SplitSpaceRuns(rest)
  {
    var s := w + " " + rest;
    if w == [] {
      assert s == " " + rest && s[1..] == rest;
    } else {
      assert s[1..] == w[1..] + " " + rest;
      SplitSpaceRunsCons(w[1..], rest);
      assert w == [w[0]] + w[1..];
    }
  }

  /** A string free of the separator is a single piece. */
  lemma {:induction false} SplitOnWord(w: string, sep: char)
    requires sep !in w
    ensures SplitOn(w, sep) == [w]
  {
    if w != [] {
      SplitOnWord(w[1..], sep);
      assert w == [w[0]] + w[1..];
    }
  }

  /**
   * The first piece is determined by its defining property: any prefix free
   * of the separator that reaches the end or a separator is that piece.
   */
  lemma SplitOnFirstUnique(s: string, sep: char, w: string)
    requires StartsWith(s, w) && sep !in w && (|w| == |s| || s[|w|] == sep)
    ensures SplitOn(s, sep)[0] == w
  {
    SplitOnFirst(s, sep);
    var v := SplitOn(s, sep)[0];
    if |v| < |w| {
      assert false;
    } else if |w| < |v| {
      assert false;
    }
    assert v == s[..|v|] == w;
  }

  /** Trimming a string that neither starts nor ends with whitespace changes nothing. */
  lemma TrimUntouched(s: string)
    requires s != [] ==> !IsWhite(s[0]) && !IsWhite(s[|s| - 1])
    ensures Trim(s) == s
  {
  }

  /** `toLowerCase` on one character (ASCII letters only). */
  function LowerChar(c: char): char {
    if 'A' <= c <= 'Z' then (c as int + 32) as char else c
  }

  /** `s.toLowerCase()`, restricted to ASCII letters. */
  function ToLower(s: string): (r: string)
    ensures |r| == |s|
    ensures forall i :: 0 <= i < |s| ==> r[i] == LowerChar(s[i])
  {
    seq(|s|, i requires 0 <= i < |s| => LowerChar(s[i]))
  }

  /** Lower-casing keeps every non-letter, in particular the space, where it was, and is idempotent. */
  lemma ToLowerFacts(s: string)
    ensures ToLower(ToLower(s)) == ToLower(s)
    ensures ' ' in ToLower(s) <==> ' ' in s
    ensures forall i :: 0 <= i < |s| ==> !('A' <= ToLower(s)[i] <= 'Z')
  {
    if ' ' in ToLower(s) {
      var i :| 0 <= i < |s| && ToLower(s)[i] == ' ';
      assert s[i] == ' ';
    }
  }
}
