/** Python string operations the core relies on: `lower()`, `isupper()`,
    `isspace()`, the substring test `in`, `startswith`, `strip()` and the
    argument-less `split()`. */
module Strings {

  /** Python's `str.isspace()` on one character: the ASCII whitespace and
      separator controls plus the Unicode space separators. */
  predicate IsSpace(c: char) {
    var n := c as int;
    (9 <= n <= 13) || (28 <= n <= 32) || n == 0x85 || n == 0xA0 || n == 0x1680
    || (0x2000 <= n <= 0x200A) || n == 0x2028 || n == 0x2029 || n == 0x202F
    || n == 0x205F || n == 0x3000
  }

  /** `c.isupper()` for the ASCII letters. */
  predicate IsUpper(c: char) {
    'A' <= c <= 'Z'
  }

  function LowerChar(c: char): char {
    if IsUpper(c) then (c as int + 32) as char else c
  }

  /** `s.lower()`, character by character. */
  function Lower(s: string): (r: string)
    ensures |r| == |s|
    ensures forall i :: 0 <= i < |s| ==> r[i] == LowerChar(s[i])
  {
    if s == [] then [] else [LowerChar(s[0])] + Lower(s[1..])
  }

  lemma {:induction false} LowerIdempotent(s: string)
    ensures Lower(Lower(s)) == Lower(s)
  {
    var l := Lower(s);
    assert forall i :: 0 <= i < |l| ==> Lower(l)[i] == l[i];
  }

  /** Text without capitals is its own lower case. */
  lemma LowerOfLowerCase(s: string)
    requires forall i :: 0 <= i < |s| ==> !IsUpper(s[i])
    ensures Lower(s) == s
  {
  }

  /** `pat in s`: some suffix of `s` starts with `pat`. */
  predicate Contains(s: string, pat: string)
    decreases |s|
  {
    pat <= s || (|s| > 0 && Contains(s[1..], pat))
  }

  predicate OccursAt(s: string, pat: string, i: nat) {
    i + |pat| <= |s| && s[i..i + |pat|] == pat
  }

  /** The substring test agrees with the positional definition. */
  lemma {:induction false} ContainsIffOccurs(s: string, pat: string)
    ensures Contains(s, pat) <==> exists i: nat :: OccursAt(s, pat, i)
    decreases |s|
  {
    if pat <= s {
      assert OccursAt(s, pat, 0);
    } else if |s| == 0 {
      forall i: nat ensures !OccursAt(s, pat, i) {
        assert OccursAt(s, pat, i) ==> pat == [] && pat <= s;
      }
    } else {
      ContainsIffOccurs(s[1..], pat);
      if Contains(s[1..], pat) {
        var i: nat :| OccursAt(s[1..], pat, i);
        OccursShift(s, pat, i);
      } else {
        assert !OccursAt(s, pat, 0);
        forall i: nat | 0 < i ensures !OccursAt(s, pat, i) {
          OccursShift(s, pat, i - 1);
        }
      }
    }
  }

  /** An occurrence in the tail is an occurrence one place further on in the
      whole text, and conversely. */
  lemma OccursShift(s: string, pat: string, i: nat)
    requires |s| > 0
    ensures OccursAt(s[1..], pat, i) <==> OccursAt(s, pat, i + 1)
  {
    if i + 1 + |pat| <= |s| {
      assert s[1..][i..i + |pat|] == s[i + 1..i + 1 + |pat|];
    }
  }

  /** `s.startswith(prefix)`. */
  predicate StartsWith(s: string, prefix: string) {
    |prefix| <= |s| && s[..|prefix|] == prefix
  }

  predicate AllSpace(s: string) {
    forall i :: 0 <= i < |s| ==> IsSpace(s[i])
  }

  /** A word of `split()`: non-empty and free of whitespace. */
  predicate IsToken(w: string) {
    |w| > 0 && forall i :: 0 <= i < |w| ==> !IsSpace(w[i])
  }

  /** Every entry of `words` is a word of `split()`. */
  predicate AllTokens(words: seq<string>)
    decreases |words|
  {
    words == [] || (IsToken(words[0]) && AllTokens(words[1..]))
  }

  /** `s.lstrip()`: the suffix left after dropping the leading whitespace. */
  function TrimStart(s: string): (r: string)
    ensures |r| <= |s| && r == s[|s| - |r|..]
    ensures AllSpace(s[..|s| - |r|])
    ensures r == [] || !IsSpace(r[0])
  {
    if s != [] && IsSpace(s[0]) then
      var tail := s[1..];
      var r := TrimStart(tail);
      var n := |s| - |r|;
      assert r == s[n..] by {
        assert tail[|tail| - |r|..] == s[n..];
      }
      LeadingSpace(s, n);
      r
    else s
  }

  /** Whitespace in front of whitespace is whitespace. */
  lemma LeadingSpace(s: string, n: nat)
    requires 0 < n <= |s| && IsSpace(s[0]) && AllSpace(s[1..][..n - 1])
    ensures AllSpace(s[..n])
  {
    forall i | 1 <= i < n
      ensures IsSpace(s[i])
    {
      assert s[i] == s[1..][..n - 1][i - 1];
    }
  }

  /** Whitespace behind whitespace is whitespace. */
  lemma TrailingSpace(s: string, n: nat)
    requires n < |s| && IsSpace(s[|s| - 1]) && AllSpace(s[..|s| - 1][n..])
    ensures AllSpace(s[n..])
  {
    forall i | n <= i < |s| - 1
      ensures IsSpace(s[i])
    {
      assert s[i] == s[..|s| - 1][n..][i - n];
    }
  }

  /** `s.rstrip()`: the prefix left after dropping the trailing whitespace. */
  function TrimEnd(s: string): (r: string)
    ensures |r| <= |s| && r == s[..|r|]
    ensures AllSpace(s[|r|..])
    ensures r == [] || !IsSpace(r[|r| - 1])
  {
    if s != [] && IsSpace(s[|s| - 1]) then
      var init := s[..|s| - 1];
      var r := TrimEnd(init);
      assert r == s[..|r|] by {
        assert init[..|r|] == s[..|r|];
      }
      TrailingSpace(s, |r|);
      r
    else s
  }

  /** `s.strip()`: `s` without its leading and trailing whitespace. */
  function Strip(s: string): (r: string)
    ensures exists i, j :: 0 <= i <= j <= |s| && r == s[i..j] && AllSpace(s[..i]) && AllSpace(s[j..])
    ensures r == [] || (!IsSpace(r[0]) && !IsSpace(r[|r| - 1]))
  {
    var t := TrimStart(s);
    var r := TrimEnd(t);
    StripWithin(s, t, r);
    r
  }

  /** Trimming the end of the left-trimmed text leaves a window of `s` with
      whitespace only on either side of it, and no whitespace at its ends. */
  lemma StripWithin(s: string, t: string, r: string)
    requires |t| <= |s| && t == s[|s| - |t|..] && AllSpace(s[..|s| - |t|])
    requires t == [] || !IsSpace(t[0])
    requires |r| <= |t| && r == t[..|r|] && AllSpace(t[|r|..])
    requires r == [] || !IsSpace(r[|r| - 1])
    ensures exists i, j :: 0 <= i <= j <= |s| && r == s[i..j] && AllSpace(s[..i]) && AllSpace(s[j..])
    ensures r == [] || (!IsSpace(r[0]) && !IsSpace(r[|r| - 1]))
  {
    var i := |s| - |t|;
    assert s[i + |r|..] == t[|r|..];
    assert s[i..i + |r|] == r;
    if r != [] {
      assert r[0] == t[0];
    }
  }

  lemma StripIdempotent(s: string)
    ensures Strip(Strip(s)) == Strip(s)
  {
    var r := Strip(s);
    if r != [] {
      assert TrimStart(r) == r;
      assert TrimEnd(r) == r;
    }
  }

  /** Length of the leading run of non-whitespace characters. */
  function TokenLength(s: string): (k: nat)
    ensures k <= |s|
    ensures forall i :: 0 <= i < k ==> !IsSpace(s[i])
    ensures k == |s| || IsSpace(s[k])
  {
    if s == [] || IsSpace(s[0]) then 0 else 1 + TokenLength(s[1..])
  }

  /** `s.split()` with no argument: the maximal runs of non-whitespace, in order. */
  function Split(s: string): (words: seq<string>)
    ensures AllTokens(words)
    decreases |s|
  {
    var t := TrimStart(s);
    if t == [] then []
    else
      var k := TokenLength(t);
      assert k > 0 by {
        assert !IsSpace(t[0]);
      }
      var rest := Split(t[k..]);
      assert ([t[..k]] + rest)[1..] == rest;
      [t[..k]] + rest
  }

  /** `len(s.split())`. */
  function WordCount(s: string): nat {
    |Split(s)|
  }

  /** `" ".join(words)`. */
  function Join(words: seq<string>): string {
    if words == [] then []
    else if |words| == 1 then words[0]
    else words[0] + " " + Join(words[1..])
  }

  /** A space-joined list of words starts with the first letter of its first word. */
  lemma JoinStartsWithFirstWord(words: seq<string>)
    requires words != [] && IsToken(words[0])
    ensures |Join(words)| > 0 && Join(words)[0] == words[0][0]
  {
    if |words| > 1 {
      assert Join(words) == words[0] + " " + Join(words[1..]);
    }
  }

  lemma SplitSingleToken(w: string)
    requires IsToken(w)
    ensures Split(w) == [w]
  {
    assert TrimStart(w) == w;
    assert TokenLength(w) == |w|;
    assert w[..|w|] == w;
    assert w[|w|..] == [];
  }

  lemma SplitTokenThenSpace(w: string, rest: string)
    requires IsToken(w)
    ensures Split(w + " " + rest) == [w] + Split(rest)
  {
    var s := w + " " + rest;
    assert s[0] == w[0];
    assert TrimStart(s) == s;
    assert s[|w|] == ' ';
    assert forall i :: 0 <= i < |w| ==> s[i] == w[i];
    assert TokenLength(s) == |w|;
    assert s[..|w|] == w;
    assert s[|w|..] == [' '] + rest;
    assert ([' '] + rest)[1..] == rest;
    assert TrimStart([' '] + rest) == TrimStart(rest);
  }

  /** Leading whitespace is dropped by `lstrip()` without a trace. */
  lemma {:induction false} TrimStartAfterSpace(ws: string, s: string)
    requires AllSpace(ws)
    ensures TrimStart(ws + s) == TrimStart(s)
  {
    if ws != [] {
      var x := ws + s;
      assert x[0] == ws[0];
      assert x[1..] == ws[1..] + s;
      TrimStartAfterSpace(ws[1..], s);
    } else {
      assert ws + s == s;
    }
  }

  /** Whitespace in front of a text adds no word to its split. */
  lemma SplitAfterSpace(ws: string, s: string)
    requires AllSpace(ws)
    ensures Split(ws + s) == Split(s)
  {
    TrimStartAfterSpace(ws, s);
  }

  /** A word followed by any non-empty run of whitespace is the first word
      of the split, and the split goes on with what follows the run. */
  lemma SplitTokenThenSpaces(w: string, ws: string, s: string)
    requires IsToken(w) && |ws| > 0 && AllSpace(ws)
    ensures Split(w + ws + s) == [w] + Split(s)
  {
    var x := w + ws + s;
    assert x[0] == w[0];
    assert TrimStart(x) == x;
    assert x[|w|] == ws[0];
    assert forall i :: 0 <= i < |w| ==> x[i] == w[i];
    assert TokenLength(x) == |w|;
    assert x[..|w|] == w;
    assert x[|w|..] == ws + s;
    SplitAfterSpace(ws, s);
  }

  /** A text has no word exactly when it is all whitespace. */
  lemma SplitEmptyIffSpace(s: string)
    ensures Split(s) == [] <==> AllSpace(s)
  {
    var t := TrimStart(s);
    if t == [] {
      assert s[..|s|] == s;
    } else {
      assert t[0] == s[|s| - |t|];
    }
  }

  /** Splitting a space-joined list of tokens gives the tokens back. */
  lemma {:induction false} SplitJoin(words: seq<string>)
    requires AllTokens(words)
    ensures Split(Join(words)) == words
  {
    if words == [] {
    } else if |words| == 1 {
      SplitSingleToken(words[0]);
    } else {
      var tail := words[1..];
      assert Join(words) == words[0] + " " + Join(tail);
      SplitTokenThenSpace(words[0], Join(tail));
      SplitJoin(tail);
      assert [words[0]] + tail == words;
    }
  }
}
