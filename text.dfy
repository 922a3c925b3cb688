/** The parts of Python's `str` behaviour that the modelled code relies on:
    `lower()` (ASCII range), `in`, `startswith`, `strip()`, `rstrip(c)`,
    `split(c)`, `split(c, 1)`, `replace(a, b)` and `sep.join(parts)`.
    Strings are sequences of characters; nothing here normalises or folds case
    beyond 'A'..'Z'. */
module Text {

  // ---------------------------------------------------------------- lower()

  /** `c.lower()` restricted to the ASCII range: 'A'..'Z' map to 'a'..'z'. */
  function LowerChar(c: char): char {
    if 'A' <= c <= 'Z' then (c as int + 32) as char else c
  }

  /** `s.lower()`, character by character. */
  function Lower(s: string): string {
    if s == [] then [] else [LowerChar(s[0])] + Lower(s[1..])
  }

  /** Lowercasing keeps the length and works position by position. */
  lemma {:induction false} LowerAt(s: string)
    ensures |Lower(s)| == |s|
    ensures forall k :: 0 <= k < |s| ==> Lower(s)[k] == LowerChar(s[k])
  {
    if s != [] {
      LowerAt(s[1..]);
    }
  }

  /** Lowercasing twice is lowercasing once, so re-lowering an already
      lowered text (as `_keyword_detect` does) changes nothing. */
  lemma LowerIdempotent(s: string)
    ensures Lower(Lower(s)) == Lower(s)
  {
    LowerAt(s);
    LowerAt(Lower(s));
  }

  /** A text without 'A'..'Z' is its own lowercase form. */
  lemma {:induction false} LowerOfLowercase(s: string)
    requires forall k :: 0 <= k < |s| ==> !('A' <= s[k] <= 'Z')
    ensures Lower(s) == s
  {
    if s != [] {
      LowerOfLowercase(s[1..]);
    }
  }

  // ------------------------------------------------------- `in`, startswith

  /** `n[j..]` lies in `h` starting at `h[i + j]`. Written by index so that the
      verifier can evaluate it on literal strings. */
  predicate MatchesFrom(n: string, h: string, i: nat, j: nat)
    decreases |n| - j
  {
    j >= |n| || (i + j < |h| && h[i + j] == n[j] && MatchesFrom(n, h, i, j + 1))
  }

  /** `n` occurs in `h` at some position `i` or later. */
  predicate OccursFrom(n: string, h: string, i: nat)
    decreases |h| + 1 - i
  {
    i <= |h| && (MatchesFrom(n, h, i, 0) || OccursFrom(n, h, i + 1))
  }

  /** Python's `n in h` on strings (so `"" in h` always holds). */
  predicate IsSubstring(n: string, h: string) {
    OccursFrom(n, h, 0)
  }

  /** Python's `s.startswith(p)`. */
  predicate IsPrefix(p: string, s: string) {
    |p| <= |s| && s[..|p|] == p
  }

  /** The textbook reading of an occurrence: the slice of `h` at `k` is `n`. */
  predicate OccursAt(n: string, h: string, k: int) {
    0 <= k && k + |n| <= |h| && h[k..k + |n|] == n
  }

  lemma {:induction false} MatchesFromSlice(n: string, h: string, i: nat, j: nat)
    requires j <= |n| && i + j <= |h|
    ensures MatchesFrom(n, h, i, j) <==> i + |n| <= |h| && h[i + j..i + |n|] == n[j..]
    decreases |n| - j
  {
    if j < |n| && i + j < |h| {
      MatchesFromSlice(n, h, i, j + 1);
      if i + |n| <= |h| {
        var a, b := h[i + j..i + |n|], n[j..];
        assert a == [h[i + j]] + h[i + j + 1..i + |n|];
        assert b == [n[j]] + n[j + 1..];
        if a == b {
          assert a[0] == b[0] && a[1..] == b[1..];
        }
      }
    }
  }

  lemma {:induction false} OccursFromSlice(n: string, h: string, i: nat)
    ensures OccursFrom(n, h, i) <==> exists k :: i <= k && OccursAt(n, h, k)
    decreases |h| + 1 - i
  {
    if i <= |h| {
      MatchesFromSlice(n, h, i, 0);
      assert MatchesFrom(n, h, i, 0) <==> OccursAt(n, h, i);
      OccursFromSlice(n, h, i + 1);
      if exists k :: i <= k && OccursAt(n, h, k) {
        var k :| i <= k && OccursAt(n, h, k);
        if k > i {
          assert i + 1 <= k;
        }
      }
    } else {
      assert forall k :: i <= k ==> !OccursAt(n, h, k);
    }
  }

  /** `n in h` holds exactly when some slice of `h` equals `n`: the
      index-by-index predicate agrees with the textbook definition. */
  lemma IsSubstringSlice(n: string, h: string)
    ensures IsSubstring(n, h) <==> exists k :: OccursAt(n, h, k)
  {
    OccursFromSlice(n, h, 0);
  }

  /** An occurrence at a known position makes `n in h` true. */
  lemma IsSubstringAt(n: string, h: string, k: int)
    requires OccursAt(n, h, k)
    ensures IsSubstring(n, h)
  {
    IsSubstringSlice(n, h);
  }

  /** A character that the pattern holds and the text lacks rules the
      pattern out. */
  lemma LacksChar(pat: string, s: string, c: char)
    requires c in pat && c !in s
    ensures !IsSubstring(pat, s)
  {
    IsSubstringSlice(pat, s);
  }

  /** Every character of `s` is one of `cs`. */
  predicate AllIn(s: string, cs: set<char>) {
    forall k :: 0 <= k < |s| ==> s[k] in cs
  }

  /** `LacksChar` with the text's characters given as a set. */
  lemma LacksCharOf(pat: string, s: string, cs: set<char>, c: char)
    requires AllIn(s, cs) && c in pat && c !in cs
    ensures !IsSubstring(pat, s)
  {
    LacksChar(pat, s, c);
  }

  /** No `x` in `s` is directly followed by `y`. */
  predicate NoPair(s: string, x: char, y: char) {
    forall k :: 0 <= k < |s| - 1 ==> !(s[k] == x && s[k + 1] == y)
  }

  /** A pattern holding `pat[j]` directly followed by `pat[j + 1]` does not
      occur in a text where that pair never appears. */
  lemma LacksPair(pat: string, s: string, j: int)
    requires 0 <= j < |pat| - 1 && NoPair(s, pat[j], pat[j + 1])
    ensures !IsSubstring(pat, s)
  {
    IsSubstringSlice(pat, s);
  }

  /** A text that contains `n` keeps containing it when extended on either side. */
  lemma IsSubstringExtend(n: string, a: string, h: string, b: string)
    requires IsSubstring(n, h)
    ensures IsSubstring(n, a + h + b)
  {
    IsSubstringSlice(n, h);
    var k :| OccursAt(n, h, k);
    assert (a + h + b)[|a| + k..|a| + k + |n|] == h[k..k + |n|];
    IsSubstringAt(n, a + h + b, |a| + k);
  }

  // ---------------------------------------------------- keyword counting

  /** `sum(1 for kw in keywords if kw in text)`. */
  function CountOccurring(keywords: seq<string>, text: string): (n: nat)
    ensures n <= |keywords|
    decreases |keywords|
  {
    if keywords == [] then 0
    else CountOccurring(keywords[..|keywords| - 1], text) + (if IsSubstring(keywords[|keywords| - 1], text) then 1 else 0)
  }

  /** The count is the number of keywords occurring in the text: it is zero
      exactly when none occurs, and it is every keyword exactly when all occur. */
  lemma {:induction false} CountOccurringSpec(keywords: seq<string>, text: string)
    ensures CountOccurring(keywords, text) == 0 <==> forall k :: 0 <= k < |keywords| ==> !IsSubstring(keywords[k], text)
    ensures CountOccurring(keywords, text) == |keywords| <==> forall k :: 0 <= k < |keywords| ==> IsSubstring(keywords[k], text)
    decreases |keywords|
  {
    if keywords != [] {
      var front := keywords[..|keywords| - 1];
      CountOccurringSpec(front, text);
      assert forall k :: 0 <= k < |front| ==> front[k] == keywords[k];
    }
  }

  /** Counting over a concatenation adds the two counts. */
  lemma {:induction false} CountOccurringAppend(a: seq<string>, b: seq<string>, text: string)
    ensures CountOccurring(a + b, text) == CountOccurring(a, text) + CountOccurring(b, text)
    decreases |b|
  {
    if b != [] {
      var front := b[..|b| - 1];
      assert (a + b)[..|a + b| - 1] == a + front;
      assert (a + b)[|a + b| - 1] == b[|b| - 1];
      CountOccurringAppend(a, front, text);
      assert CountOccurring(a + b, text)
          == CountOccurring(a + front, text) + (if IsSubstring(b[|b| - 1], text) then 1 else 0);
      assert CountOccurring(b, text)
          == CountOccurring(front, text) + (if IsSubstring(b[|b| - 1], text) then 1 else 0);
    } else {
      assert a + b == a;
    }
  }

  // ------------------------------------------------------------------ strip()

  /** Python's `str.isspace()` for one character. */
  predicate IsSpace(c: char) {
    c == ' ' || '\t' <= c <= '\r' || '\U{001C}' <= c <= '\U{001F}'
    || c == '\U{0085}' || c == '\U{00A0}' || c == '\U{1680}'
    || '\U{2000}' <= c <= '\U{200A}' || c == '\U{2028}' || c == '\U{2029}'
    || c == '\U{202F}' || c == '\U{205F}' || c == '\U{3000}'
  }

  /** `s.lstrip()`. */
  function TrimStart(s: string): string
    decreases |s|
  {
    if s != [] && IsSpace(s[0]) then TrimStart(s[1..]) else s
  }

  /** `lstrip` leaves the suffix of `s` after its leading whitespace, and that
      suffix does not start with whitespace. */
  lemma {:induction false} TrimStartSpec(s: string)
    ensures |TrimStart(s)| <= |s| && TrimStart(s) == s[|s| - |TrimStart(s)|..]
    ensures forall k :: 0 <= k < |s| - |TrimStart(s)| ==> IsSpace(s[k])
    ensures TrimStart(s) != [] ==> !IsSpace(TrimStart(s)[0])
    decreases |s|
  {
    if s != [] && IsSpace(s[0]) {
      TrimStartSpec(s[1..]);
    }
  }

  /** `s.rstrip()`. */
  function TrimEnd(s: string): string
    decreases |s|
  {
    if s != [] && IsSpace(s[|s| - 1]) then TrimEnd(s[..|s| - 1]) else s
  }

  /** `rstrip` leaves the prefix of `s` before its trailing whitespace, and
      that prefix does not end with whitespace. */
  lemma {:induction false} TrimEndSpec(s: string)
    ensures |TrimEnd(s)| <= |s| && TrimEnd(s) == s[..|TrimEnd(s)|]
    ensures forall k :: |TrimEnd(s)| <= k < |s| ==> IsSpace(s[k])
    ensures TrimEnd(s) != [] ==> !IsSpace(TrimEnd(s)[|TrimEnd(s)| - 1])
    decreases |s|
  {
    if s != [] && IsSpace(s[|s| - 1]) {
      TrimEndSpec(s[..|s| - 1]);
    }
  }

  /** `r` is the piece of `s` at `i`, with only whitespace around it. */
  predicate StrippedAt(s: string, r: string, i: int) {
    0 <= i <= |s| - |r| && r == s[i..i + |r|]
    && (forall k :: 0 <= k < i ==> IsSpace(s[k]))
    && (forall k :: i + |r| <= k < |s| ==> IsSpace(s[k]))
  }

  /** `s.strip()`. */
  function Strip(s: string): string {
    TrimEnd(TrimStart(s))
  }

  /** `strip` leaves a contiguous piece of `s` that neither starts nor ends
      with whitespace, and everything cut off around it is whitespace. */
  lemma StripSpec(s: string)
    ensures exists i :: StrippedAt(s, Strip(s), i)
    ensures Strip(s) != [] ==> !IsSpace(Strip(s)[0]) && !IsSpace(Strip(s)[|Strip(s)| - 1])
  {
    var t := TrimStart(s);
    var r := TrimEnd(t);
    TrimStartSpec(s);
    TrimEndSpec(t);
    var i := |s| - |t|;
    assert r == s[i..i + |r|];
    forall k | i + |r| <= k < |s|
      ensures IsSpace(s[k])
    {
      assert s[k] == t[k - i];
    }
    assert Strip(s) == r;
    assert StrippedAt(s, Strip(s), i);
  }

  /** Stripping a text that has no whitespace at either end leaves it alone. */
  lemma StripUnpadded(s: string)
    requires s != [] ==> !IsSpace(s[0]) && !IsSpace(s[|s| - 1])
    ensures Strip(s) == s
  {
  }

  /** `s.rstrip(c)`: `s` without the run of `c` at its end. */
  function TrimEndChar(s: string, c: char): (r: string)
    ensures |r| <= |s| && r == s[..|r|]
    ensures forall k :: |r| <= k < |s| ==> s[k] == c
    ensures r != [] ==> r[|r| - 1] != c
    decreases |s|
  {
    if s != [] && s[|s| - 1] == c then TrimEndChar(s[..|s| - 1], c) else s
  }

  // ------------------------------------------------------- split() and join()

  /** `sep.join(parts)`. */
  function Join(parts: seq<string>, sep: string): string
    decreases |parts|
  {
    if parts == [] then ""
    else if |parts| == 1 then parts[0]
    else parts[0] + sep + Join(parts[1..], sep)
  }

  /** `s.split(sep)` for a one-character separator: never empty, and no piece
      contains the separator. */
  function Split(s: string, sep: char): (r: seq<string>)
    ensures |r| >= 1
    ensures forall k :: 0 <= k < |r| ==> sep !in r[k]
    decreases |s|
  {
    if s == [] then [""]
    else
      var rest := Split(s[1..], sep);
      if s[0] == sep then [""] + rest
      else [[s[0]] + rest[0]] + rest[1..]
  }

  /** Joining the pieces of a split with the separator gives back the text. */
  lemma {:induction false} JoinSplit(s: string, sep: char)
    ensures Join(Split(s, sep), [sep]) == s
    decreases |s|
  {
    if s != [] {
      var rest := Split(s[1..], sep);
      JoinSplit(s[1..], sep);
      if s[0] == sep {
        assert Split(s, sep) == [""] + rest;
        assert ([""] + rest)[1..] == rest;
      } else {
        var parts := [[s[0]] + rest[0]] + rest[1..];
        assert Split(s, sep) == parts;
        if |rest| == 1 {
          assert Join(parts, [sep]) == [s[0]] + rest[0];
        } else {
          assert parts[1..] == rest[1..];
          assert Join(rest, [sep]) == rest[0] + [sep] + Join(rest[1..], [sep]);
          assert Join(parts, [sep]) == [s[0]] + rest[0] + [sep] + Join(rest[1..], [sep]);
        }
      }
    }
  }

  /** The position of the first `c` in `s`. */
  function IndexOf(s: string, c: char): (i: nat)
    requires c in s
    ensures i < |s| && s[i] == c && c !in s[..i]
    decreases |s|
  {
    if s[0] == c then 0
    else
      assert c in s[1..] by { assert s == [s[0]] + s[1..]; }
      var j := IndexOf(s[1..], c);
      assert s[..j + 1] == [s[0]] + s[1..][..j];
      j + 1
  }

  /** `s.split(c, 1)` when `c in s`: the text before the first `c` and the
      text after it. */
  function SplitOnce(s: string, c: char): (r: (string, string))
    requires c in s
    ensures c !in r.0 && s == r.0 + [c] + r.1
  {
    var i := IndexOf(s, c);
    assert s == s[..i] + [c] + s[i + 1..];
    (s[..i], s[i + 1..])
  }

  // ------------------------------------------------------------------ replace()

  /** `s.replace(pat, rep)`: every non-overlapping occurrence of `pat`, scanned
      from the left, is replaced by `rep`. */
  function ReplaceAll(s: string, pat: string, rep: string): string
    requires pat != []
    decreases |s|
  {
    if s == [] then s
    else if IsPrefix(pat, s) then rep + ReplaceAll(s[|pat|..], pat, rep)
    else [s[0]] + ReplaceAll(s[1..], pat, rep)
  }

  /** Replacing a pattern that does not occur leaves the text unchanged. */
  lemma {:induction false} ReplaceAllAbsent(s: string, pat: string, rep: string)
    requires pat != [] && !IsSubstring(pat, s)
    ensures ReplaceAll(s, pat, rep) == s
    decreases |s|
  {
    if s != [] {
      IsSubstringSlice(pat, s);
      assert !IsPrefix(pat, s) by {
        if IsPrefix(pat, s) {
          assert OccursAt(pat, s, 0);
          assert false;
        }
      }
      IsSubstringSlice(pat, s[1..]);
      assert !IsSubstring(pat, s[1..]) by {
        if IsSubstring(pat, s[1..]) {
          var k :| OccursAt(pat, s[1..], k);
          assert s[k + 1..k + 1 + |pat|] == s[1..][k..k + |pat|];
          assert OccursAt(pat, s, k + 1);
          assert false;
        }
      }
      ReplaceAllAbsent(s[1..], pat, rep);
    }
  }

  /** Replacing a pattern by the empty text never lengthens the text. */
  lemma {:induction false} ReplaceAllByEmptyShrinks(s: string, pat: string)
    requires pat != []
    ensures |ReplaceAll(s, pat, "")| <= |s|
    decreases |s|
  {
    if s != [] {
      if IsPrefix(pat, s) {
        ReplaceAllByEmptyShrinks(s[|pat|..], pat);
      } else {
        ReplaceAllByEmptyShrinks(s[1..], pat);
      }
    }
  }

  // ------------------------------------------------------------- list slices

  /** Python's `s[k:]` for any integer `k`: a non-negative `k` drops the first
      `k` items, a negative `k` keeps the last `-k` items. The result is
      always a suffix of `s`. */
  function SliceFrom<T>(s: seq<T>, k: int): (r: seq<T>)
    ensures |r| <= |s| && r == s[|s| - |r|..]
    ensures |r| == if k >= 0 then (if k <= |s| then |s| - k else 0)
                   else (if -k <= |s| then -k else |s|)
  {
    if k >= 0 then (if k <= |s| then s[k..] else [])
    else (if -k <= |s| then s[|s| + k..] else s)
  }
}
