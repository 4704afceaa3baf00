/** The few Python `str` operations the prompt kernel relies on, over
    `string` (a sequence of Unicode scalar values):
      - `sep.join(parts)`       Join
      - `s.split(c)`            Split (a one-character separator)
      - `sub in s`              Contains
      - `s.strip()`             Strip (the whitespace characters below U+0080)
      - `s.lower()`             Lower (ASCII letters only)
    Each is defined by recursion and related to an independent description
    of what it computes. */
module Text {

  /** `p` is a prefix of `s` (Python's `s.startswith(p)`). */
  predicate StartsWith(s: string, p: string) {
    |p| <= |s| && s[..|p|] == p
  }

  /** `p` is a suffix of `s` (Python's `s.endswith(p)`). */
  predicate EndsWith(s: string, p: string) {
    |p| <= |s| && s[|s| - |p|..] == p
  }

  // ---------------------------------------------------------------------------
  // Substring test

  /** Python's `sub in s`. The empty string occurs in every string. */
  predicate Contains(s: string, sub: string)
    decreases |s|
  {
    StartsWith(s, sub) || (|s| > 0 && Contains(s[1..], sub))
  }

  /** `sub` occurs in `s` starting at position `i`. */
  ghost predicate OccursAt(s: string, sub: string, i: int) {
    0 <= i && i + |sub| <= |s| && s[i..i + |sub|] == sub
  }

  /** `Contains` finds exactly the occurrences at some position. */
  lemma {:induction false} ContainsIff(s: string, sub: string)
    ensures Contains(s, sub) <==> exists i :: OccursAt(s, sub, i)
    decreases |s|
  {
    if StartsWith(s, sub) {
      assert OccursAt(s, sub, 0);
    } else if |s| > 0 {
      ContainsIff(s[1..], sub);
      if Contains(s[1..], sub) {
        var i :| OccursAt(s[1..], sub, i);
        assert s[1..][i..i + |sub|] == s[i + 1..i + 1 + |sub|];
        assert OccursAt(s, sub, i + 1);
      }
      if i :| OccursAt(s, sub, i) {
        assert i != 0;
        assert s[1..][i - 1..i - 1 + |sub|] == s[i..i + |sub|];
        assert OccursAt(s[1..], sub, i - 1);
      }
    }
  }

  /** A substring of a substring is a substring. */
  lemma ContainsTransitive(s: string, x: string, y: string)
    requires Contains(s, x) && Contains(x, y)
    ensures Contains(s, y)
  {
    ContainsIff(s, x);
    ContainsIff(x, y);
    var i :| OccursAt(s, x, i);
    var j :| OccursAt(x, y, j);
    forall k | 0 <= k < |y|
      ensures s[i + j + k] == y[k]
    {
      assert y[k] == x[j + k];
      assert x[j + k] == s[i + j + k];
    }
    assert s[i + j..i + j + |y|] == y;
    assert OccursAt(s, y, i + j);
    ContainsIff(s, y);
  }

  /** A string occurs in anything built around it. */
  lemma {:induction false} ContainsInfix(pre: string, x: string, post: string)
    ensures Contains(pre + x + post, x)
    decreases |pre|
  {
    var s := pre + x + post;
    if |pre| == 0 {
      assert s[..|x|] == x;
    } else {
      assert s[1..] == pre[1..] + x + post;
      ContainsInfix(pre[1..], x, post);
    }
  }

  // ---------------------------------------------------------------------------
  // Join and Split

  /** Python's `sep.join(parts)`. */
  function Join(parts: seq<string>, sep: string): string
    decreases |parts|
  {
    if |parts| == 0 then ""
    else if |parts| == 1 then parts[0]
    else parts[0] + sep + Join(parts[1..], sep)
  }

  /** Joining two non-empty lists puts exactly one separator between them. */
  lemma {:induction false} JoinAppend(xs: seq<string>, ys: seq<string>, sep: string)
    requires |xs| > 0 && |ys| > 0
    ensures Join(xs + ys, sep) == Join(xs, sep) + sep + Join(ys, sep)
    decreases |xs|
  {
    if |xs| == 1 {
      assert (xs + ys)[1..] == ys;
    } else {
      assert (xs + ys)[1..] == xs[1..] + ys;
      JoinAppend(xs[1..], ys, sep);
    }
  }

  /** A join of three parts. */
  lemma Join3(a: string, b: string, c: string, sep: string)
    ensures Join([a, b, c], sep) == a + sep + b + sep + c
  {
    assert [a, b, c][1..] == [b, c];
    assert [b, c][1..] == [c];
    assert Join([b, c], sep) == b + sep + c;
    assert Join([a, b, c], sep) == a + sep + (b + sep + c);
  }

  /** Every part of a join occurs in it, with what comes before and after. */
  lemma {:induction false} JoinAround(parts: seq<string>, sep: string, k: nat)
    requires k < |parts|
    ensures exists pre, post :: Join(parts, sep) == pre + parts[k] + post
    decreases |parts|
  {
    if |parts| == 1 {
      assert Join(parts, sep) == "" + parts[k] + "";
    } else if k == 0 {
      assert Join(parts, sep) == "" + parts[0] + (sep + Join(parts[1..], sep));
    } else {
      JoinAround(parts[1..], sep, k - 1);
      var pre, post :| Join(parts[1..], sep) == pre + parts[1..][k - 1] + post;
      assert Join(parts, sep) == (parts[0] + sep + pre) + parts[k] + post;
    }
  }

  /** Every part of a join is a substring of it. */
  lemma JoinContainsPart(parts: seq<string>, sep: string, k: nat)
    requires k < |parts|
    ensures Contains(Join(parts, sep), parts[k])
  {
    JoinAround(parts, sep, k);
    var pre, post :| Join(parts, sep) == pre + parts[k] + post;
    ContainsInfix(pre, parts[k], post);
  }

  /** Index of the first `c` in `s`, or `|s|` when there is none. */
  function Find(s: string, c: char): (i: nat)
    ensures i <= |s|
    ensures forall k :: 0 <= k < i ==> s[k] != c
    ensures i < |s| ==> s[i] == c
    decreases |s|
  {
    if |s| == 0 then 0
    else if s[0] == c then 0
    else 1 + Find(s[1..], c)
  }

  /** Index of the last `c` in `s`, or -1 when there is none (Python's `s.rfind(c)`). */
  function RFind(s: string, c: char): (i: int)
    ensures -1 <= i < |s|
    ensures forall k :: i < k < |s| ==> s[k] != c
    ensures i >= 0 ==> s[i] == c
    decreases |s|
  {
    if |s| == 0 then -1
    else if s[|s| - 1] == c then |s| - 1
    else RFind(s[..|s| - 1], c)
  }

  /** The last `c` of `s` is the one just before a `c`-free suffix. */
  lemma RFindBefore(s: string, c: char, n: nat)
    requires n <= |s|
    requires forall k :: n <= k < |s| ==> s[k] != c
    requires n == 0 || s[n - 1] == c
    ensures RFind(s, c) == n - 1
  {
  }

  /** A string that holds a character none of `s` holds does not occur in `s`. */
  lemma {:induction false} AbsentChar(s: string, sub: string, ch: char)
    requires ch in sub && ch !in s
    ensures !Contains(s, sub)
    decreases |s|
  {
    var k :| 0 <= k < |sub| && sub[k] == ch;
    if |sub| <= |s| {
      assert s[..|sub|][k] != ch;
    }
    assert !StartsWith(s, sub);
    if |s| > 0 {
      AbsentChar(s[1..], sub, ch);
    }
  }

  /** Python's `s.split(c)`: the maximal runs of `s` that contain no `c`. */
  function Split(s: string, c: char): (parts: seq<string>)
    ensures |parts| >= 1
    ensures forall k :: 0 <= k < |parts| ==> c !in parts[k]
    decreases |s|
  {
    var i := Find(s, c);
    if i == |s| then [s] else [s[..i]] + Split(s[i + 1..], c)
  }

  /** Joining the pieces with the separator gives back the string. */
  lemma {:induction false} JoinSplit(s: string, c: char)
    ensures Join(Split(s, c), [c]) == s
    decreases |s|
  {
    var i := Find(s, c);
    if i < |s| {
      var rest := Split(s[i + 1..], c);
      JoinSplit(s[i + 1..], c);
      assert Split(s, c) == [s[..i]] + rest;
      assert s == s[..i] + [c] + s[i + 1..];
    }
  }

  /** Splitting undoes joining whenever no part holds the separator. */
  lemma {:induction false} SplitJoin(parts: seq<string>, c: char)
    requires |parts| >= 1
    requires forall k :: 0 <= k < |parts| ==> c !in parts[k]
    ensures Split(Join(parts, [c]), c) == parts
    decreases |parts|
  {
    var s := Join(parts, [c]);
    if |parts| == 1 {
      assert s == parts[0];
    } else {
      var tail := Join(parts[1..], [c]);
      assert s == parts[0] + [c] + tail;
      var n := |parts[0]|;
      assert s[n] == c;
      assert s[..n] == parts[0];
      assert forall k :: 0 <= k < n ==> s[k] == parts[0][k];
      assert Find(s, c) == n;
      assert s[n + 1..] == tail;
      SplitJoin(parts[1..], c);
    }
  }

  /** The last element of a non-empty sequence (Python's `xs[-1]`). */
  function Last<T>(xs: seq<T>): T
    requires |xs| > 0
  {
    xs[|xs| - 1]
  }

  /** A string without `c` splits into itself alone. */
  lemma SplitWithout(s: string, c: char)
    requires c !in s
    ensures Split(s, c) == [s]
  {
    assert Find(s, c) == |s|;
  }

  /** Where the last piece of `s.split(c)` starts: just after the last `c`,
      or at 0 when there is none. */
  function LastStart(s: string, c: char): (n: nat)
    ensures n <= |s|
    decreases |s|
  {
    var i := Find(s, c);
    if i == |s| then 0 else i + 1 + LastStart(s[i + 1..], c)
  }

  /** No `c` follows `LastStart`, and the character before it, if any, is a `c`. */
  lemma {:induction false} LastStartShape(s: string, c: char)
    ensures forall k :: LastStart(s, c) <= k < |s| ==> s[k] != c
    ensures LastStart(s, c) == 0 || s[LastStart(s, c) - 1] == c
    decreases |s|
  {
    var i := Find(s, c);
    if i < |s| {
      var t := s[i + 1..];
      LastStartShape(t, c);
      var n := LastStart(t, c);
      assert forall k :: i + 1 + n <= k < |s| ==> s[k] == t[k - i - 1];
    }
  }

  /** `s.split(c)[-1]` is the suffix of `s` from `LastStart`. */
  lemma {:induction false} LastPiece(s: string, c: char)
    ensures Last(Split(s, c)) == s[LastStart(s, c)..]
    decreases |s|
  {
    var i := Find(s, c);
    if i < |s| {
      var t := s[i + 1..];
      LastPiece(t, c);
      var n := LastStart(t, c);
      assert Split(s, c) == [s[..i]] + Split(t, c);
      assert t[n..] == s[i + 1 + n..];
    } else {
      assert Split(s, c) == [s];
    }
  }

  /** `s.split(c)[-1]` is `s[s.rfind(c) + 1:]`. */
  lemma LastPieceAfterRFind(s: string, c: char)
    ensures Last(Split(s, c)) == s[RFind(s, c) + 1..]
  {
    LastPiece(s, c);
    LastStartShape(s, c);
    RFindBefore(s, c, LastStart(s, c));
  }

  // ---------------------------------------------------------------------------
  // Whitespace trimming and lower-casing

  /** The characters below U+0080 that Python's `str.isspace` accepts:
      tab, line feed, vertical tab, form feed, carriage return, the four
      information separators U+001C..U+001F, and space. */
  predicate IsSpace(ch: char) {
    ch == ' ' || ('\t' <= ch <= '\r') || ('\U{1C}' <= ch <= '\U{1F}')
  }

  /** Python's `s.lstrip()`. */
  function StripLeft(s: string): (r: string)
    ensures EndsWith(s, r)
    ensures |r| > 0 ==> !IsSpace(r[0])
    ensures forall k :: 0 <= k < |s| - |r| ==> IsSpace(s[k])
    decreases |s|
  {
    if |s| > 0 && IsSpace(s[0]) then StripLeft(s[1..]) else s
  }

  /** Python's `s.rstrip()`. */
  function StripRight(s: string): (r: string)
    ensures StartsWith(s, r)
    ensures |r| > 0 ==> !IsSpace(r[|r| - 1])
    ensures forall k :: |r| <= k < |s| ==> IsSpace(s[k])
    decreases |s|
  {
    if |s| > 0 && IsSpace(s[|s| - 1]) then StripRight(s[..|s| - 1]) else s
  }

  /** `r` is `s[i..i + |r|]` and everything of `s` around it is whitespace. */
  ghost predicate TrimmedAt(s: string, r: string, i: int) {
    && 0 <= i <= |s| - |r|
    && r == s[i..i + |r|]
    && (forall k :: 0 <= k < i ==> IsSpace(s[k]))
    && (forall k :: i + |r| <= k < |s| ==> IsSpace(s[k]))
  }

  /** Python's `s.strip()`: `s` without its leading and trailing whitespace. */
  function Strip(s: string): (r: string)
    ensures |r| <= |s|
    ensures |r| > 0 ==> !IsSpace(r[0]) && !IsSpace(r[|r| - 1])
  {
    StripRight(StripLeft(s))
  }

  /** What `Strip` removes is whitespace on both sides of what it keeps. */
  lemma StripShape(s: string)
    ensures exists i :: TrimmedAt(s, Strip(s), i)
  {
    var l := StripLeft(s);
    TrimmedBoth(s, l, StripRight(l));
    assert TrimmedAt(s, Strip(s), |s| - |l|);
  }

  /** Cutting leading whitespace and then trailing whitespace leaves an
      infix with only whitespace around it. */
  lemma TrimmedBoth(s: string, l: string, r: string)
    requires EndsWith(s, l) && forall k :: 0 <= k < |s| - |l| ==> IsSpace(s[k])
    requires StartsWith(l, r) && forall k :: |r| <= k < |l| ==> IsSpace(l[k])
    ensures TrimmedAt(s, r, |s| - |l|)
  {
    var i := |s| - |l|;
    assert r == s[i..i + |r|];
    forall k | i + |r| <= k < |s|
      ensures IsSpace(s[k])
    {
      assert s[k] == l[k - i];
    }
  }

  /** A string without leading or trailing whitespace is its own strip. */
  lemma StripTrimmed(s: string)
    requires |s| > 0 ==> !IsSpace(s[0]) && !IsSpace(s[|s| - 1])
    ensures Strip(s) == s
  {
  }

  /** Stripping twice is stripping once. */
  lemma StripIdempotent(s: string)
    ensures Strip(Strip(s)) == Strip(s)
  {
    StripTrimmed(Strip(s));
  }

  /** Python's `ch.lower()` for ASCII letters; every other character is kept. */
  function LowerChar(ch: char): (r: char)
    ensures IsSpace(r) <==> IsSpace(ch)
    ensures !('A' <= r <= 'Z')
  {
    if 'A' <= ch <= 'Z' then (ch as int + 32) as char else ch
  }

  /** Python's `s.lower()`, letter by letter. */
  function Lower(s: string): (r: string)
    ensures |r| == |s|
    ensures forall k :: 0 <= k < |s| ==> r[k] == LowerChar(s[k])
    decreases |s|
  {
    if |s| == 0 then "" else [LowerChar(s[0])] + Lower(s[1..])
  }
}
