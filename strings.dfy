/** The Python string operations the services rely on: `strip()`,
    `startswith`, `endswith`, `find`, the `in` substring test, `lower()`
    and slicing `s[:n]`. */
module Strings {

  /** Python's `str.isspace()` for one character. */
  predicate IsSpace(c: char) {
    || c == ' ' || c == '\t' || c == '\n' || c == '\r'
    || c == '\U{000B}' || c == '\U{000C}'
    || ('\U{001C}' <= c <= '\U{001F}')
    || c == '\U{0085}' || c == '\U{00A0}' || c == '\U{1680}'
    || ('\U{2000}' <= c <= '\U{200A}')
    || c == '\U{2028}' || c == '\U{2029}' || c == '\U{202F}'
    || c == '\U{205F}' || c == '\U{3000}'
  }

  /** Number of leading whitespace characters. */
  function LeadingSpaces(s: string): (k: nat)
    ensures k <= |s|
    ensures forall i :: 0 <= i < k ==> IsSpace(s[i])
    ensures k < |s| ==> !IsSpace(s[k])
  {
    if |s| > 0 && IsSpace(s[0]) then 1 + LeadingSpaces(s[1..]) else 0
  }

  /** Index just past the last non-whitespace character. */
  function TrailingEnd(s: string): (k: nat)
    ensures k <= |s|
    ensures forall i :: k <= i < |s| ==> IsSpace(s[i])
    ensures k > 0 ==> !IsSpace(s[k - 1])
  {
    if |s| > 0 && IsSpace(s[|s| - 1]) then TrailingEnd(s[..|s| - 1]) else |s|
  }

  /** The input without its leading whitespace. */
  function TrimStart(s: string): (r: string)
    ensures |r| <= |s|
    ensures r == [] || !IsSpace(r[0])
  {
    if |s| > 0 && IsSpace(s[0]) then TrimStart(s[1..]) else s
  }

  /** The input without its trailing whitespace. */
  function TrimEnd(s: string): (r: string)
    ensures |r| <= |s|
    ensures r == [] || (r[0] == s[0] && !IsSpace(r[|r| - 1]))
  {
    if |s| > 0 && IsSpace(s[|s| - 1]) then TrimEnd(s[..|s| - 1]) else s
  }

  /** Python's `s.strip()`: the input without leading or trailing whitespace. */
  function Strip(s: string): (r: string)
    ensures |r| <= |s|
    ensures r == [] || (!IsSpace(r[0]) && !IsSpace(r[|r| - 1]))
  {
    TrimEnd(TrimStart(s))
  }

  lemma {:induction false} TrimStartIsLeading(s: string)
    ensures TrimStart(s) == s[LeadingSpaces(s)..]
  {
    if |s| > 0 && IsSpace(s[0]) {
      TrimStartIsLeading(s[1..]);
      assert s[1..][LeadingSpaces(s[1..])..] == s[1 + LeadingSpaces(s[1..])..];
    }
  }

  lemma {:induction false} TrimEndIsTrailing(s: string)
    ensures TrimEnd(s) == s[..TrailingEnd(s)]
  {
    if |s| > 0 && IsSpace(s[|s| - 1]) {
      TrimEndIsTrailing(s[..|s| - 1]);
      assert s[..|s| - 1][..TrailingEnd(s[..|s| - 1])] == s[..TrailingEnd(s[..|s| - 1])];
    }
  }

  /** Where `strip()` cuts: only whitespace lies outside the two indices,
      the kept part is empty or has non-blank ends, and it is the result. */
  lemma StripCut(s: string) returns (a: nat, b: nat)
    ensures a <= b <= |s|
    ensures forall i :: 0 <= i < a ==> IsSpace(s[i])
    ensures forall i :: b <= i < |s| ==> IsSpace(s[i])
    ensures a == b || (!IsSpace(s[a]) && !IsSpace(s[b - 1]))
    ensures Strip(s) == s[a..b]
  {
    a := LeadingSpaces(s);
    var t := s[a..];
    var e := TrailingEnd(t);
    b := a + e;
    TrimStartIsLeading(s);
    TrimEndIsTrailing(t);
    assert t[..e] == s[a..b];
    assert forall i :: b <= i < |s| ==> s[i] == t[i - a];
    assert a < b ==> s[b - 1] == t[e - 1];
  }

  /** `strip()` is characterised by its cut points: any slice with only
      whitespace outside it and non-blank ends (or empty) is the result. */
  lemma StripUnique(s: string, a: nat, b: nat)
    requires a <= b <= |s|
    requires forall i :: 0 <= i < a ==> IsSpace(s[i])
    requires forall i :: b <= i < |s| ==> IsSpace(s[i])
    requires a == b || (!IsSpace(s[a]) && !IsSpace(s[b - 1]))
    ensures Strip(s) == s[a..b]
  {
    var a', b' := StripCut(s);
    assert a' < b' ==> !IsSpace(s[a']) && !IsSpace(s[b' - 1]);
    assert a < b ==> !IsSpace(s[a]) && !IsSpace(s[b - 1]);
    assert a' < b' ==> a <= a' < b;
    assert a < b ==> a' <= a < b';
    assert a' < b' ==> a' == a && b' == b;
  }

  /** Stripping a string whose ends are already non-blank changes nothing. */
  lemma StripUnchanged(s: string)
    requires s == [] || (!IsSpace(s[0]) && !IsSpace(s[|s| - 1]))
    ensures Strip(s) == s
  {
    StripUnique(s, 0, |s|);
  }

  /** `strip()` is idempotent. */
  lemma StripIdempotent(s: string)
    ensures Strip(Strip(s)) == Strip(s)
  {
    StripUnchanged(Strip(s));
  }

  /** Whitespace added around a string disappears under `strip()`. */
  lemma StripPadded(pre: string, t: string, post: string)
    requires forall i :: 0 <= i < |pre| ==> IsSpace(pre[i])
    requires forall i :: 0 <= i < |post| ==> IsSpace(post[i])
    ensures Strip(pre + t + post) == Strip(t)
  {
    var a, b := StripCut(t);
    SliceOfMiddle(pre, t, post, a, b);
    BlankBefore(pre, t, post, a);
    BlankAfter(pre, t, post, b);
    MiddleEnds(pre, t, post, a, b);
    StripUnique(pre + t + post, |pre| + a, |pre| + b);
  }

  lemma MiddleEnds(pre: string, t: string, post: string, a: nat, b: nat)
    requires a <= b <= |t|
    requires a == b || (!IsSpace(t[a]) && !IsSpace(t[b - 1]))
    ensures a == b || (!IsSpace((pre + t + post)[|pre| + a]) && !IsSpace((pre + t + post)[|pre| + b - 1]))
  {
    assert a < b ==> (pre + t + post)[|pre| + a] == t[a] && (pre + t + post)[|pre| + b - 1] == t[b - 1];
  }

  lemma SliceOfMiddle(pre: string, t: string, post: string, a: nat, b: nat)
    requires a <= b <= |t|
    ensures (pre + t + post)[|pre| + a..|pre| + b] == t[a..b]
  {
    assert pre + t + post == pre + (t + post);
    assert (pre + (t + post))[|pre|..] == t + post;
  }

  lemma BlankBefore(pre: string, t: string, post: string, a: nat)
    requires a <= |t|
    requires forall i :: 0 <= i < |pre| ==> IsSpace(pre[i])
    requires forall i :: 0 <= i < a ==> IsSpace(t[i])
    ensures forall i :: 0 <= i < |pre| + a ==> IsSpace((pre + t + post)[i])
  {
    var s := pre + t + post;
    forall i | 0 <= i < |pre| + a ensures IsSpace(s[i]) {
      if i < |pre| { assert s[i] == pre[i]; } else { assert s[i] == t[i - |pre|]; }
    }
  }

  lemma BlankAfter(pre: string, t: string, post: string, b: nat)
    requires b <= |t|
    requires forall i :: 0 <= i < |post| ==> IsSpace(post[i])
    requires forall i :: b <= i < |t| ==> IsSpace(t[i])
    ensures forall i :: |pre| + b <= i < |pre + t + post| ==> IsSpace((pre + t + post)[i])
  {
    var s := pre + t + post;
    forall i | |pre| + b <= i < |s| ensures IsSpace(s[i]) {
      if i < |pre| + |t| { assert s[i] == t[i - |pre|]; } else { assert s[i] == post[i - |pre| - |t|]; }
    }
  }

  /** Python's `s.startswith(p)`. */
  predicate StartsWith(s: string, p: string) {
    |p| <= |s| && s[..|p|] == p
  }

  /** A string starts with the text it was built from. */
  lemma StartsWithConcat(p: string, rest: string)
    ensures StartsWith(p + rest, p)
  {
    assert (p + rest)[..|p|] == p;
  }

  /** Python's `s.endswith(p)`. */
  predicate EndsWith(s: string, p: string) {
    |p| <= |s| && s[|s| - |p|..] == p
  }

  /** `sub` occurs in `s` starting at index `i`. */
  predicate MatchAt(s: string, sub: string, i: int) {
    0 <= i && i + |sub| <= |s| && s[i..i + |sub|] == sub
  }

  /** Python's `s.find(sub, start)`: the first index at or after `start`
      where `sub` occurs, or -1. */
  function Find(s: string, sub: string, start: nat): (r: int)
    ensures r == -1 || (start <= r && MatchAt(s, sub, r))
    ensures r == -1 ==> forall i :: start <= i ==> !MatchAt(s, sub, i)
    ensures r != -1 ==> forall i :: start <= i < r ==> !MatchAt(s, sub, i)
    decreases |s| - start
  {
    if start + |sub| > |s| then -1
    else if s[start..start + |sub|] == sub then start
    else Find(s, sub, start + 1)
  }

  /** Python's `sub in s` for two strings. */
  function Contains(s: string, sub: string): (r: bool)
    ensures r <==> exists i :: MatchAt(s, sub, i)
  {
    Find(s, sub, 0) != -1
  }

  /** A match inside a prefix is a match in the whole string. */
  lemma MatchExtend(s: string, t: string, sub: string, i: int)
    requires MatchAt(s, sub, i)
    ensures MatchAt(s + t, sub, i)
  {
    assert (s + t)[i..i + |sub|] == s[i..i + |sub|];
  }

  /** ASCII letters are lower-cased; every other character is kept. */
  function LowerChar(c: char): char {
    if 'A' <= c <= 'Z' then (c as int + 32) as char else c
  }

  /** `s.lower()` restricted to ASCII letters. */
  function Lower(s: string): (r: string)
    ensures |r| == |s|
    ensures forall i :: 0 <= i < |s| ==> r[i] == LowerChar(s[i])
  {
    if s == [] then [] else [LowerChar(s[0])] + Lower(s[1..])
  }

  /** Python's `s[:n]`. */
  function Take<T>(s: seq<T>, n: nat): (r: seq<T>)
    ensures |r| == if |s| <= n then |s| else n
    ensures r == s[..|r|]
  {
    if |s| <= n then s else s[..n]
  }

  /** Decimal rendering of a natural number, as `str(n)` prints it. */
  function NatText(n: nat): (r: string)
    ensures |r| > 0
    decreases n
  {
    var d := ['0', '1', '2', '3', '4', '5', '6', '7', '8', '9'][n % 10];
    if n < 10 then [d] else NatText(n / 10) + [d]
  }

  /** Decimal rendering of an integer, as `str(n)` prints it. */
  function IntText(n: int): string {
    if n < 0 then "-" + NatText(-n) else NatText(n)
  }
}
