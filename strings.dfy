/**
 * Text helpers shared by the TypeScript and Java parts: `Array.prototype.join`,
 * its inverse `split` on a one-character separator, Java's `String.isBlank`,
 * `contains` of a character and ASCII case-insensitive ordering.
 */
module Strings {
  import opened Wrappers

  /** `xs.join(sep)`. */
  function Join(xs: seq<string>, sep: string): (s: string)
    ensures xs == [] ==> s == ""
    ensures |xs| == 1 ==> s == xs[0]
  {
    if xs == [] then ""
    else if |xs| == 1 then xs[0]
    else xs[0] + sep + Join(xs[1..], sep)
  }

  predicate NoChar(s: string, c: char) {
    forall i :: 0 <= i < |s| ==> s[i] != c
  }

  /** Index of the first `c` in `s`, or |s|. */
  function IndexOf(s: string, c: char): (k: nat)
    ensures k <= |s| && NoChar(s[..k], c)
    ensures k < |s| ==> s[k] == c
  {
    if s == [] then 0
    else if s[0] == c then 0
    else
      var k := IndexOf(s[1..], c);
      assert s[..k + 1] == [s[0]] + s[1..][..k];
      k + 1
  }

  /** `s.split(c)`: the pieces between occurrences of `c` (always at least one). */
  function Split(s: string, c: char): (parts: seq<string>)
    ensures |parts| >= 1
    ensures forall i :: 0 <= i < |parts| ==> NoChar(parts[i], c)
    decreases |s|
  {
    var k := IndexOf(s, c);
    if k == |s| then [s] else [s[..k]] + Split(s[k + 1..], c)
  }

  /** Whether `pat` occurs in `s` starting at index i. */
  predicate OccursAt(s: string, pat: string, i: int) {
    0 <= i && i + |pat| <= |s| && s[i..i + |pat|] == pat
  }

  /** The first index at or after i where `pat` occurs, if any. */
  function FindFrom(s: string, pat: string, i: nat): (r: Option<nat>)
    ensures r.Some? ==> i <= r.value && OccursAt(s, pat, r.value)
                        && forall j :: i <= j < r.value ==> !OccursAt(s, pat, j)
    ensures r.None? ==> forall j :: i <= j ==> !OccursAt(s, pat, j)
    decreases |s| - i
  {
    if i + |pat| > |s| then None
    else if s[i..i + |pat|] == pat then Some(i)
    else FindFrom(s, pat, i + 1)
  }

  /** `s.replace(pat, rep)` with a string pattern: only the first occurrence is replaced. */
  function ReplaceFirst(s: string, pat: string, rep: string): string {
    match FindFrom(s, pat, 0)
    case None => s
    case Some(k) => s[..k] + rep + s[k + |pat|..]
  }

  /** When the text before an occurrence cannot start one, that occurrence is the one replaced. */
  lemma ReplaceFirstAfter(pre: string, pat: string, post: string, rep: string)
    requires pat != [] && NoChar(pre, pat[0])
    ensures ReplaceFirst(pre + pat + post, pat, rep) == pre + rep + post
  {
    var s := pre + pat + post;
    assert OccursAt(s, pat, |pre|) by {
      assert s[|pre|..|pre| + |pat|] == pat;
    }
    assert FindFrom(s, pat, 0) == Some(|pre|);
    assert s[..|pre|] == pre && s[|pre| + |pat|..] == post;
  }

  lemma {:induction false} IndexOfPrefix(a: string, b: string, c: char)
    requires NoChar(a, c)
    ensures IndexOf(a + [c] + b, c) == |a|
    decreases |a|
  {
    var s := a + [c] + b;
    if a != [] {
      assert s[1..] == a[1..] + [c] + b;
      IndexOfPrefix(a[1..], b, c);
    }
  }

  lemma IndexOfNone(a: string, c: char)
    requires NoChar(a, c)
    ensures IndexOf(a, c) == |a|
  {
  }

  /** Splitting the joined pieces gives the pieces back, when no piece holds the separator. */
  lemma {:induction false} SplitJoin(xs: seq<string>, c: char)
    requires xs != []
    requires forall i :: 0 <= i < |xs| ==> NoChar(xs[i], c)
    ensures Split(Join(xs, [c]), c) == xs
    decreases |xs|
  {
    if |xs| == 1 {
      IndexOfNone(xs[0], c);
    } else {
      var s := Join(xs, [c]);
      var rest := Join(xs[1..], [c]);
      assert s == xs[0] + [c] + rest;
      IndexOfPrefix(xs[0], rest, c);
      assert s[..|xs[0]|] == xs[0];
      assert s[|xs[0]| + 1..] == rest;
      SplitJoin(xs[1..], c);
    }
  }

  /** Java's `Character.isWhitespace`. */
  predicate IsWhitespace(c: char) {
    c == ' ' || c == '\t' || c == '\n' || c == '\U{B}' || c == '\U{C}' || c == '\r'
    || ('\U{1C}' <= c <= '\U{1F}')
    || c == '\U{1680}' || ('\U{2000}' <= c <= '\U{2006}') || ('\U{2008}' <= c <= '\U{200A}')
    || c == '\U{2028}' || c == '\U{2029}' || c == '\U{205F}' || c == '\U{3000}'
  }

  /** Java's `String.isBlank`: empty or only whitespace. */
  predicate IsBlank(s: string) {
    forall i :: 0 <= i < |s| ==> IsWhitespace(s[i])
  }

  /** `s.contains(String.valueOf(c))`. */
  predicate Contains(s: string, c: char) {
    exists i :: 0 <= i < |s| && s[i] == c
  }

  /** Lower-casing of one character, ASCII letters only. */
  function LowerChar(c: char): (d: char)
    ensures 'A' <= c <= 'Z' ==> 'a' <= d <= 'z'
    ensures !('A' <= c <= 'Z') ==> d == c
  {
    if 'A' <= c <= 'Z' then ((c as int) + 32) as char else c
  }

  /** `s.toUpperCase()`, ASCII letters only. */
  function Upper(s: string): (u: string)
    ensures |u| == |s|
    ensures forall i :: 0 <= i < |s| ==> (if 'a' <= s[i] <= 'z' then u[i] as int == s[i] as int - 32 else u[i] == s[i])
  {
    seq(|s|, i requires 0 <= i < |s| => if 'a' <= s[i] <= 'z' then ((s[i] as int) - 32) as char else s[i])
  }

  /** `a.compareToIgnoreCase(b) <= 0`: lexicographic order after lower-casing. */
  predicate LeIgnoreCase(a: string, b: string) {
    if a == [] then true
    else if b == [] then false
    else if LowerChar(a[0]) != LowerChar(b[0]) then LowerChar(a[0]) < LowerChar(b[0])
    else LeIgnoreCase(a[1..], b[1..])
  }

  lemma {:induction false} LeIgnoreCaseTotal(a: string, b: string)
    ensures LeIgnoreCase(a, b) || LeIgnoreCase(b, a)
    decreases |a|
  {
    if a != [] && b != [] && LowerChar(a[0]) == LowerChar(b[0]) {
      LeIgnoreCaseTotal(a[1..], b[1..]);
    }
  }

  lemma {:induction false} LeIgnoreCaseTrans(a: string, b: string, c: string)
    requires LeIgnoreCase(a, b) && LeIgnoreCase(b, c)
    ensures LeIgnoreCase(a, c)
    decreases |a|
  {
    if a != [] && b != [] && c != []
       && LowerChar(a[0]) == LowerChar(b[0]) && LowerChar(b[0]) == LowerChar(c[0]) {
      LeIgnoreCaseTrans(a[1..], b[1..], c[1..]);
    }
  }

  /** Number of occurrences of `c` in `s`. */
  function CountChar(s: string, c: char): (n: nat)
    ensures n <= |s|
    ensures NoChar(s, c) <==> n == 0
  {
    if s == [] then 0
    else
      var rest := CountChar(s[1..], c);
      assert NoChar(s, c) <==> s[0] != c && NoChar(s[1..], c);
      (if s[0] == c then 1 else 0) + rest
  }

  lemma {:induction false} CountCharAppend(a: string, b: string, c: char)
    ensures CountChar(a + b, c) == CountChar(a, c) + CountChar(b, c)
    decreases |a|
  {
    if a == [] {
      assert a + b == b;
    } else {
      assert (a + b)[0] == a[0];
      assert (a + b)[1..] == a[1..] + b;
      CountCharAppend(a[1..], b, c);
    }
  }

  /** Joining pieces that each hold `c` exactly once, with a separator free of `c`, holds it once per piece. */
  lemma {:induction false} CountCharJoin(xs: seq<string>, sep: string, c: char)
    requires forall i :: 0 <= i < |xs| ==> CountChar(xs[i], c) == 1
    requires CountChar(sep, c) == 0
    ensures CountChar(Join(xs, sep), c) == |xs|
    decreases |xs|
  {
    if |xs| > 1 {
      var rest := Join(xs[1..], sep);
      assert Join(xs, sep) == xs[0] + sep + rest;
      CountCharJoin(xs[1..], sep, c);
      CountCharAppend(xs[0] + sep, rest, c);
      CountCharAppend(xs[0], sep, c);
    }
  }

  /** Joining pieces free of `c` with a separator free of `c` gives a text free of `c`. */
  lemma {:induction false} CountCharJoinNone(xs: seq<string>, sep: string, c: char)
    requires forall i :: 0 <= i < |xs| ==> CountChar(xs[i], c) == 0
    requires CountChar(sep, c) == 0
    ensures CountChar(Join(xs, sep), c) == 0
    decreases |xs|
  {
    if |xs| > 1 {
      CountCharJoinNone(xs[1..], sep, c);
      CountCharAppend(xs[0] + sep, Join(xs[1..], sep), c);
      CountCharAppend(xs[0], sep, c);
    }
  }

  /** Joining one more piece appends the separator and the piece. */
  lemma {:induction false} JoinSnoc(xs: seq<string>, x: string, sep: string)
    requires xs != []
    ensures Join(xs + [x], sep) == Join(xs, sep) + sep + x
    decreases |xs|
  {
    if |xs| > 1 {
      assert (xs + [x])[1..] == xs[1..] + [x];
      JoinSnoc(xs[1..], x, sep);
    } else {
      assert xs + [x] == [xs[0], x];
      assert [xs[0], x][1..] == [x];
    }
  }

  /** The occurrences of `c` in all the pieces together. */
  function CountAll(xs: seq<string>, c: char): nat {
    if xs == [] then 0 else CountAll(xs[..|xs| - 1], c) + CountChar(xs[|xs| - 1], c)
  }

  /** With a separator free of `c`, a join holds exactly the occurrences of its pieces. */
  lemma {:induction false} CountCharJoinAll(xs: seq<string>, sep: string, c: char)
    requires CountChar(sep, c) == 0
    ensures CountChar(Join(xs, sep), c) == CountAll(xs, c)
    decreases |xs|
  {
    if |xs| > 1 {
      var init := xs[..|xs| - 1];
      var x := xs[|xs| - 1];
      assert xs == init + [x];
      JoinSnoc(init, x, sep);
      CountCharJoinAll(init, sep, c);
      CountCharAppend(Join(init, sep), sep, c);
      CountCharAppend(Join(init, sep) + sep, x, c);
    } else if |xs| == 1 {
      assert xs[..0] == [];
    }
  }

  /** A text with `c` only at one joint holds it once. */
  lemma OneCharBetween(pre: string, c: char, post: string)
    requires NoChar(pre, c) && NoChar(post, c)
    ensures CountChar(pre + [c] + post, c) == 1
  {
    CountCharAppend(pre, [c], c);
    CountCharAppend(pre + [c], post, c);
  }
}
