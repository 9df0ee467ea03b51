/**
 * The two Python string operations the generated code leans on: `sep.join(parts)` and
 * `s.split(sep)`, with Python's semantics (`"".join([]) == ""`, `"ab".split(".") == ["ab"]`,
 * `"a..b".split(".") == ["a", "", "b"]`).
 */
module Text {

  /** `sep.join(xs)`. */
  function Join(xs: seq<string>, sep: string): string
  {
    if |xs| == 0 then ""
    else if |xs| == 1 then xs[0]
    else xs[0] + sep + Join(xs[1..], sep)
  }

  /** `'"' + s + '"'`, the f-string `f'"{s}"'`. */
  function Quote(s: string): string
  {
    "\"" + s + "\""
  }

  /** Joining grows at the end: what a loop that appends and joins afterwards relies on. */
  lemma {:induction false} JoinSnoc(xs: seq<string>, y: string, sep: string)
    ensures Join(xs + [y], sep) == if |xs| == 0 then y else Join(xs, sep) + sep + y
  {
    if |xs| == 0 {
      assert xs + [y] == [y];
    } else if |xs| == 1 {
      assert (xs + [y])[1..] == [y];
    } else {
      assert (xs + [y])[1..] == xs[1..] + [y];
      JoinSnoc(xs[1..], y, sep);
    }
  }

  /** `sep` occurs in `s` at position `j`. */
  predicate OccursAt(s: string, sep: string, j: int)
  {
    0 <= j && j + |sep| <= |s| && s[j..j + |sep|] == sep
  }

  /** First position at which `sep` occurs in `s`, or -1 (`s.find(sep)`). */
  function Find(s: string, sep: string): (i: int)
    requires |sep| > 0
    ensures -1 <= i < |s|
    ensures i >= 0 ==> OccursAt(s, sep, i)
    ensures i >= 0 ==> forall j :: 0 <= j < i ==> !OccursAt(s, sep, j)
    ensures i < 0 ==> forall j :: !OccursAt(s, sep, j)
    decreases |s|
  {
    if |s| < |sep| then -1
    else if s[..|sep|] == sep then 0
    else
      var i := Find(s[1..], sep);
      forall j | 1 <= j ensures OccursAt(s, sep, j) <==> OccursAt(s[1..], sep, j - 1) {
        if j + |sep| <= |s| {
          TailSlice(s, j, j + |sep|);
        }
      }
      if i < 0 then -1 else i + 1
  }

  /** A slice of the tail is the slice of the text one position further on. */
  lemma TailSlice(s: string, a: int, b: int)
    requires 1 <= a <= b <= |s|
    ensures s[1..][a - 1..b - 1] == s[a..b]
  {
    forall t | 0 <= t < b - a ensures s[1..][a - 1..b - 1][t] == s[a..b][t] {
    }
  }

  /** `s.split(sep)` for a non-empty separator. */
  function Split(s: string, sep: string): (parts: seq<string>)
    requires |sep| > 0
    ensures |parts| >= 1
    decreases |s|
  {
    var i := Find(s, sep);
    if i < 0 then [s] else [s[..i]] + Split(s[i + |sep|..], sep)
  }

  /** A split yields a second part exactly when the separator occurs. */
  lemma SplitHasSecond(s: string, sep: string)
    requires |sep| > 0
    ensures |Split(s, sep)| >= 2 <==> Find(s, sep) >= 0
  {
  }

  /** No occurrence of `sep` can start inside a text free of its first character. */
  lemma {:induction false} FindAfterPrefix(x: string, t: string, sep: string)
    requires |sep| > 0
    requires sep[0] !in x
    requires |t| >= |sep| && t[..|sep|] == sep
    ensures Find(x + t, sep) == |x|
    decreases |x|
  {
    if |x| == 0 {
      assert x + t == t;
    } else {
      var s := x + t;
      assert s[0] == x[0] != sep[0];
      assert s[..|sep|][0] == s[0];
      assert s[1..] == x[1..] + t;
      FindAfterPrefix(x[1..], t, sep);
    }
  }

  lemma {:induction false} FindNone(x: string, sep: string)
    requires |sep| > 0
    requires sep[0] !in x
    ensures Find(x, sep) < 0
    decreases |x|
  {
    if |x| >= |sep| {
      assert x[..|sep|][0] == x[0];
      FindNone(x[1..], sep);
    }
  }

  /**
   * Splitting undoes joining when no part contains the separator's first character:
   * the parts of a generated, comma-separated list read back in order.
   */
  lemma {:induction false} SplitJoin(xs: seq<string>, sep: string)
    requires |sep| > 0 && |xs| >= 1
    requires forall k :: 0 <= k < |xs| ==> sep[0] !in xs[k]
    ensures Split(Join(xs, sep), sep) == xs
  {
    if |xs| == 1 {
      FindNone(xs[0], sep);
    } else {
      var rest := Join(xs[1..], sep);
      var s := xs[0] + sep + rest;
      assert s == xs[0] + (sep + rest);
      assert (sep + rest)[..|sep|] == sep;
      FindAfterPrefix(xs[0], sep + rest, sep);
      assert s[..|xs[0]|] == xs[0];
      assert s[|xs[0]| + |sep|..] == rest;
      SplitJoin(xs[1..], sep);
      assert [xs[0]] + xs[1..] == xs;
    }
  }

  /** `(d + sep + e).split(sep)` gives back `[d, e]` when neither part holds the separator. */
  lemma SplitPair(d: string, e: string, sep: string)
    requires |sep| > 0 && sep[0] !in d && sep[0] !in e
    ensures Split(d + sep + e, sep) == [d, e]
  {
    assert Join([d, e], sep) == d + sep + e by {
      assert [d, e][1..] == [e];
    }
    SplitJoin([d, e], sep);
  }
}
