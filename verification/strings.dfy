/** Small facts about strings (sequences of characters) used by the string-building parts
    of the model: prefixes, suffixes, occurrences and separator joins. */
module Strings {

  function Min(a: int, b: int): int
  {
    if a <= b then a else b
  }

  predicate StartsWith(s: string, p: string)
  {
    |p| <= |s| && s[..|p|] == p
  }

  predicate EndsWith(s: string, p: string)
  {
    |p| <= |s| && s[|s| - |p|..] == p
  }

  /** `sub` occurs in `s` starting at index `i`. */
  predicate OccursAt(s: string, sub: string, i: int)
  {
    0 <= i && i + |sub| <= |s| && s[i..i + |sub|] == sub
  }

  lemma StartsWithTransitive(s: string, t: string, p: string)
    requires StartsWith(s, t) && StartsWith(t, p)
    ensures StartsWith(s, p)
  {
    assert s[..|p|] == t[..|t|][..|p|];
  }

  lemma EndsWithTransitive(s: string, t: string, p: string)
    requires EndsWith(s, t) && EndsWith(t, p)
    ensures EndsWith(s, p)
  {
    assert s[|s| - |p|..] == s[|s| - |t|..][|t| - |p|..];
  }

  /** The middle of a three-part concatenation occurs right after the first part. */
  lemma OccursInConcat(x: string, mid: string, y: string)
    ensures OccursAt(x + mid + y, mid, |x|)
  {
    assert (x + mid + y)[|x|..|x| + |mid|] == mid;
  }

  lemma OccursInPrefix(p: string, q: string, sub: string, i: int)
    requires OccursAt(p, sub, i)
    ensures OccursAt(p + q, sub, i)
  {
    assert (p + q)[i..i + |sub|] == p[i..i + |sub|];
  }

  lemma EndsWithConcat(x: string, y: string)
    ensures EndsWith(x + y, y)
  {
    assert (x + y)[|x + y| - |y|..] == y;
  }

  /** Text put in front keeps a suffix. */
  lemma EndsWithExtend(p: string, s: string, q: string)
    requires EndsWith(s, q)
    ensures EndsWith(p + s, q)
  {
    assert (p + s)[|p + s| - |q|..] == s[|s| - |q|..];
  }

  /** Text inserted just before a closing suffix: the same as cutting the suffix off, adding
      the text, and closing again. */
  lemma InsertBeforeSuffix(head: string, body: string, sep: string, x: string, close: string)
    ensures var d := head + body + close;
      head + (body + sep + x) + close == d[..|d| - |close|] + sep + x + close
  {
    var d := head + body + close;
    assert d[..|d| - |close|] == head + body;
  }

  /** `sub` occurs somewhere in `s`. */
  predicate IsSliceOf(s: string, sub: string)
  {
    exists i | 0 <= i <= |s| :: OccursAt(s, sub, i)
  }

  /** An occurrence inside an occurrence is an occurrence, at the summed offset. */
  lemma OccursWithin(s: string, t: string, i: int, u: string, j: int)
    requires OccursAt(s, t, i) && OccursAt(t, u, j)
    ensures OccursAt(s, u, i + j)
  {
    forall k | 0 <= k < |u|
      ensures s[i + j + k] == u[k]
    {
      assert s[i + j + k] == s[i..i + |t|][j + k];
    }
  }

  /** A piece of a piece of `s` is a piece of `s`. */
  lemma SliceOfSlice(s: string, t: string, u: string)
    requires IsSliceOf(s, t) && IsSliceOf(t, u)
    ensures IsSliceOf(s, u)
  {
    var i :| 0 <= i <= |s| && OccursAt(s, t, i);
    var j :| 0 <= j <= |t| && OccursAt(t, u, j);
    OccursWithin(s, t, i, u, j);
  }

  /** The concatenation of `parts` with `sep` between consecutive parts
      (Python's `sep.join(parts)`, JavaScript's `parts.join(sep)`). */
  function Join(sep: string, parts: seq<string>): (r: string)
    ensures |parts| == 0 ==> r == []
    ensures |parts| > 0 ==> StartsWith(r, parts[0])
    ensures |parts| > 0 ==> EndsWith(r, parts[|parts| - 1])
    decreases |parts|
  {
    if |parts| == 0 then []
    else if |parts| == 1 then parts[0]
    else parts[0] + sep + Join(sep, parts[1..])
  }

  /** Appending one part extends the joined string by the separator and that part. */
  lemma {:induction false} JoinSnoc(sep: string, parts: seq<string>, last: string)
    requires |parts| > 0
    ensures Join(sep, parts + [last]) == Join(sep, parts) + sep + last
    decreases |parts|
  {
    if |parts| == 1 {
      assert parts + [last] == [parts[0], last];
      assert Join(sep, [last]) == last;
    } else {
      assert (parts + [last])[1..] == parts[1..] + [last];
      JoinSnoc(sep, parts[1..], last);
    }
  }
}
