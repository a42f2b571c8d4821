/**
 * The array operations every view composes: `filter`, `map`, removal by
 * position, and counting. Each view's add, toggle and delete is one of these
 * applied to a stored list.
 */
module Seqs {

  /** `s.filter(p)`: the elements of s that satisfy p, in their original order. */
  function Filter<T>(s: seq<T>, p: T -> bool): (r: seq<T>)
    ensures |r| <= |s|
    ensures forall i :: 0 <= i < |r| ==> r[i] in s && p(r[i])
    ensures forall i :: 0 <= i < |s| && p(s[i]) ==> s[i] in r
    decreases |s|
  {
    if |s| == 0 then []
    else if p(s[0]) then [s[0]] + Filter(s[1..], p)
    else Filter(s[1..], p)
  }

  /** `s.map(f)`. */
  function Map<T, U>(s: seq<T>, f: T -> U): (r: seq<U>)
    ensures |r| == |s|
    ensures forall i :: 0 <= i < |s| ==> r[i] == f(s[i])
  {
    seq(|s|, i requires 0 <= i < |s| => f(s[i]))
  }

  /** `s.filter(p).length`. */
  function Count<T>(s: seq<T>, p: T -> bool): (n: nat)
    ensures n <= |s|
  {
    |Filter(s, p)|
  }

  /** A progress percentage: done out of total, and 0 for an empty total. */
  function Percent(done: nat, total: nat): (p: real)
    ensures total == 0 ==> p == 0.0
    ensures done <= total ==> 0.0 <= p <= 100.0
    ensures 0 < total && done == total ==> p == 100.0
  {
    if total > 0 then (done as real / total as real) * 100.0 else 0.0
  }

  /** a can be obtained from b by deleting elements (order is kept). */
  ghost predicate IsSubsequence<T>(a: seq<T>, b: seq<T>)
    decreases |b|
  {
    || |a| == 0
    || (|b| > 0 && ((a[0] == b[0] && IsSubsequence(a[1..], b[1..])) || IsSubsequence(a, b[1..])))
  }

  /** Every element of a subsequence occurs in the sequence. */
  lemma {:induction false} SubsequenceMembers<T>(a: seq<T>, b: seq<T>)
    requires IsSubsequence(a, b)
    ensures forall i :: 0 <= i < |a| ==> a[i] in b
    decreases |b|
  {
    if |a| > 0 {
      if a[0] == b[0] && IsSubsequence(a[1..], b[1..]) {
        SubsequenceMembers(a[1..], b[1..]);
        forall i | 1 <= i < |a|
          ensures a[i] in b
        {
          assert a[i] == a[1..][i - 1];
        }
      } else {
        SubsequenceMembers(a, b[1..]);
      }
    }
  }

  /** A subsequence of a sequence without repeats has no repeats either. */
  lemma {:induction false} SubsequenceOfDistinct<T>(a: seq<T>, b: seq<T>)
    requires IsSubsequence(a, b)
    requires forall i, j :: 0 <= i < j < |b| ==> b[i] != b[j]
    ensures forall i, j :: 0 <= i < j < |a| ==> a[i] != a[j]
    decreases |b|
  {
    if |a| > 0 {
      assert forall i, j :: 0 <= i < j < |b[1..]| ==> b[1..][i] != b[1..][j] by {
        forall i, j | 0 <= i < j < |b[1..]|
          ensures b[1..][i] != b[1..][j]
        {
          assert b[1..][i] == b[i + 1] && b[1..][j] == b[j + 1];
        }
      }
      if a[0] == b[0] && IsSubsequence(a[1..], b[1..]) {
        SubsequenceOfDistinct(a[1..], b[1..]);
        SubsequenceMembers(a[1..], b[1..]);
        forall i, j | 0 <= i < j < |a|
          ensures a[i] != a[j]
        {
          assert a[j] == a[1..][j - 1];
          if i == 0 {
            var m :| 0 <= m < |b[1..]| && b[1..][m] == a[j];
            assert b[m + 1] == a[j];
          } else {
            assert a[i] == a[1..][i - 1];
          }
        }
      } else {
        SubsequenceOfDistinct(a, b[1..]);
      }
    }
  }

  lemma {:induction false} FilterIsSubsequence<T>(s: seq<T>, p: T -> bool)
    ensures IsSubsequence(Filter(s, p), s)
    decreases |s|
  {
    if |s| > 0 {
      FilterIsSubsequence(s[1..], p);
      if p(s[0]) {
        var r := Filter(s, p);
        assert r[0] == s[0] && r[1..] == Filter(s[1..], p);
      }
    }
  }

  lemma {:induction false} FilterConcat<T>(a: seq<T>, b: seq<T>, p: T -> bool)
    ensures Filter(a + b, p) == Filter(a, p) + Filter(b, p)
    decreases |a|
  {
    if |a| == 0 {
      assert a + b == b;
    } else {
      assert (a + b)[0] == a[0] && (a + b)[1..] == a[1..] + b;
      FilterConcat(a[1..], b, p);
    }
  }

  /** Filtering keeps s whole when every element passes. */
  lemma {:induction false} FilterKeepsAll<T>(s: seq<T>, p: T -> bool)
    requires forall i :: 0 <= i < |s| ==> p(s[i])
    ensures Filter(s, p) == s
    decreases |s|
  {
    if |s| > 0 {
      FilterKeepsAll(s[1..], p);
    }
  }

  /** Filtering yields nothing when no element passes. */
  lemma {:induction false} FilterDropsAll<T>(s: seq<T>, p: T -> bool)
    requires forall i :: 0 <= i < |s| ==> !p(s[i])
    ensures Filter(s, p) == []
    decreases |s|
  {
    if |s| > 0 {
      FilterDropsAll(s[1..], p);
    }
  }

  /** Filtering twice with the same predicate is filtering once. */
  lemma FilterIdempotent<T>(s: seq<T>, p: T -> bool)
    ensures Filter(Filter(s, p), p) == Filter(s, p)
  {
    var r := Filter(s, p);
    assert forall i :: 0 <= i < |r| ==> r[i] in r;
    FilterKeepsAll(r, p);
  }

  /**
   * A predicate and its negation split s: together the two filters hold
   * every element of s exactly as often as s does.
   */
  lemma {:induction false} FilterPartition<T>(s: seq<T>, p: T -> bool, q: T -> bool)
    requires forall x :: q(x) == !p(x)
    ensures multiset(Filter(s, p)) + multiset(Filter(s, q)) == multiset(s)
    ensures |Filter(s, p)| + |Filter(s, q)| == |s|
    decreases |s|
  {
    if |s| > 0 {
      FilterPartition(s[1..], p, q);
      assert s == [s[0]] + s[1..];
    }
  }

  /**
   * `s.filter((_, i) => i !== index)` with positions counted from offset:
   * the elements of s whose position differs from index.
   */
  function DropPosition<T>(s: seq<T>, index: int, offset: int): (r: seq<T>)
    decreases |s|
  {
    if |s| == 0 then []
    else if offset == index then DropPosition(s[1..], index, offset + 1)
    else [s[0]] + DropPosition(s[1..], index, offset + 1)
  }

  /** Dropping a position inside s removes exactly that element; any other index changes nothing. */
  lemma {:induction false} DropPositionSpec<T>(s: seq<T>, index: int, offset: int)
    ensures offset <= index < offset + |s| ==>
      DropPosition(s, index, offset) == s[..index - offset] + s[index - offset + 1..]
    ensures !(offset <= index < offset + |s|) ==> DropPosition(s, index, offset) == s
    decreases |s|
  {
    if |s| > 0 {
      DropPositionSpec(s[1..], index, offset + 1);
      if offset < index < offset + |s| {
        assert s[..index - offset] == [s[0]] + s[1..][..index - offset - 1];
        assert s[index - offset + 1..] == s[1..][index - offset..];
      }
    }
  }
}
