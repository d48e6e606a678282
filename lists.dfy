/** `Array.prototype.filter` over immutable sequences, and the facts the
    list editors need about it. */
module Lists {

  /** The elements of `s` that satisfy `keep`, in their original order. */
  function Filter<T>(s: seq<T>, keep: T -> bool): (r: seq<T>)
    ensures |r| <= |s|
    ensures forall i | 0 <= i < |r| :: keep(r[i])
  {
    if |s| == 0 then []
    else (if keep(s[0]) then [s[0]] else []) + Filter(s[1..], keep)
  }

  /** `sub` is `s` with some elements left out and the rest in order. */
  predicate IsSubsequence<T(==)>(sub: seq<T>, s: seq<T>)
    decreases |s|
  {
    if |sub| == 0 then true
    else if |s| == 0 then false
    else if sub[0] == s[0] then IsSubsequence(sub[1..], s[1..])
    else IsSubsequence(sub, s[1..])
  }

  /** Leaving out the first element of a subsequence keeps it a subsequence. */
  lemma {:induction false} SubsequenceDropHead<T>(sub: seq<T>, s: seq<T>)
    requires |sub| > 0 && IsSubsequence(sub, s)
    ensures IsSubsequence(sub[1..], s)
    decreases |s|, 1
  {
    if sub[0] == s[0] {
      SubsequenceExtend(sub[1..], s);
    } else {
      SubsequenceDropHead(sub, s[1..]);
      SubsequenceExtend(sub[1..], s);
    }
  }

  /** A subsequence of the tail of `s` is a subsequence of `s`. */
  lemma {:induction false} SubsequenceExtend<T>(sub: seq<T>, s: seq<T>)
    requires |s| > 0 && IsSubsequence(sub, s[1..])
    ensures IsSubsequence(sub, s)
    decreases |s|, 0
  {
    if |sub| > 0 && sub[0] == s[0] {
      SubsequenceDropHead(sub, s[1..]);
    }
  }

  /** A subsequence lists its elements in the order of the original. */
  lemma {:induction false} SubsequenceOrder<T>(sub: seq<T>, s: seq<T>, i: nat, j: nat)
    requires IsSubsequence(sub, s) && i < j < |sub|
    ensures exists a, b | 0 <= a < b < |s| :: s[a] == sub[i] && s[b] == sub[j]
    decreases |s|
  {
    if sub[0] == s[0] {
      if i == 0 {
        assert sub[1..][j - 1] == sub[j];
        SubsequenceMember(sub[1..], s[1..], j - 1);
        var b :| 0 <= b < |s[1..]| && s[1..][b] == sub[j];
        assert s[0] == sub[i] && s[b + 1] == sub[j];
      } else {
        SubsequenceOrder(sub[1..], s[1..], i - 1, j - 1);
        var a, b :| 0 <= a < b < |s[1..]| && s[1..][a] == sub[1..][i - 1] && s[1..][b] == sub[1..][j - 1];
        assert s[a + 1] == sub[i] && s[b + 1] == sub[j];
      }
    } else {
      SubsequenceOrder(sub, s[1..], i, j);
      var a, b :| 0 <= a < b < |s[1..]| && s[1..][a] == sub[i] && s[1..][b] == sub[j];
      assert s[a + 1] == sub[i] && s[b + 1] == sub[j];
    }
  }

  /** Every element of a subsequence occurs in the original. */
  lemma {:induction false} SubsequenceMember<T>(sub: seq<T>, s: seq<T>, k: nat)
    requires IsSubsequence(sub, s) && k < |sub|
    ensures exists b | 0 <= b < |s| :: s[b] == sub[k]
    decreases |s|
  {
    if sub[0] == s[0] {
      if k == 0 {
        assert s[0] == sub[k];
      } else {
        SubsequenceMember(sub[1..], s[1..], k - 1);
        var b :| 0 <= b < |s[1..]| && s[1..][b] == sub[1..][k - 1];
        assert s[b + 1] == sub[k];
      }
    } else {
      SubsequenceMember(sub, s[1..], k);
      var b :| 0 <= b < |s[1..]| && s[1..][b] == sub[k];
      assert s[b + 1] == sub[k];
    }
  }

  /** Filtering keeps the survivors in their original order. */
  lemma {:induction false} FilterIsSubsequence<T>(s: seq<T>, keep: T -> bool)
    ensures IsSubsequence(Filter(s, keep), s)
  {
    if |s| > 0 {
      FilterIsSubsequence(s[1..], keep);
      if keep(s[0]) {
        assert Filter(s, keep)[1..] == Filter(s[1..], keep);
      } else {
        assert Filter(s, keep) == Filter(s[1..], keep);
        SubsequenceExtend(Filter(s, keep), s);
      }
    }
  }

  /** An element survives exactly when it was there and satisfies `keep`. */
  lemma {:induction false} FilterMembership<T>(s: seq<T>, keep: T -> bool, x: T)
    ensures x in Filter(s, keep) <==> x in s && keep(x)
  {
    if |s| > 0 {
      FilterMembership(s[1..], keep, x);
      assert s == [s[0]] + s[1..];
    }
  }

  /** Filtering a concatenation filters each part. */
  lemma {:induction false} FilterConcat<T>(a: seq<T>, b: seq<T>, keep: T -> bool)
    ensures Filter(a + b, keep) == Filter(a, keep) + Filter(b, keep)
  {
    if |a| == 0 {
      assert a + b == b;
    } else {
      assert (a + b)[1..] == a[1..] + b;
      FilterConcat(a[1..], b, keep);
    }
  }

  /** When every element satisfies `keep`, nothing is removed. */
  lemma {:induction false} FilterKeepsAll<T>(s: seq<T>, keep: T -> bool)
    requires forall i | 0 <= i < |s| :: keep(s[i])
    ensures Filter(s, keep) == s
  {
    if |s| > 0 {
      FilterKeepsAll(s[1..], keep);
    }
  }

  /** Filtering twice with the same test is filtering once. */
  lemma FilterIdempotent<T>(s: seq<T>, keep: T -> bool)
    ensures Filter(Filter(s, keep), keep) == Filter(s, keep)
  {
    FilterKeepsAll(Filter(s, keep), keep);
  }

  /** The kept and the dropped elements together account for all of `s`. */
  lemma {:induction false} FilterPartition<T>(s: seq<T>, keep: T -> bool, drop: T -> bool)
    requires forall x :: drop(x) <==> !keep(x)
    ensures |Filter(s, keep)| + |Filter(s, drop)| == |s|
  {
    if |s| > 0 {
      FilterPartition(s[1..], keep, drop);
    }
  }
}
