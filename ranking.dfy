/**
 * `analyzed_jobs.sort(key=lambda x: x['quality_score'], reverse=True)`:
 * a stable sort by quality score, highest first. `SortedByScore` is the
 * specification as a function on sequences; `SortByScoreInPlace` sorts an
 * array in place and is proved to agree with it.
 */
module Ranking {
  import opened Jobs

  /** `x` placed after every element of `t` that scores strictly higher. */
  function Insert(x: AnalyzedJob, t: seq<AnalyzedJob>): seq<AnalyzedJob>
  {
    if t == [] || t[0].qualityScore <= x.qualityScore then [x] + t
    else [t[0]] + Insert(x, t[1..])
  }

  /** The stable descending sort of `s` by quality score. */
  function SortedByScore(s: seq<AnalyzedJob>): seq<AnalyzedJob>
  {
    if s == [] then [] else Insert(s[0], SortedByScore(s[1..]))
  }

  ghost predicate Descending(s: seq<AnalyzedJob>)
  {
    forall i, j :: 0 <= i < j < |s| ==> s[i].qualityScore >= s[j].qualityScore
  }

  /** The elements of `s` whose score is `v`, in order. */
  function WithScore(s: seq<AnalyzedJob>, v: int): seq<AnalyzedJob>
  {
    if s == [] then [] else (if s[0].qualityScore == v then [s[0]] else []) + WithScore(s[1..], v)
  }

  lemma {:induction false} InsertIsPermutation(x: AnalyzedJob, t: seq<AnalyzedJob>)
    ensures multiset(Insert(x, t)) == multiset(t) + multiset{x}
    decreases |t|
  {
    if t == [] || t[0].qualityScore <= x.qualityScore {
    } else {
      InsertIsPermutation(x, t[1..]);
      assert t == [t[0]] + t[1..];
    }
  }

  lemma {:induction false} InsertKeepsDescending(x: AnalyzedJob, t: seq<AnalyzedJob>)
    requires Descending(t)
    ensures Descending(Insert(x, t))
    decreases |t|
  {
    if t == [] || t[0].qualityScore <= x.qualityScore {
    } else {
      var r := Insert(x, t[1..]);
      InsertKeepsDescending(x, t[1..]);
      InsertIsPermutation(x, t[1..]);
      assert Insert(x, t) == [t[0]] + r;
      forall e | e in r
        ensures e.qualityScore <= t[0].qualityScore
      {
        assert e in multiset(r);
        if e != x {
          assert e in multiset(t[1..]);
          var m :| 0 <= m < |t[1..]| && t[1..][m] == e;
          assert t[m + 1] == e;
        }
      }
    }
  }

  lemma {:induction false} InsertWithScore(x: AnalyzedJob, t: seq<AnalyzedJob>, v: int)
    ensures WithScore(Insert(x, t), v) == (if x.qualityScore == v then [x] else []) + WithScore(t, v)
    decreases |t|
  {
    if t == [] || t[0].qualityScore <= x.qualityScore {
      assert Insert(x, t) == [x] + t;
      assert ([x] + t)[0] == x && ([x] + t)[1..] == t;
    } else {
      var r := Insert(x, t[1..]);
      InsertWithScore(x, t[1..], v);
      assert Insert(x, t) == [t[0]] + r;
      assert ([t[0]] + r)[0] == t[0] && ([t[0]] + r)[1..] == r;
      var head := if t[0].qualityScore == v then [t[0]] else [];
      assert WithScore(t, v) == head + WithScore(t[1..], v);
      assert WithScore(Insert(x, t), v) == head + WithScore(r, v);
      // x goes after t[0], which scores higher, so the two never share a score
      if x.qualityScore == v {
        assert head == [];
      }
    }
  }

  /** The result is ordered by score, highest first. */
  lemma {:induction false} SortedByScoreIsDescending(s: seq<AnalyzedJob>)
    ensures Descending(SortedByScore(s))
    decreases |s|
  {
    if s != [] {
      SortedByScoreIsDescending(s[1..]);
      InsertKeepsDescending(s[0], SortedByScore(s[1..]));
    }
  }

  /** The result is a permutation of the input. */
  lemma {:induction false} SortedByScoreIsPermutation(s: seq<AnalyzedJob>)
    ensures multiset(SortedByScore(s)) == multiset(s)
    decreases |s|
  {
    if s != [] {
      SortedByScoreIsPermutation(s[1..]);
      InsertIsPermutation(s[0], SortedByScore(s[1..]));
      assert s == [s[0]] + s[1..];
    }
  }

  /** The sort is stable: the elements sharing any one score keep their input order. */
  lemma {:induction false} SortedByScoreIsStable(s: seq<AnalyzedJob>, v: int)
    ensures WithScore(SortedByScore(s), v) == WithScore(s, v)
    decreases |s|
  {
    if s != [] {
      SortedByScoreIsStable(s[1..], v);
      InsertWithScore(s[0], SortedByScore(s[1..]), v);
    }
  }

  /** A list already in descending order is left exactly as it is. */
  lemma {:induction false} SortedByScoreKeepsDescending(s: seq<AnalyzedJob>)
    requires Descending(s)
    ensures SortedByScore(s) == s
    decreases |s|
  {
    if s != [] {
      SortedByScoreKeepsDescending(s[1..]);
      assert s == [s[0]] + s[1..];
    }
  }

  /** Sorting twice gives the same order as sorting once. */
  lemma SortedByScoreIsIdempotent(s: seq<AnalyzedJob>)
    ensures SortedByScore(SortedByScore(s)) == SortedByScore(s)
  {
    SortedByScoreIsDescending(s);
    SortedByScoreKeepsDescending(SortedByScore(s));
  }

  /** Inserting `x` into `t` puts it right after the first `k` elements when exactly those score higher. */
  lemma {:induction false} InsertAt(x: AnalyzedJob, t: seq<AnalyzedJob>, k: nat)
    requires k <= |t|
    requires forall m :: 0 <= m < k ==> t[m].qualityScore > x.qualityScore
    requires k < |t| ==> t[k].qualityScore <= x.qualityScore
    ensures Insert(x, t) == t[..k] + [x] + t[k..]
    decreases k
  {
    if k > 0 {
      InsertAt(x, t[1..], k - 1);
      assert t[1..][..k - 1] == t[1..k];
      assert t[1..][k - 1..] == t[k..];
      assert t[..k] == [t[0]] + t[1..k];
    }
  }

  /** Moves `a[i]` right past the higher-scoring elements of `a[i + 1..]`, shifting them left by one. */
  method SiftRight(a: array<AnalyzedJob>, i: nat)
    requires i < a.Length
    modifies a
    ensures a[..i] == old(a[..i])
    ensures a[i..] == Insert(old(a[i]), old(a[i + 1..]))
  {
    var x := a[i];
    ghost var t := a[i + 1..];
    var j := i;
    while j + 1 < a.Length && a[j + 1].qualityScore > x.qualityScore
      invariant i <= j < a.Length
      invariant forall m :: 0 <= m < i ==> a[m] == old(a[m])
      invariant forall m :: i <= m < j ==> a[m] == t[m - i]
      invariant forall m :: j < m < a.Length ==> a[m] == t[m - i - 1]
      invariant forall m :: 0 <= m < j - i ==> t[m].qualityScore > x.qualityScore
    {
      a[j] := a[j + 1];
      j := j + 1;
    }
    a[j] := x;
    InsertAt(x, t, j - i);
    SplicedSuffix(a[..], i, t, x, j - i);
  }

  /** A sequence whose suffix from `i` is `t` with `x` spliced in at position `k`, written out element by element. */
  lemma SplicedSuffix(b: seq<AnalyzedJob>, i: nat, t: seq<AnalyzedJob>, x: AnalyzedJob, k: nat)
    requires k <= |t| && |b| == i + |t| + 1
    requires forall m :: i <= m < i + k ==> b[m] == t[m - i]
    requires b[i + k] == x
    requires forall m :: i + k < m < |b| ==> b[m] == t[m - i - 1]
    ensures b[i..] == t[..k] + [x] + t[k..]
  {
    forall m | 0 <= m < |b| - i
      ensures b[i..][m] == (t[..k] + [x] + t[k..])[m]
    {
      if m < k {
        assert b[i + m] == t[m];
      } else if m > k {
        assert b[i + m] == t[m - 1];
      }
    }
  }

  /** Insertion sort from the back: each element moves right past the higher-scoring ones of the sorted suffix. */
  method SortByScoreInPlace(a: array<AnalyzedJob>)
    modifies a
    ensures a[..] == SortedByScore(old(a[..]))
  {
    ghost var s := a[..];
    var i := a.Length;
    while i > 0
      invariant 0 <= i <= a.Length
      invariant a[..i] == s[..i]
      invariant a[i..] == SortedByScore(s[i..])
    {
      i := i - 1;
      assert s[i..] == [s[i]] + s[i + 1..];
      SiftRight(a, i);
    }
  }
}
