/** `Array.prototype.filter` and the facts about it that the pages' filters
    and deletions rely on: it keeps exactly the elements that pass, in their
    original order. */
module Seqs {

  /** `s.filter(p)`, folded from the front as JavaScript evaluates it. */
  function Filter<T(==)>(s: seq<T>, p: T -> bool): (r: seq<T>)
    ensures |r| <= |s|
    ensures forall i :: 0 <= i < |r| ==> r[i] in s && p(r[i])
    ensures forall j :: 0 <= j < |s| && p(s[j]) ==> s[j] in r
    decreases |s|
  {
    if |s| == 0 then []
    else if p(s[|s| - 1]) then Filter(s[..|s| - 1], p) + [s[|s| - 1]]
    else Filter(s[..|s| - 1], p)
  }

  /** `r` is laid out in `s` at the strictly increasing positions `idx`. */
  ghost predicate EmbedsAt<T>(r: seq<T>, s: seq<T>, idx: seq<nat>)
  {
    && |idx| == |r|
    && (forall k :: 0 <= k < |idx| ==> idx[k] < |s| && r[k] == s[idx[k]])
    && (forall k, l :: 0 <= k < l < |idx| ==> idx[k] < idx[l])
  }

  /** The positions of `s` whose elements pass `p`, in increasing order. */
  function KeptIndices<T(==)>(s: seq<T>, p: T -> bool): (idx: seq<nat>)
    ensures forall k :: 0 <= k < |idx| ==> idx[k] < |s|
    decreases |s|
  {
    if |s| == 0 then []
    else if p(s[|s| - 1]) then KeptIndices(s[..|s| - 1], p) + [|s| - 1]
    else KeptIndices(s[..|s| - 1], p)
  }

  /** The filtered sequence sits in the original at exactly the positions
      whose elements pass. */
  lemma KeptIndicesSpec<T>(s: seq<T>, p: T -> bool)
    ensures EmbedsAt(Filter(s, p), s, KeptIndices(s, p))
    ensures forall j :: 0 <= j < |s| ==> (j in KeptIndices(s, p) <==> p(s[j]))
  {
    KeptIndicesEmbed(s, p);
    KeptIndicesExact(s, p);
  }

  lemma {:induction false} KeptIndicesEmbed<T>(s: seq<T>, p: T -> bool)
    ensures EmbedsAt(Filter(s, p), s, KeptIndices(s, p))
    decreases |s|
  {
    if |s| > 0 {
      var n := |s| - 1;
      var s' := s[..n];
      KeptIndicesEmbed(s', p);
      var idx', r' := KeptIndices(s', p), Filter(s', p);
      if p(s[n]) {
        var idx, r := idx' + [n], r' + [s[n]];
        assert KeptIndices(s, p) == idx;
        assert Filter(s, p) == r;
        forall k | 0 <= k < |idx|
          ensures idx[k] < |s| && r[k] == s[idx[k]]
        {
          if k < |idx'| {
            assert idx[k] == idx'[k] && r[k] == r'[k] && s'[idx'[k]] == s[idx'[k]];
          }
        }
        forall k, l | 0 <= k < l < |idx|
          ensures idx[k] < idx[l]
        {
          if l < |idx'| {
            assert idx[k] == idx'[k] && idx[l] == idx'[l];
          } else {
            assert idx[k] == idx'[k] < n;
          }
        }
      } else {
        assert KeptIndices(s, p) == idx';
        assert Filter(s, p) == r';
        forall k | 0 <= k < |idx'|
          ensures r'[k] == s[idx'[k]]
        {
          assert s'[idx'[k]] == s[idx'[k]];
        }
      }
    }
  }

  lemma {:induction false} KeptIndicesExact<T>(s: seq<T>, p: T -> bool)
    ensures forall j :: 0 <= j < |s| ==> (j in KeptIndices(s, p) <==> p(s[j]))
    decreases |s|
  {
    if |s| > 0 {
      var n := |s| - 1;
      var s' := s[..n];
      KeptIndicesExact(s', p);
      var idx' := KeptIndices(s', p);
      assert n !in idx';
      forall j | 0 <= j < n
        ensures s'[j] == s[j]
      {
      }
    }
  }

  /** A sequence is its prefix before `k`, its element at `k` and the rest. */
  lemma SplitAround<T>(s: seq<T>, k: nat)
    requires k < |s|
    ensures s == s[..k] + [s[k]] + s[k + 1..]
  {
  }

  /** Replacing the element at `k` keeps the prefix and the rest around it. */
  lemma UpdateAround<T>(s: seq<T>, k: nat, x: T)
    requires k < |s|
    ensures s[k := x] == s[..k] + [x] + s[k + 1..]
  {
  }

  /** Filtering distributes over concatenation. */
  lemma {:induction false} FilterConcat<T>(a: seq<T>, b: seq<T>, p: T -> bool)
    ensures Filter(a + b, p) == Filter(a, p) + Filter(b, p)
    decreases |b|
  {
    if |b| == 0 {
      assert a + b == a;
    } else {
      assert (a + b)[..|a + b| - 1] == a + b[..|b| - 1];
      FilterConcat(a, b[..|b| - 1], p);
    }
  }

  /** When every element passes, filtering changes nothing. */
  lemma {:induction false} FilterKeepsAll<T>(s: seq<T>, p: T -> bool)
    requires forall i :: 0 <= i < |s| ==> p(s[i])
    ensures Filter(s, p) == s
    decreases |s|
  {
    if |s| > 0 {
      FilterKeepsAll(s[..|s| - 1], p);
    }
  }

  /** No two elements of `s` share a key. */
  ghost predicate DistinctBy<T, K>(s: seq<T>, key: T -> K)
  {
    forall i, j :: 0 <= i < j < |s| ==> key(s[i]) != key(s[j])
  }

  /** Filtering keeps keys distinct. */
  lemma FilterKeepsDistinct<T, K>(s: seq<T>, p: T -> bool, key: T -> K)
    requires DistinctBy(s, key)
    ensures DistinctBy(Filter(s, p), key)
  {
    KeptIndicesSpec(s, p);
    var idx := KeptIndices(s, p);
    var r := Filter(s, p);
    forall i, j | 0 <= i < j < |r|
      ensures key(r[i]) != key(r[j])
    {
      assert r[i] == s[idx[i]] && r[j] == s[idx[j]] && idx[i] < idx[j];
    }
  }
}
