/**
  Basis modes as (l, m, n) integer triples and the mode-selection step of the
  linear objectives: `np.intersect1d` of a basis mode list with a requested
  mode list, compared as structured (l, m, n) records, so in lexicographic
  order, returning the common modes (sorted, each once) with the index of the
  first occurrence of each in both lists.
 */
module Modes {
  import opened Common

  datatype Mode = Mode(l: int, m: int, n: int)

  /** Lexicographic order on (l, m, n), the order numpy sorts structured records in. */
  predicate Less(a: Mode, b: Mode) {
    a.l < b.l || (a.l == b.l && (a.m < b.m || (a.m == b.m && a.n < b.n)))
  }

  lemma LessTrichotomy(a: Mode, b: Mode)
    ensures Less(a, b) || a == b || Less(b, a)
    ensures !(Less(a, b) && Less(b, a)) && !Less(a, a)
  {
  }

  predicate StrictlySorted(s: seq<Mode>) {
    forall i, j :: 0 <= i < j < |s| ==> Less(s[i], s[j])
  }

  /** Inserting x into a strictly sorted list that may already hold it. */
  function Insert(s: seq<Mode>, x: Mode): (r: seq<Mode>)
    requires StrictlySorted(s)
    ensures StrictlySorted(r)
    ensures forall y :: y in r <==> y in s || y == x
  {
    if s == [] then [x]
    else if x == s[0] then s
    else if Less(x, s[0]) then [x] + s
    else
      var rest := Insert(s[1..], x);
      assert forall y :: y in s <==> y == s[0] || y in s[1..];
      assert forall y :: y in rest ==> Less(s[0], y) by {
        forall y | y in rest ensures Less(s[0], y) {
          if y != x {
            var i :| 0 <= i < |s[1..]| && s[1..][i] == y;
            assert s[1 + i] == y;
          } else {
            LessTrichotomy(x, s[0]);
          }
        }
      }
      [s[0]] + rest
  }

  /** The distinct values of s in ascending order (`np.unique`). */
  function SortedUnique(s: seq<Mode>): (r: seq<Mode>)
    ensures StrictlySorted(r)
    ensures forall y :: y in r <==> y in s
  {
    if s == [] then []
    else
      var r := Insert(SortedUnique(s[..|s| - 1]), s[|s| - 1]);
      assert s == s[..|s| - 1] + [s[|s| - 1]];
      r
  }

  /** The elements of s that also occur in t, in the order of s. */
  function KeepCommon(s: seq<Mode>, t: seq<Mode>): (r: seq<Mode>)
    ensures forall y :: y in r <==> y in s && y in t
    ensures StrictlySorted(s) ==> StrictlySorted(r)
  {
    if s == [] then []
    else
      var rest := KeepCommon(s[1..], t);
      assert forall y :: y in s <==> y == s[0] || y in s[1..];
      if s[0] in t then
        assert StrictlySorted(s) ==> forall y :: y in rest ==> Less(s[0], y) by {
          if StrictlySorted(s) {
            forall y | y in rest ensures Less(s[0], y) {
              var i :| 0 <= i < |s[1..]| && s[1..][i] == y;
              assert s[1 + i] == y;
            }
          }
        }
        [s[0]] + rest
      else rest
  }

  /** The index of the first occurrence of x in s. */
  function FirstIndex(s: seq<Mode>, x: Mode): (i: nat)
    requires x in s
    ensures i < |s| && s[i] == x
    ensures forall j :: 0 <= j < i ==> s[j] != x
  {
    if s[0] == x then 0 else 1 + FirstIndex(s[1..], x)
  }

  /** What `np.intersect1d(a, b, return_indices=True)` returns. */
  datatype Intersection = Intersection(common: seq<Mode>, aIdx: seq<nat>, bIdx: seq<nat>)

  /**
    The common values of a and b, ascending and each once, with the position
    of the first occurrence of each in a and in b.
   */
  function Intersect1d(a: seq<Mode>, b: seq<Mode>): (r: Intersection)
    ensures forall y :: y in r.common <==> y in a && y in b
    ensures StrictlySorted(r.common)
    ensures |r.aIdx| == |r.common| == |r.bIdx|
    ensures forall k :: 0 <= k < |r.common| ==>
      r.aIdx[k] < |a| && a[r.aIdx[k]] == r.common[k] && r.bIdx[k] < |b| && b[r.bIdx[k]] == r.common[k]
    ensures forall k :: 0 <= k < |r.common| ==> r.aIdx[k] == FirstIndex(a, r.common[k]) && r.bIdx[k] == FirstIndex(b, r.common[k])
  {
    var c := KeepCommon(SortedUnique(a), b);
    Intersection(c, seq(|c|, k requires 0 <= k < |c| => FirstIndex(a, c[k])),
                    seq(|c|, k requires 0 <= k < |c| => FirstIndex(b, c[k])))
  }

  /** Each selected position is selected once: the index lists hold no repeats. */
  lemma IntersectIndicesDistinct(a: seq<Mode>, b: seq<Mode>)
    ensures Distinct(Intersect1d(a, b).aIdx) && Distinct(Intersect1d(a, b).bIdx)
  {
    var r := Intersect1d(a, b);
    forall i, j | 0 <= i < j < |r.common| ensures r.aIdx[i] != r.aIdx[j] && r.bIdx[i] != r.bIdx[j] {
      assert Less(r.common[i], r.common[j]);
      LessTrichotomy(r.common[i], r.common[j]);
    }
  }

  /** No more modes are selected than were asked for, nor than the basis has, when its modes are distinct. */
  lemma IntersectSize(a: seq<Mode>, b: seq<Mode>)
    ensures |Intersect1d(a, b).common| <= |b|
    ensures Distinct(a) ==> |Intersect1d(a, b).common| <= |a|
  {
    var r := Intersect1d(a, b);
    IntersectIndicesDistinct(a, b);
    DistinctIndicesBound(r.bIdx, |b|);
    DistinctIndicesBound(r.aIdx, |a|);
  }

  /** A list of distinct naturals below n has at most n entries. */
  lemma DistinctIndicesBound(s: seq<nat>, n: nat)
    requires Distinct(s) && forall k :: 0 <= k < |s| ==> s[k] < n
    ensures |s| <= n
  {
    var small := set k | 0 <= k < |s| :: s[k];
    InjectiveImage(s);
    SubsetSize(small, Below(n));
  }

  /** The naturals below n. */
  function Below(n: nat): (r: set<nat>)
    ensures forall i: nat :: i in r <==> i < n
    ensures |r| == n
  {
    if n == 0 then {} else Below(n - 1) + {n - 1}
  }

  lemma {:induction false} InjectiveImage(s: seq<nat>)
    requires Distinct(s)
    ensures |set k | 0 <= k < |s| :: s[k]| == |s|
  {
    if s != [] {
      var t := s[..|s| - 1];
      assert Distinct(t);
      InjectiveImage(t);
      assert (set k | 0 <= k < |s| :: s[k]) == (set k | 0 <= k < |t| :: t[k]) + {s[|s| - 1]};
      assert s[|s| - 1] !in (set k | 0 <= k < |t| :: t[k]);
    }
  }

  lemma SubsetSize<T>(a: set<T>, b: set<T>)
    requires a <= b
    ensures |a| <= |b|
  {
    assert b == a + (b - a);
  }
}
