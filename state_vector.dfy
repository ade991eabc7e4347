/**
  Layout of the optimisation state vector x of an ObjectiveFunction: the
  arguments in use, in the fixed global argument order, each owning one
  contiguous block of x whose length is the size of that argument in the
  equilibrium.
 */
module StateVector {
  import opened Common

  /** The arguments of `order` that some objective uses, in the order of `order`. */
  function SelectArgs(order: seq<string>, used: set<string>): (r: seq<string>)
    ensures forall a :: a in r <==> a in order && a in used
    ensures |r| <= |order|
    ensures Distinct(order) ==> Distinct(r)
    ensures InOrder(r, order)
  {
    if order == [] then []
    else
      var rest := SelectArgs(order[1..], used);
      assert forall a :: a in order <==> a == order[0] || a in order[1..];
      if order[0] in used then
        var r := [order[0]] + rest;
        forall i, j | 0 <= i < j < |r|
          ensures exists p, q :: 0 <= p < q < |order| && order[p] == r[i] && order[q] == r[j]
        {
          if i == 0 {
            assert rest[j - 1] in rest;
            var q :| 0 <= q < |order[1..]| && order[1..][q] == rest[j - 1];
            assert order[q + 1] == r[j];
          } else {
            var p, q :| 0 <= p < q < |order[1..]| && order[1..][p] == rest[i - 1] && order[1..][q] == rest[j - 1];
            assert order[p + 1] == r[i] && order[q + 1] == r[j];
          }
        }
        r
      else
        forall i, j | 0 <= i < j < |rest|
          ensures exists p, q :: 0 <= p < q < |order| && order[p] == rest[i] && order[q] == rest[j]
        {
          var p, q :| 0 <= p < q < |order[1..]| && order[1..][p] == rest[i] && order[1..][q] == rest[j];
          assert order[p + 1] == rest[i] && order[q + 1] == rest[j];
        }
        rest
  }

  /** Any two entries of r appear in `order` in the same relative order: r keeps the order of `order`. */
  predicate InOrder(r: seq<string>, order: seq<string>) {
    forall i, j :: 0 <= i < j < |r| ==>
      exists p, q :: 0 <= p < q < |order| && order[p] == r[i] && order[q] == r[j]
  }

  /** Offset of block k: the sum of the lengths of the blocks before it. */
  function Start(dims: seq<nat>, k: nat): nat
    requires k <= |dims|
  {
    if k == 0 then 0 else dims[0] + Start(dims[1..], k - 1)
  }

  /** The length of the whole state vector. */
  function Total(dims: seq<nat>): nat {
    Start(dims, |dims|)
  }

  lemma {:induction false} StartMonotone(dims: seq<nat>, i: nat, j: nat)
    requires i < j <= |dims|
    ensures Start(dims, i) + dims[i] <= Start(dims, j)
  {
    if i > 0 {
      StartMonotone(dims[1..], i - 1, j - 1);
    } else if j > 1 {
      StartMonotone(dims[1..], 0, j - 1);
    }
  }

  /** The block that holds position p of the state vector. */
  function Owner(dims: seq<nat>, p: nat): (k: nat)
    requires p < Total(dims)
    ensures k < |dims| && Start(dims, k) <= p < Start(dims, k + 1)
  {
    if p < dims[0] then 0 else 1 + Owner(dims[1..], p - dims[0])
  }

  /** Blocks do not overlap: a position lies in one block only. */
  lemma BlocksDisjoint(dims: seq<nat>, p: nat, k: nat, k': nat)
    requires k < |dims| && Start(dims, k) <= p < Start(dims, k + 1)
    requires k' < |dims| && Start(dims, k') <= p < Start(dims, k' + 1)
    ensures k == k'
  {
    if k < k' {
      StartMonotone(dims, k + 1, k');
    } else if k' < k {
      StartMonotone(dims, k' + 1, k);
    }
  }

  function Lengths(parts: seq<seq<real>>): (r: seq<nat>)
    ensures |r| == |parts| && forall k :: 0 <= k < |parts| ==> r[k] == |parts[k]|
  {
    seq(|parts|, k requires 0 <= k < |parts| => |parts[k]|)
  }

  /** `np.concatenate(parts)`. */
  function Concat(parts: seq<seq<real>>): (r: seq<real>)
    ensures |r| == Total(Lengths(parts))
  {
    if parts == [] then []
    else
      assert Lengths(parts[1..]) == Lengths(parts)[1..];
      parts[0] + Concat(parts[1..])
  }

  /** Block k + 1 starts where block k ends: the blocks are laid out back to back. */
  lemma {:induction false} StartStep(dims: seq<nat>, k: nat)
    requires k < |dims|
    ensures Start(dims, k + 1) == Start(dims, k) + dims[k]
  {
    if k > 0 {
      StartStep(dims[1..], k - 1);
    }
  }

  /** Block k starts dims[k] before block k + 1 and ends within the vector. */
  lemma StartWithin(dims: seq<nat>, k: nat)
    requires k < |dims|
    ensures Start(dims, k) + dims[k] == Start(dims, k + 1) <= Total(dims)
  {
    StartStep(dims, k);
    if k + 1 < |dims| {
      StartMonotone(dims, k + 1, |dims|);
    }
  }

  /** Block k of a state vector x laid out by `dims`: `x[Start(k):Start(k + 1)]`. */
  function Block(x: seq<real>, dims: seq<nat>, k: nat): (r: seq<real>)
    requires |x| == Total(dims) && k < |dims|
    ensures |r| == dims[k]
  {
    StartWithin(dims, k);
    x[Start(dims, k)..Start(dims, k + 1)]
  }

  /**
    Packing the blocks and slicing block k back out returns block k unchanged:
    unpacking the packed vector is the identity.
   */
  lemma ConcatBlock(parts: seq<seq<real>>, k: nat)
    requires k < |parts|
    ensures Start(Lengths(parts), k) + |parts[k]| == Start(Lengths(parts), k + 1) <= |Concat(parts)|
    ensures Block(Concat(parts), Lengths(parts), k) == parts[k]
  {
    StartWithin(Lengths(parts), k);
    ConcatSlice(parts, k);
  }

  /** Part k sits in the concatenation at the offset of block k. */
  lemma {:induction false} ConcatSlice(parts: seq<seq<real>>, k: nat)
    requires k < |parts|
    ensures Start(Lengths(parts), k) + |parts[k]| <= |Concat(parts)|
    ensures Concat(parts)[Start(Lengths(parts), k)..Start(Lengths(parts), k) + |parts[k]|] == parts[k]
  {
    var ls, ts := Lengths(parts), Lengths(parts[1..]);
    var c := Concat(parts[1..]);
    assert Concat(parts) == parts[0] + c;
    if k == 0 {
      assert (parts[0] + c)[..|parts[0]|] == parts[0];
    } else {
      ConcatSlice(parts[1..], k - 1);
      assert ts == ls[1..];
      var lo := Start(ts, k - 1);
      assert Start(ls, k) == |parts[0]| + lo;
      SliceAfterPrefix(parts[0], c, lo, lo + |parts[k]|);
    }
  }

  lemma SliceAfterPrefix(a: seq<real>, c: seq<real>, lo: nat, hi: nat)
    requires lo <= hi <= |c|
    ensures (a + c)[|a| + lo..|a| + hi] == c[lo..hi]
  {
    forall i | 0 <= i < hi - lo
      ensures (a + c)[|a| + lo..|a| + hi][i] == c[lo..hi][i]
    {
      assert (a + c)[|a| + lo + i] == c[lo + i];
    }
  }

  /** The indices of block k: `arange(Start(k), Start(k + 1))`. */
  function BlockIndices(dims: seq<nat>, k: nat): (r: seq<int>)
    requires k < |dims|
    ensures |r| == dims[k] && forall j :: 0 <= j < dims[k] ==> r[j] == Start(dims, k) + j
  {
    seq(dims[k], j => Start(dims, k) + j)
  }

  lemma {:induction false} ConcatSnoc(parts: seq<seq<real>>, p: seq<real>)
    ensures Concat(parts + [p]) == Concat(parts) + p
  {
    if parts != [] {
      assert (parts + [p])[1..] == parts[1..] + [p];
      ConcatSnoc(parts[1..], p);
    } else {
      assert Concat([p]) == p + Concat([]);
    }
  }

  /** Fancy indexing x with the indices of block k reads exactly block k. */
  lemma TakeBlock(x: seq<real>, dims: seq<nat>, k: nat)
    requires |x| == Total(dims) && k < |dims|
    ensures Take(x, BlockIndices(dims, k)) == Ok(Block(x, dims, k))
  {
    StartWithin(dims, k);
    var r := Take(x, BlockIndices(dims, k));
    assert r.Ok?;
    assert r.value == Block(x, dims, k);
  }

  /** The dictionary mapping each of the first k names to its block of x. */
  function UnpackBlocks(names: seq<string>, dims: seq<nat>, x: seq<real>, k: nat): (kw: map<string, seq<real>>)
    requires |names| == |dims| && |x| == Total(dims) && k <= |names|
    ensures forall a :: a in kw <==> a in names[..k]
    ensures Distinct(names) ==> forall i :: 0 <= i < k ==> kw[names[i]] == Block(x, dims, i)
  {
    if k == 0 then map[]
    else
      assert names[..k] == names[..k - 1] + [names[k - 1]];
      UnpackBlocks(names, dims, x, k - 1)[names[k - 1] := Block(x, dims, k - 1)]
  }
}
