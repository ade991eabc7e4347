/**
  `ObjectiveFunction`: a list of objectives sharing one state vector x. Building
  it sums the members' dimensions, decides whether it is scalar, and lays out x:
  every argument some member uses, in the global argument order, gets one
  contiguous block whose length is that argument's size in the equilibrium.
 */
module ObjectiveFunctions {
  import opened Common
  import opened StateVector
  import opened Objectives

  /**
    One member objective, as the objective function sees it once the member
    is built: the names of its compute arguments, its number of residuals and
    its `compute_scaled`, which takes one array per argument, in that order.
   */
  datatype Member = Member(args: seq<string>, dimF: nat, scaled: seq<seq<real>> -> seq<real>)

  /** Every argument name used by some member. */
  function UsedArgs(members: seq<Member>): set<string> {
    if members == [] then {} else (set a | a in members[0].args) + UsedArgs(members[1..])
  }

  /** An argument is in use exactly when some member takes it. */
  lemma {:induction false} UsedArgsMembers(members: seq<Member>, a: string)
    ensures a in UsedArgs(members) <==> exists i :: 0 <= i < |members| && a in members[i].args
  {
    if members != [] {
      UsedArgsMembers(members[1..], a);
      assert forall i :: 1 <= i < |members| ==> members[i] == members[1..][i - 1];
    }
  }

  /** The total number of residuals of the members. */
  function TotalDimF(members: seq<Member>): nat {
    if members == [] then 0 else members[0].dimF + TotalDimF(members[1..])
  }

  /** The compilation modes of `compile`. */
  datatype CompileMode = Auto | Lsq | ScalarMode | All

  /** "auto" becomes "scalar" for a scalar objective and "lsq" otherwise. */
  function ResolveMode(mode: CompileMode, scalar: bool): (r: CompileMode)
    ensures r != Auto
    ensures mode != Auto ==> r == mode
    ensures mode == Auto ==> (r == ScalarMode <==> scalar) && (r == Lsq <==> !scalar)
  {
    if mode == Auto && scalar then ScalarMode
    else if mode == Auto then Lsq
    else mode
  }

  /** A length-d block filled from a value of length d, or of length 1 (broadcast). */
  predicate Fits(v: seq<real>, d: nat) { |v| == d || |v| == 1 }

  function Fill(v: seq<real>, d: nat): (r: seq<real>)
    requires Fits(v, d)
    ensures |r| == d
    ensures forall j :: 0 <= j < d ==> r[j] == Bcast(v, j)
  {
    if |v| == d then v else seq(d, _ => v[0])
  }

  /** The block lengths of x: the size of each argument in use, in order. */
  function BlockLengths(args: seq<string>, sizes: map<string, nat>): (ds: seq<nat>)
    requires forall a :: a in args ==> a in sizes
    ensures |ds| == |args| && forall k :: 0 <= k < |args| ==> ds[k] == sizes[args[k]]
  {
    seq(|args|, k requires 0 <= k < |args| => sizes[args[k]])
  }

  /**
    The index blocks of `_set_state_vector`: each name in turn gets the next
    `sizes[name]` positions of x, so the blocks tile [0, total).
   */
  method LayOut(names: seq<string>, sizes: map<string, nat>) returns (total: nat, idx: map<string, seq<int>>)
    requires forall a :: a in names ==> a in sizes
    ensures total == Total(BlockLengths(names, sizes))
    ensures Distinct(names) ==>
      forall k :: 0 <= k < |names| ==> names[k] in idx && idx[names[k]] == BlockIndices(BlockLengths(names, sizes), k)
  {
    ghost var ds := BlockLengths(names, sizes);
    total, idx := 0, map[];
    var k := 0;
    while k < |names|
      invariant 0 <= k <= |names|
      invariant total == Start(ds, k)
      invariant Distinct(names) ==>
        forall i :: 0 <= i < k ==> names[i] in idx && idx[names[i]] == BlockIndices(ds, i)
    {
      StartStep(ds, k);
      idx := idx[names[k] := Range(total, total + sizes[names[k]])];
      total := total + sizes[names[k]];
      k := k + 1;
    }
  }

  /** Every member finds all of its arguments in `kwargs`. */
  predicate Covered(members: seq<Member>, kwargs: map<string, seq<real>>) {
    forall i :: 0 <= i < |members| ==> forall a :: a in members[i].args ==> a in kwargs
  }

  lemma CoveredPrefix(members: seq<Member>, kwargs: map<string, seq<real>>, n: nat)
    requires Covered(members, kwargs) && n <= |members|
    ensures Covered(members[..n], kwargs)
  {
    assert forall i :: 0 <= i < n ==> members[..n][i] == members[i];
  }

  /** The stacked scaled residuals of the members for the unpacked arguments `kwargs`. */
  function Residuals(members: seq<Member>, kwargs: map<string, seq<real>>): seq<real>
    requires Covered(members, kwargs)
  {
    if members == [] then []
    else
      var n := |members| - 1;
      CoveredPrefix(members, kwargs, n);
      Residuals(members[..n], kwargs) + members[n].scaled(ArgsOf(kwargs, members[n].args))
  }

  /** The loop of `compute`: each member's scaled residual, appended in member order. */
  method StackResiduals(members: seq<Member>, kwargs: map<string, seq<real>>) returns (f: seq<real>)
    requires Covered(members, kwargs)
    ensures f == Residuals(members, kwargs)
  {
    f := [];
    var i := 0;
    while i < |members|
      invariant 0 <= i <= |members|
      invariant Covered(members[..i], kwargs)
      invariant f == Residuals(members[..i], kwargs)
    {
      CoveredPrefix(members, kwargs, i + 1);
      assert members[..i + 1][..i] == members[..i];
      f := f + members[i].scaled(ArgsOf(kwargs, members[i].args));
      i := i + 1;
    }
    assert members[..|members|] == members;
  }

  class ObjectiveFunction {
    /** The global argument order of the compute functions (`arg_order`). */
    const argOrder: seq<string>
    const members: seq<Member>
    var useJit: bool
    var built: bool
    var compiled: bool
    var compileMode: Option<CompileMode>
    var dimF: nat
    var scalar: bool
    var args: seq<string>
    var dimensions: map<string, nat>
    var dimX: nat
    var xIdx: map<string, seq<int>>

    /** The argument order has no repeats and every member argument is a state argument. */
    ghost predicate Wellformed()
      reads this
    {
      && Distinct(argOrder)
      && (forall i :: 0 <= i < |members| ==> forall a :: a in members[i].args ==> a in argOrder)
    }

    /** Block k of x is the index range [Start(k), Start(k + 1)) of the argument args[k]. */
    ghost predicate LaidOut()
      reads this
    {
      && args == SelectArgs(argOrder, UsedArgs(members))
      && (forall a :: a in args ==> a in dimensions)
      && dimX == Total(BlockLengths(args, dimensions))
      && (forall k :: 0 <= k < |args| ==>
            args[k] in xIdx && xIdx[args[k]] == BlockIndices(BlockLengths(args, dimensions), k))
    }

    ghost predicate Valid()
      reads this
    {
      && Wellformed()
      && (built ==> |members| > 0 && LaidOut() && dimF == TotalDimF(members) && scalar == (dimF == 1))
    }

    constructor(argOrder: seq<string>, members: seq<Member>, useJit: bool)
      requires Distinct(argOrder)
      requires forall i :: 0 <= i < |members| ==> forall a :: a in members[i].args ==> a in argOrder
      ensures Valid()
      ensures this.argOrder == argOrder && this.members == members && this.useJit == useJit
      ensures !built && !compiled
    {
      this.argOrder := argOrder;
      this.members := members;
      this.useJit := useJit;
      built := false;
      compiled := false;
      compileMode := None;
      dimF := 0;
      scalar := false;
      args := [];
      dimensions := map[];
      dimX := 0;
      xIdx := map[];
    }

    /**
      `_set_state_vector`: the arguments in use, their sizes (taken from the
      equilibrium) and the index block of each. No member at all is a
      ValueError (nothing to concatenate).
     */
    method SetStateVector(sizes: map<string, nat>) returns (o: Outcome)
      requires Wellformed()
      requires forall a :: a in argOrder ==> a in sizes
      modifies this
      ensures o.Pass? <==> |members| > 0
      ensures o.Fail? ==> o.error == ValueError && unchanged(this)
      ensures o.Pass? ==> LaidOut() && dimensions == sizes
      ensures built == old(built) && dimF == old(dimF) && scalar == old(scalar)
      ensures compiled == old(compiled) && compileMode == old(compileMode) && useJit == old(useJit)
    {
      if members == [] {
        return Fail(ValueError);
      }
      var names := SelectArgs(argOrder, UsedArgs(members));
      var total, idx := LayOut(names, sizes);
      args, dimensions, dimX, xIdx := names, sizes, total, idx;
      return Pass;
    }

    /**
      `build`: the members are built against the equilibrium first (their
      resulting sizes are the `dimF` of each member); then the total dimension,
      the scalar flag and the state-vector layout are set and the function is
      marked built.
     */
    method Build(sizes: map<string, nat>) returns (o: Outcome)
      requires Valid()
      requires forall a :: a in argOrder ==> a in sizes
      modifies this
      ensures Valid()
      ensures dimF == TotalDimF(members) && scalar == (dimF == 1)
      ensures o.Pass? <==> |members| > 0
      ensures o.Fail? ==> o.error == ValueError && !built
      ensures o.Pass? ==> built && dimensions == sizes
      ensures compiled == old(compiled) && compileMode == old(compileMode)
    {
      var total := 0;
      var i := 0;
      while i < |members|
        invariant 0 <= i <= |members|
        invariant total + TotalDimF(members[i..]) == TotalDimF(members)
      {
        assert members[i..][1..] == members[i + 1..];
        total := total + members[i].dimF;
        i := i + 1;
      }
      dimF := total;
      scalar := dimF == 1;
      o := SetStateVector(sizes);
      if o.Pass? {
        built := true;
      }
    }

    /** The `dim_x` property: RuntimeError before build. */
    function DimX(): (r: Result<nat>)
      reads this
      ensures r.Ok? <==> built
      ensures r.Err? ==> r.error == RuntimeError
      ensures r.Ok? && Valid() ==> r.value == Total(BlockLengths(args, dimensions))
    {
      if built then Ok(dimX) else Err(RuntimeError)
    }

    /** The `dim_f` property: RuntimeError before build. */
    function DimF(): (r: Result<nat>)
      reads this
      ensures r.Ok? <==> built
      ensures r.Err? ==> r.error == RuntimeError
      ensures r.Ok? && Valid() ==> r.value == TotalDimF(members)
    {
      if built then Ok(dimF) else Err(RuntimeError)
    }

    /** The `scalar` property: RuntimeError before build; otherwise whether there is exactly one residual. */
    function Scalar(): (r: Result<bool>)
      reads this
      ensures r.Ok? <==> built
      ensures r.Err? ==> r.error == RuntimeError
      ensures r.Ok? && Valid() ==> (r.value <==> TotalDimF(members) == 1)
    {
      if built then Ok(scalar) else Err(RuntimeError)
    }

    /** The arguments of a state vector x: argument args[k] gets block k of x. */
    ghost function Unpacked(x: seq<real>): (kw: map<string, seq<real>>)
      reads this
      requires Valid() && built && |x| == dimX
      ensures forall a :: a in kw <==> a in args
      ensures forall k :: 0 <= k < |args| ==> kw[args[k]] == Block(x, BlockLengths(args, dimensions), k)
    {
      assert args[..|args|] == args;
      UnpackBlocks(args, BlockLengths(args, dimensions), x, |args|)
    }

    /**
      `unpack_state`: split x into one array per argument, block by block.
      RuntimeError before build, ValueError when x does not have dim_x entries.
     */
    method UnpackState(x: seq<real>) returns (r: Result<map<string, seq<real>>>)
      requires Valid()
      ensures !built ==> r == Err(RuntimeError)
      ensures built && |x| != dimX ==> r == Err(ValueError)
      ensures built && |x| == dimX ==> r.Ok? && r.value == Unpacked(x)
    {
      if !built {
        return Err(RuntimeError);
      }
      if |x| != dimX {
        return Err(ValueError);
      }
      var names, idx := args, xIdx;
      var ds := BlockLengths(names, dimensions);
      var kwargs: map<string, seq<real>> := map[];
      var k := 0;
      while k < |names|
        invariant 0 <= k <= |names|
        invariant kwargs == UnpackBlocks(names, ds, x, k)
      {
        var a := names[k];
        var block := Take(x, idx[a]);
        TakeBlock(x, ds, k);
        kwargs := kwargs[a := block.value];
        k := k + 1;
      }
      return Ok(kwargs);
    }

    /** The state vector that packs the equilibrium values of the arguments, block by block. */
    ghost function Packed(eq: map<string, seq<real>>): seq<real>
      reads this
      requires Valid() && built
      requires forall a :: a in args ==> a in eq
      requires forall k :: 0 <= k < |args| ==> Fits(eq[args[k]], BlockLengths(args, dimensions)[k])
    {
      var names := args;
      PackedBlocks(seq(|names|, k requires 0 <= k < |names| => eq[names[k]]), BlockLengths(names, dimensions))
    }

    /**
      `x`: the state vector of an equilibrium. Each argument's value is written
      into its block (a single value is repeated over the block); a value of any
      other size cannot broadcast and is a ValueError. RuntimeError before build.
     */
    method X(eq: map<string, seq<real>>) returns (r: Result<seq<real>>)
      requires Valid()
      requires forall a :: a in argOrder ==> a in eq
      ensures !built ==> r == Err(RuntimeError)
      ensures built ==> (r.Ok? <==> forall k :: 0 <= k < |args| ==> Fits(eq[args[k]], BlockLengths(args, dimensions)[k]))
      ensures r.Err? && built ==> r.error == ValueError
      ensures r.Ok? ==> |r.value| == dimX && r.value == Packed(eq)
    {
      if !built {
        return Err(RuntimeError);
      }
      var names := args;
      forall a | a in names ensures a in eq {
        UsedArgsSelected(a);
      }
      var sizes, idx := dimensions, xIdx;
      var vals := seq(|names|, k requires 0 <= k < |names| => eq[names[k]]);
      var ds := BlockLengths(names, sizes);
      r := PackState(vals, ds, seq(|names|, k requires 0 <= k < |names| => idx[names[k]]), dimX);
    }

    lemma UsedArgsSelected(a: string)
      requires Valid() && built && a in args
      ensures a in argOrder
    {
    }

    /**
      Unpacking the state vector of an equilibrium gives back each argument's
      value (repeated over its block when it was a single value).
     */
    lemma UnpackPacked(eq: map<string, seq<real>>)
      requires Valid() && built
      requires forall a :: a in args ==> a in eq
      requires forall k :: 0 <= k < |args| ==> Fits(eq[args[k]], BlockLengths(args, dimensions)[k])
      ensures |Packed(eq)| == dimX
      ensures forall k :: 0 <= k < |args| ==>
        Unpacked(Packed(eq))[args[k]] == Fill(eq[args[k]], BlockLengths(args, dimensions)[k])
    {
      var names := args;
      var ds := BlockLengths(names, dimensions);
      var vals := seq(|names|, k requires 0 <= k < |names| => eq[names[k]]);
      var parts := seq(|names|, i requires 0 <= i < |names| => Fill(vals[i], ds[i]));
      assert Packed(eq) == Concat(parts);
      assert Lengths(parts) == ds;
      forall k | 0 <= k < |args|
        ensures Block(Concat(parts), ds, k) == parts[k]
      {
        ConcatBlock(parts, k);
      }
    }

    /**
      `compute`: unpack x and concatenate the members' scaled residuals, each
      member receiving its own arguments in its own order.
     */
    method Compute(x: seq<real>) returns (r: Result<seq<real>>)
      requires Valid()
      ensures !built ==> r == Err(RuntimeError)
      ensures built && |x| != dimX ==> r == Err(ValueError)
      ensures built && |x| == dimX ==>
        r.Ok? && Covered(members, Unpacked(x)) && r.value == Residuals(members, Unpacked(x))
    {
      var kw := UnpackState(x);
      if kw.Err? {
        return Err(kw.error);
      }
      ArgumentsCovered(x);
      var f := StackResiduals(members, kw.value);
      return Ok(f);
    }

    /** The unpacked arguments include every argument of every member. */
    lemma ArgumentsCovered(x: seq<real>)
      requires Valid() && built && |x| == dimX
      ensures Covered(members, Unpacked(x))
    {
      forall i, a | 0 <= i < |members| && a in members[i].args ensures a in Unpacked(x) {
        UsedArgsMembers(members, a);
      }
    }

    /** `compute_scalar`: half the sum of squares of `compute`, never negative and zero exactly at a zero residual. */
    method ComputeScalar(x: seq<real>) returns (r: Result<real>)
      requires Valid()
      ensures !built ==> r == Err(RuntimeError)
      ensures built && |x| != dimX ==> r == Err(ValueError)
      ensures built && |x| == dimX ==>
        r.Ok? && Covered(members, Unpacked(x)) && r.value == HalfSumSquares(Residuals(members, Unpacked(x)))
      ensures r.Ok? ==> r.value >= 0.0
    {
      var f := Compute(x);
      if f.Err? {
        return Err(f.error);
      }
      return Ok(HalfSumSquares(f.value));
    }

    /**
      `compile`: RuntimeError before build; without JAX it only marks the
      function compiled; otherwise "auto" is resolved from the scalar flag and
      the resolved mode is recorded.
     */
    method Compile(mode: CompileMode, useJax: bool) returns (o: Outcome)
      requires Valid()
      modifies this
      ensures Valid()
      ensures o.Pass? <==> old(built)
      ensures o.Fail? ==> o.error == RuntimeError && unchanged(this)
      ensures o.Pass? ==> compiled
      ensures o.Pass? && !useJax ==> compileMode == old(compileMode)
      ensures o.Pass? && useJax ==> compileMode == Some(ResolveMode(mode, scalar))
      ensures built == old(built) && dimF == old(dimF) && scalar == old(scalar) && args == old(args)
      ensures dimX == old(dimX) && xIdx == old(xIdx) && dimensions == old(dimensions) && useJit == old(useJit)
    {
      if !built {
        return Fail(RuntimeError);
      }
      if !useJax {
        compiled := true;
        return Pass;
      }
      compileMode := Some(ResolveMode(mode, scalar));
      compiled := true;
      return Pass;
    }
  }

  /** The blocks `Fill(vals[k], ds[k])`, concatenated in order. */
  function PackedBlocks(vals: seq<seq<real>>, ds: seq<nat>): seq<real>
    requires |vals| == |ds|
    requires forall k :: 0 <= k < |vals| ==> Fits(vals[k], ds[k])
  {
    Concat(seq(|vals|, k requires 0 <= k < |vals| => Fill(vals[k], ds[k])))
  }

  /** The first k values, each filled to the size of its block. */
  ghost function Filled(vals: seq<seq<real>>, ds: seq<nat>, k: nat): seq<seq<real>>
    requires k <= |vals| == |ds| && forall i :: 0 <= i < k ==> Fits(vals[i], ds[i])
  {
    seq(k, i requires 0 <= i < k => Fill(vals[i], ds[i]))
  }

  lemma FilledSnoc(vals: seq<seq<real>>, ds: seq<nat>, k: nat)
    requires k < |vals| == |ds| && forall i :: 0 <= i <= k ==> Fits(vals[i], ds[i])
    ensures Filled(vals, ds, k + 1) == Filled(vals, ds, k) + [Fill(vals[k], ds[k])]
  {
  }

  /**
    The loop of `x`: a zero vector of length Total(ds) receives value k at
    index block k; ValueError at the first value that does not fit its block.
   */
  method PackState(vals: seq<seq<real>>, ds: seq<nat>, idxs: seq<seq<int>>, n: nat) returns (r: Result<seq<real>>)
    requires |vals| == |ds| == |idxs| && n == Total(ds)
    requires forall k :: 0 <= k < |idxs| ==> idxs[k] == BlockIndices(ds, k)
    ensures r.Ok? <==> forall k :: 0 <= k < |vals| ==> Fits(vals[k], ds[k])
    ensures r.Err? ==> r.error == ValueError
    ensures r.Ok? ==> |r.value| == n && r.value == PackedBlocks(vals, ds)
  {
    var xs := new real[n](_ => 0.0);
    ghost var parts: seq<seq<real>> := [];
    var k := 0;
    while k < |vals|
      invariant 0 <= k <= |vals|
      invariant |parts| == k
      invariant forall i :: 0 <= i < k ==> Fits(vals[i], ds[i])
      invariant parts == Filled(vals, ds, k)
      invariant Start(ds, k) <= xs.Length
      invariant xs[..Start(ds, k)] == Concat(parts)
    {
      if !Fits(vals[k], |idxs[k]|) {
        return Err(ValueError);
      }
      WriteBlock(xs, ds, k, idxs[k], vals[k], parts);
      ConcatSnoc(parts, Fill(vals[k], ds[k]));
      FilledSnoc(vals, ds, k);
      parts := parts + [Fill(vals[k], ds[k])];
      k := k + 1;
    }
    assert xs[..] == xs[..Start(ds, |vals|)];
    return Ok(xs[..]);
  }

  /** Writes v into block k of xs, extending the packed prefix by that block. */
  method WriteBlock(xs: array<real>, ds: seq<nat>, k: nat, idx: seq<int>, v: seq<real>, ghost parts: seq<seq<real>>)
    requires k < |ds| && xs.Length == Total(ds)
    requires idx == BlockIndices(ds, k) && Fits(v, ds[k])
    requires Start(ds, k) <= xs.Length
    requires xs[..Start(ds, k)] == Concat(parts)
    modifies xs
    ensures Start(ds, k + 1) <= xs.Length
    ensures xs[..Start(ds, k + 1)] == Concat(parts) + Fill(v, ds[k])
  {
    var s, d := Start(ds, k), ds[k];
    StartWithin(ds, k);
    assert |idx| == d && (d > 0 ==> idx[0] == s);
    ghost var before := xs[..s];
    Scatter(xs, idx, v);
    BlockWritten(xs[..], before, s, Fill(v, d), d);
  }

  /** After a block write at [s, s + d), the prefix up to s + d is the old prefix followed by the block. */
  lemma BlockWritten(xs: seq<real>, before: seq<real>, s: nat, block: seq<real>, d: nat)
    requires s + d <= |xs| && |before| == s && |block| == d
    requires xs[..s] == before && xs[s..s + d] == block
    ensures xs[..s + d] == before + block
  {
    assert xs[..s + d] == xs[..s] + xs[s..s + d];
  }

  /**
    `xs[idx] = v` for a contiguous index block idx = [s, s + |idx|): the block
    receives v (a single value repeated), everything outside it is untouched.
   */
  method Scatter(xs: array<real>, idx: seq<int>, v: seq<real>)
    requires |idx| > 0 ==> 0 <= idx[0] && idx[0] + |idx| <= xs.Length
    requires forall j :: 0 <= j < |idx| ==> idx[j] == idx[0] + j
    requires Fits(v, |idx|)
    modifies xs
    ensures |idx| > 0 ==> xs[..idx[0]] == old(xs[..idx[0]])
    ensures |idx| > 0 ==> xs[idx[0]..idx[0] + |idx|] == Fill(v, |idx|)
    ensures |idx| > 0 ==> xs[idx[0] + |idx|..] == old(xs[idx[0] + |idx|..])
    ensures |idx| == 0 ==> xs[..] == old(xs[..])
  {
    if |idx| == 0 {
      return;
    }
    var s := idx[0];
    var j := 0;
    while j < |idx|
      invariant 0 <= j <= |idx|
      invariant forall i :: 0 <= i < s ==> xs[i] == old(xs[i])
      invariant forall i :: s + |idx| <= i < xs.Length ==> xs[i] == old(xs[i])
      invariant forall i :: 0 <= i < j ==> xs[s + i] == Bcast(v, i)
    {
      xs[idx[j]] := if |v| == 1 then v[0] else v[j];
      j := j + 1;
    }
  }

  /** `_kwargs_to_args`: the arrays of the named arguments, in the given order. */
  function ArgsOf(kwargs: map<string, seq<real>>, names: seq<string>): (r: seq<seq<real>>)
    requires forall a :: a in names ==> a in kwargs
    ensures |r| == |names| && forall k :: 0 <= k < |names| ==> r[k] == kwargs[names[k]]
  {
    seq(|names|, k requires 0 <= k < |names| => kwargs[names[k]])
  }
}
