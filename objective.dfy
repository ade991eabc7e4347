/**
  The value-level logic shared by every objective: the argument checks made
  when an objective is created, the shape checks made when its target, bounds
  or weight change, how a raw objective value becomes a scaled residual
  (normalisation, target or bounds, weight), its scalar form, and how compute
  arguments are parsed.
 */
module Objectives {
  import opened Common

  /** What the residual is measured against: a target, or a (lower, upper) band. */
  datatype Reference = Target(target: seq<real>) | Bounds(lower: seq<real>, upper: seq<real>)

  /** Length of the broadcast of two broadcastable one-dimensional shapes. */
  function BLen(a: nat, b: nat): (n: nat)
    requires Broadcastable(a, b)
    ensures Broadcastable(a, n) && Broadcastable(b, n)
    ensures n == a || n == b
    ensures a != 1 ==> n == a
  {
    if a == 1 then b else a
  }

  /** The weight check of `_Objective.__init__` (and of the weight setter). */
  function InitCheck(weight: seq<real>): (o: Outcome)
    ensures o.Pass? <==> forall i :: 0 <= i < |weight| ==> weight[i] > 0.0
    ensures o.Fail? ==> o.error == AssertionError
  {
    if forall i :: 0 <= i < |weight| ==> weight[i] > 0.0 then Pass else Fail(AssertionError)
  }

  /** Lower bound never above upper bound, position by position after broadcasting. */
  predicate Ordered(lower: seq<real>, upper: seq<real>)
    requires Broadcastable(|lower|, |upper|)
  {
    forall i :: 0 <= i < BLen(|lower|, |upper|) ==> Bcast(lower, i) <= Bcast(upper, i)
  }

  /**
    `_check_dimensions`: with bounds, each bound must broadcast against (dim_f,)
    and the lower bound may not exceed the upper one; without bounds the target
    must broadcast (an absent target always does); the weight must broadcast too.
   */
  function CheckDimensions(dimF: nat, target: Option<seq<real>>, bounds: Option<(seq<real>, seq<real>)>,
                           weight: seq<real>): (o: Outcome)
    ensures o.Fail? ==> o.error == ValueError
    ensures o.Pass? <==>
      (match bounds
       case Some((lo, hi)) =>
         Broadcastable(dimF, |lo|) && Broadcastable(dimF, |hi|) &&
         Broadcastable(|lo|, |hi|) && Ordered(lo, hi)
       case None => target.None? || Broadcastable(dimF, |target.value|)) &&
      Broadcastable(dimF, |weight|)
  {
    if bounds.Some? && !(Broadcastable(dimF, |bounds.value.0|) && Broadcastable(dimF, |bounds.value.1|)) then
      Fail(ValueError)
    else if bounds.Some? && !Broadcastable(|bounds.value.0|, |bounds.value.1|) then
      Fail(ValueError)   // the subtraction upper - lower cannot broadcast
    else if bounds.Some? && !Ordered(bounds.value.0, bounds.value.1) then
      Fail(ValueError)
    else if bounds.None? && target.Some? && !Broadcastable(dimF, |target.value|) then
      Fail(ValueError)
    else if !Broadcastable(dimF, |weight|) then
      Fail(ValueError)
    else
      Pass
  }

  /**
    Error of a value v against the band [lo, hi]: zero inside it, otherwise the
    signed distance to the nearer bound (negative below, positive above).
   */
  function BoundsResidual(v: real, lo: real, hi: real): (e: real)
    ensures lo <= v <= hi ==> e == 0.0
    ensures lo <= hi && v < lo ==> e == v - lo && e < 0.0
    ensures lo <= hi && hi < v ==> e == v - hi && e > 0.0
    ensures lo <= hi ==> (e == 0.0 <==> lo <= v <= hi)
  {
    if lo <= v && v <= hi then 0.0
    else if Abs(v - lo) < Abs(v - hi) then v - lo
    else v - hi
  }

  function Abs(x: real): real { if x < 0.0 then -x else x }

  /** The broadcast length of the scaled residual, when the shapes are compatible. */
  predicate ShapesCompatible(n: nat, ref: Reference, w: nat) {
    match ref
    case Target(t) => Broadcastable(n, |t|) && Broadcastable(BLen(n, |t|), w)
    case Bounds(lo, hi) =>
      Broadcastable(n, |lo|) && Broadcastable(BLen(n, |lo|), |hi|) &&
      Broadcastable(BLen(BLen(n, |lo|), |hi|), w)
  }

  /** Every operand is either a single broadcast value or already of the broadcast length. */
  function ScaledLength(n: nat, ref: Reference, w: nat): (len: nat)
    requires ShapesCompatible(n, ref, w)
    ensures n == 1 || n == len
    ensures w == 1 || w == len
    ensures ref.Target? ==> |ref.target| == 1 || |ref.target| == len
    ensures ref.Bounds? ==> (|ref.lower| == 1 || |ref.lower| == len) && (|ref.upper| == 1 || |ref.upper| == len)
  {
    match ref
    case Target(t) => BLen(BLen(n, |t|), w)
    case Bounds(lo, hi) => BLen(BLen(BLen(n, |lo|), |hi|), w)
  }

  /** The reference value a position is compared with, normalised when asked to. */
  function RefValue(v: seq<real>, i: nat, normalization: real, normalizeTarget: bool): real
    requires normalization != 0.0
    requires |v| == 1 || i < |v|
  {
    if normalizeTarget then Bcast(v, i) / normalization else Bcast(v, i)
  }

  /**
    What entry i of the scaled residual means, for the value, the reference and
    the weight broadcast to position i. Against a target it is the weighted
    difference of the normalised value and the (normalised) target, so under a
    positive weight it is zero, negative or positive exactly as the value is at,
    below or above the target. Against bounds it is zero inside the window; when
    the window is ordered, outside it is the weighted distance to the bound that
    was passed, and under a positive weight it is zero only inside the window,
    negative only below it and positive only above it.
   */
  predicate ScaledMeaning(f: seq<real>, normalization: real, ref: Reference, weight: seq<real>,
                          normalizeTarget: bool, i: nat, e: real)
    requires normalization != 0.0
    requires ShapesCompatible(|f|, ref, |weight|) && i < ScaledLength(|f|, ref, |weight|)
  {
    var v := Bcast(f, i) / normalization;
    match ref
    case Target(t) => TargetMeaning(v, RefValue(t, i, normalization, normalizeTarget), Bcast(weight, i), e)
    case Bounds(lower, upper) =>
      BoundsMeaning(v, RefValue(lower, i, normalization, normalizeTarget),
                    RefValue(upper, i, normalization, normalizeTarget), Bcast(weight, i), e)
  }

  /** e is the weighted difference of v and its target tv, signed as v against tv under a positive weight. */
  predicate TargetMeaning(v: real, tv: real, w: real, e: real) {
    && e == (v - tv) * w
    && (w > 0.0 ==> (e == 0.0 <==> v == tv) && (e < 0.0 <==> v < tv) && (e > 0.0 <==> v > tv))
  }

  /** e is the weighted bounds error of v against [lo, hi], as described for `ScaledMeaning`. */
  predicate BoundsMeaning(v: real, lo: real, hi: real, w: real, e: real) {
    && (lo <= v <= hi ==> e == 0.0)
    && (lo <= hi && v < lo ==> e == (v - lo) * w)
    && (lo <= hi && hi < v ==> e == (v - hi) * w)
    && (lo <= hi && w > 0.0 ==> (e == 0.0 <==> lo <= v <= hi) && (e < 0.0 <==> v < lo) && (e > 0.0 <==> hi < v))
  }

  /** The weighted difference from a target has the meaning `TargetMeaning` gives it. */
  lemma WeightedDifference(v: real, tv: real, w: real)
    ensures TargetMeaning(v, tv, w, (v - tv) * w)
  {
    SignedProduct(v - tv, w);
  }

  /** The weighted bounds error has the meaning `BoundsMeaning` gives it. */
  lemma WeightedBoundsError(v: real, lo: real, hi: real, w: real)
    ensures BoundsMeaning(v, lo, hi, w, BoundsResidual(v, lo, hi) * w)
  {
    SignedProduct(BoundsResidual(v, lo, hi), w);
  }

  /**
    `compute_scaled`: f / normalization, compared with the target or the bounds,
    times the weight. A ValueError when the shapes cannot broadcast.
   */
  function ComputeScaled(f: seq<real>, normalization: real, ref: Reference, weight: seq<real>,
                         normalizeTarget: bool): (r: Result<seq<real>>)
    requires normalization != 0.0
    ensures r.Ok? <==> ShapesCompatible(|f|, ref, |weight|)
    ensures r.Err? ==> r.error == ValueError
    ensures r.Ok? ==> |r.value| == ScaledLength(|f|, ref, |weight|)
    ensures r.Ok? ==> forall i :: 0 <= i < |r.value| ==>
      ScaledMeaning(f, normalization, ref, weight, normalizeTarget, i, r.value[i])
    // a value equal to its target has no residual when the target is normalised alike
    ensures r.Ok? && ref.Target? && f == ref.target && normalizeTarget ==>
      forall i :: 0 <= i < |r.value| ==> r.value[i] == 0.0
  {
    if !ShapesCompatible(|f|, ref, |weight|) then Err(ValueError)
    else
      var n := ScaledLength(|f|, ref, |weight|);
      Ok(seq(n, i requires 0 <= i < n => ScaledEntry(f, normalization, ref, weight, normalizeTarget, i)))
  }

  /** Entry i of the scaled residual: the error of f[i] / normalization against the reference, times the weight. */
  function ScaledEntry(f: seq<real>, normalization: real, ref: Reference, weight: seq<real>,
                       normalizeTarget: bool, i: nat): (e: real)
    requires normalization != 0.0
    requires ShapesCompatible(|f|, ref, |weight|) && i < ScaledLength(|f|, ref, |weight|)
    ensures ScaledMeaning(f, normalization, ref, weight, normalizeTarget, i, e)
    ensures ref.Target? && f == ref.target && normalizeTarget ==> e == 0.0
  {
    var fn := Bcast(f, i) / normalization;
    var w := Bcast(weight, i);
    match ref
    case Target(t) =>
      var tv := RefValue(t, i, normalization, normalizeTarget);
      WeightedDifference(fn, tv, w);
      (fn - tv) * w
    case Bounds(lower, upper) =>
      var lo := RefValue(lower, i, normalization, normalizeTarget);
      var hi := RefValue(upper, i, normalization, normalizeTarget);
      WeightedBoundsError(fn, lo, hi, w);
      BoundsResidual(fn, lo, hi) * w
  }

  /** The sign of a product with a positive factor is the sign of the other factor. */
  lemma SignedProduct(e: real, w: real)
    ensures e == 0.0 ==> e * w == 0.0
    ensures w > 0.0 && e < 0.0 ==> e * w < 0.0
    ensures w > 0.0 && e > 0.0 ==> e * w > 0.0
  {
  }

  /** `sum(f ** 2)`. */
  function SumSquares(f: seq<real>): (s: real)
    ensures s >= 0.0
    ensures s == 0.0 <==> forall i :: 0 <= i < |f| ==> f[i] == 0.0
  {
    if f == [] then 0.0
    else
      assert forall i :: 1 <= i < |f| ==> f[i] == f[1..][i - 1];
      SquareSign(f[0]);
      Square(f[0]) + SumSquares(f[1..])
  }

  /** `sum(f ** 2) / 2`, the least-squares cost of the residual vector f. */
  function HalfSumSquares(f: seq<real>): (s: real)
    ensures s >= 0.0
    ensures s == 0.0 <==> forall i :: 0 <= i < |f| ==> f[i] == 0.0
  {
    SumSquares(f) / 2.0
  }

  /**
    `_Objective.compute_scalar`: a scalar objective returns its single scaled
    value, any other the half sum of squares of its scaled residuals.
   */
  function ComputeScalar(scalar: bool, scaled: seq<real>): (r: real)
    requires scalar ==> |scaled| == 1
    ensures scalar ==> r == scaled[0]
    ensures !scalar ==> r >= 0.0 && (r == 0.0 <==> forall i :: 0 <= i < |scaled| ==> scaled[i] == 0.0)
  {
    if scalar then scaled[0] else HalfSumSquares(scaled)
  }

  /** `dict(zip(names, values))`: a later repeated name overrides an earlier one. */
  function Zip<V>(names: seq<string>, values: seq<V>): (m: map<string, V>)
    requires |names| == |values|
    ensures m.Keys == set a | a in names
    ensures Distinct(names) ==> forall k :: 0 <= k < |names| ==> m[names[k]] == values[k]
  {
    if names == [] then map[]
    else
      var n := |names| - 1;
      var m := Zip(names[..n], values[..n]);
      assert forall a :: a in names <==> a in names[..n] || a == names[n];
      m[names[n] := values[n]]
  }

  /**
    `_parse_args`: the compute arguments come either all positionally (exactly
    one per declared name) or all by keyword (every declared name present,
    extra keywords kept); anything else is an AssertionError.
   */
  function ParseArgs<V>(names: seq<string>, positional: seq<V>, keywords: map<string, V>): (r: Result<map<string, V>>)
    ensures r.Err? ==> r.error == AssertionError
    ensures r.Ok? <==>
      (|positional| == 0 || |keywords| == 0) &&
      (if |positional| > 0 then |positional| == |names|
       else forall k :: 0 <= k < |names| ==> names[k] in keywords)
    ensures r.Ok? ==> forall k :: 0 <= k < |names| ==> names[k] in r.value
    ensures r.Ok? && |positional| > 0 && Distinct(names) ==>
      forall k :: 0 <= k < |names| ==> r.value[names[k]] == positional[k]
    ensures r.Ok? && |positional| == 0 ==> r.value == keywords
  {
    if |positional| > 0 && |keywords| > 0 then Err(AssertionError)
    else if |positional| > 0 then
      if |positional| != |names| then Err(AssertionError)
      else
        var m := Zip(names, positional);
        assert forall k :: 0 <= k < |names| ==> names[k] in m.Keys;
        Ok(m)
    else if forall k :: 0 <= k < |names| ==> names[k] in keywords then Ok(keywords)
    else Err(AssertionError)
  }

  /** The `normalization` property: only readable before build when not normalising. */
  function Normalization(normalize: bool, built: bool, normalization: real): (r: Result<real>)
    ensures r.Ok? <==> !normalize || built
    ensures r.Err? ==> r.error == ValueError
    ensures r.Ok? ==> r.value == normalization
    ensures !normalize ==> r == Ok(normalization)
  {
    if normalize && !built then Err(ValueError) else Ok(normalization)
  }

  /** The `fixed` property: only a linear objective can fix parameters. */
  function Fixed(linear: bool, fixedFlag: bool): (r: bool)
    ensures r ==> linear
    ensures linear ==> r == fixedFlag
  {
    if linear then fixedFlag else false
  }
}
