/**
  The linear objectives as objects: each holds its construction arguments and
  the fields its `build` sets in place (`_dim_f`, `_A`, `_idx`, the target,
  the sum weights, the profile, the normalisation, `_built`). Every build
  method is proved to leave the fields exactly as `BuildSpec` describes, so
  the guarantees proved about `BuildSpec` (zero residual at the equilibrium
  it was built from, rows that follow the selected modes) hold for them.
 */
module LinearObjectives {
  import opened Common
  import opened Modes
  import opened Objectives
  import opened LinearBuild

  /**
    The axis matrix as the source fills it: start from zeros and, for each
    basis mode with m == 0, write its sign into every row whose toroidal
    number is the mode's.
   */
  method FillAxisMatrix(basis: seq<Mode>, ns: seq<int>) returns (a: seq<seq<real>>)
    ensures a == AxisMatrix(basis, ns)
  {
    a := seq(|ns|, _ => Zeros(|basis|));
    var i := 0;
    while i < |basis|
      invariant 0 <= i <= |basis|
      invariant IsMatrix(a, |ns|, |basis|)
      invariant forall j, k :: 0 <= j < |ns| && 0 <= k < |basis| ==>
        a[j][k] == (if k < i then AxisEntry(basis, ns, j, k) else 0.0)
    {
      if basis[i].m != 0 {
        i := i + 1;
        continue;
      }
      a := WriteColumn(a, basis, ns, i);
      i := i + 1;
    }
    assert forall j :: 0 <= j < |ns| ==> a[j] == AxisMatrix(basis, ns)[j];
  }

  /** Column i gets the sign of basis mode i in every row whose toroidal number matches (`A[argwhere(n == ns), i] = +-1`). */
  method WriteColumn(a0: seq<seq<real>>, basis: seq<Mode>, ns: seq<int>, i: nat) returns (a: seq<seq<real>>)
    requires IsMatrix(a0, |ns|, |basis|) && i < |basis| && basis[i].m == 0
    ensures IsMatrix(a, |ns|, |basis|)
    ensures forall j, k :: 0 <= j < |ns| && 0 <= k < |basis| ==>
      a[j][k] == (if k == i then AxisEntry(basis, ns, j, k) else a0[j][k])
  {
    var sign := AxisSign(basis[i].l);
    a := a0;
    var j := 0;
    while j < |ns|
      invariant 0 <= j <= |ns|
      invariant IsMatrix(a, |ns|, |basis|)
      invariant forall r, k :: 0 <= r < |ns| && 0 <= k < |basis| ==>
        a[r][k] == (if k == i && r < j then AxisEntry(basis, ns, r, k) else a0[r][k])
    {
      if ns[j] == basis[i].n {
        a := a[j := a[j][i := sign]];
      } else {
        a := a[j := a[j][i := 0.0]];
      }
      j := j + 1;
    }
  }

  /**
    The default axis target as the source fills it: zeros, then each axis
    coefficient written to every row with its toroidal number, later modes
    overwriting earlier ones.
   */
  method FillAxisTarget(bs: seq<Mode>, cs: seq<real>, ns: seq<int>) returns (t: seq<real>)
    requires |bs| == |cs|
    ensures t == AxisTarget(bs, cs, ns)
  {
    t := Zeros(|ns|);
    var k := 0;
    while k < |bs|
      invariant 0 <= k <= |bs|
      invariant |t| == |ns| && forall j :: 0 <= j < |ns| ==> t[j] == LastMatch(bs, cs, ns[j], k)
    {
      var j := 0;
      while j < |ns|
        invariant 0 <= j <= |ns|
        invariant |t| == |ns|
        invariant forall r :: 0 <= r < j ==> t[r] == LastMatch(bs, cs, ns[r], k + 1)
        invariant forall r :: j <= r < |ns| ==> t[r] == LastMatch(bs, cs, ns[r], k)
      {
        if ns[j] == bs[k].n {
          t := t[j := cs[k]];
        }
        j := j + 1;
      }
      k := k + 1;
    }
  }

  /**
    The weighted-sum row as the source fills it: zeros, then weight i at the
    basis position of mode i; an IndexError where the weights run out, with
    the weights written so far left in the row.
   */
  method FillSumRow(n: nat, p: seq<nat>, sw: seq<real>) returns (row: seq<real>, o: Outcome)
    requires forall i :: 0 <= i < |p| ==> p[i] < n
    ensures o.Pass? <==> |p| <= |sw|
    ensures o.Fail? ==> o.error == IndexError
    ensures row == SumRow(n, p, sw, if |p| <= |sw| then |p| else |sw|)
  {
    row := Zeros(n);
    var i := 0;
    while i < |p|
      invariant 0 <= i <= |p| && i <= |sw|
      invariant row == SumRow(n, p, sw, i)
    {
      if i == |sw| {
        return row, Fail(IndexError);
      }
      row := row[p[i] := sw[i]];
      i := i + 1;
    }
    o := Pass;
  }


  class LinearObjective {
    const kind: Kind
    const bounds: Option<(seq<real>, seq<real>)>
    const weight: seq<real>
    const normalize: bool
    const normalizeTarget: bool
    var target: Option<seq<real>>
    var dimF: nat
    var a: Option<seq<seq<real>>>
    var idx: Option<seq<int>>
    var sumWeights: Option<seq<real>>
    var profile: Option<seq<real>>
    var normalization: real
    var built: bool

    /** The fields a build sets, as one value. */
    function Snapshot(): State
      reads this
    {
      State(target, dimF, a, idx, sumWeights, profile, normalization, built)
    }

    /** `__init__` once its checks passed: nothing is built, the normalisation is 1. */
    constructor (kind: Kind, target: Option<seq<real>>, bounds: Option<(seq<real>, seq<real>)>, weight: seq<real>,
                 normalize: bool, normalizeTarget: bool, sumWeights: Option<seq<real>>, profile: Option<seq<real>>)
      requires InitChecks(kind, target, weight).Pass?
      ensures this.kind == kind && this.bounds == bounds && this.weight == weight
      ensures this.normalize == normalize && this.normalizeTarget == normalizeTarget
      ensures Admissible(kind)
      ensures Snapshot() == State(target, 0, None, None, sumWeights, profile, 1.0, false)
    {
      this.kind := kind;
      this.bounds := bounds;
      this.weight := weight;
      this.normalize := normalize;
      this.normalizeTarget := normalizeTarget;
      this.target := target;
      this.dimF := 0;
      this.a := None;
      this.idx := None;
      this.sumWeights := sumWeights;
      this.profile := profile;
      this.normalization := 1.0;
      this.built := false;
    }

    /** `__init__` with its checks: an objective, or the error it raises. */
    static method Create(kind: Kind, target: Option<seq<real>>, bounds: Option<(seq<real>, seq<real>)>, weight: seq<real>,
                         normalize: bool, normalizeTarget: bool, sumWeights: Option<seq<real>>,
                         profile: Option<seq<real>>) returns (r: Result<LinearObjective>)
      ensures r.Ok? <==> InitChecks(kind, target, weight).Pass?
      ensures r.Err? ==> r.error == InitChecks(kind, target, weight).error
      ensures r.Ok? ==> fresh(r.value) && r.value.kind == kind && r.value.bounds == bounds && r.value.weight == weight
      ensures r.Ok? ==> Admissible(kind) && r.value.Snapshot() == State(target, 0, None, None, sumWeights, profile, 1.0, false)
    {
      var o := InitChecks(kind, target, weight);
      if o.Fail? {
        return Err(o.error);
      }
      var obj := new LinearObjective(kind, target, bounds, weight, normalize, normalizeTarget, sumWeights, profile);
      return Ok(obj);
    }

    /** The target setter: store, then check the dimensions. */
    method SetTarget(t: seq<real>) returns (o: Outcome)
      modifies this
      ensures Step(o, Snapshot()) == Assign(old(Snapshot()), t, bounds, weight)
    {
      target := Some(t);
      o := CheckDimensions(dimF, target, bounds, weight);
    }

    /** `_Objective.build`: check the dimensions and mark the objective built. */
    method BuildCommon() returns (o: Outcome)
      modifies this
      ensures Step(o, Snapshot()) == Finish(old(Snapshot()), bounds, weight)
    {
      o := CheckDimensions(dimF, target, bounds, weight);
      if o.Pass? {
        built := true;
      }
    }

    /** Reorder a given target to the selected modes (`self.target = self.target[modes_idx]`). */
    method ReorderTarget(modes: ModesArg, modesIdx: seq<nat>) returns (o: Outcome)
      requires target.Some?
      modifies this
      ensures Step(o, Snapshot()) == GivenTarget(old(Snapshot()), modes, modesIdx, bounds, weight)
    {
      if modes.ModesFlag? {
        return Fail(RuntimeError);
      }
      if modes.ModesNone? {
        return Fail(UnboundLocalError);
      }
      var r := Take(target.value, modesIdx);
      if r.Err? {
        return Fail(r.error);
      }
      TakePick(target.value, modesIdx);
      o := SetTarget(r.value);
    }

    method BuildBoundary(c: Coord, modes: ModesArg, eq: Equilibrium) returns (o: Outcome)
      requires eq.Consistent()
      modifies this
      ensures Step(o, Snapshot()) == BoundarySpec(c, modes, old(Snapshot()), eq, bounds, weight, normalize)
    {
      var basis := eq.SurfaceBasis(c);
      var sel := Select(basis, modes);
      o := BuildSelected(|basis|, modes, sel, Pick(eq.SurfaceLmn(c), sel.idx), eq.scales(LengthScale));
    }

    /** The FixBoundary build once its modes are selected. */
    method BuildSelected(n: nat, modes: ModesArg, sel: Selection, current: seq<real>, lengthScale: real)
      returns (o: Outcome)
      requires IndicesIn(sel.idx, n)
      modifies this
      ensures Step(o, Snapshot()) == BoundaryFrom(n, modes, sel, current, old(Snapshot()), lengthScale, bounds, weight, normalize)
    {
      dimF := |sel.idx|;
      if target.Some? {
        o := ReorderTarget(modes, sel.modesIdx);
        if o.Fail? {
          return;
        }
      }
      a := Some(EyeRows(n, sel.idx));
      if target.None? {
        o := SetTarget(current);
        if o.Fail? {
          return;
        }
      }
      if normalize {
        normalization := lengthScale;
      }
      o := BuildCommon();
    }

    method BuildAxis(c: Coord, modes: ModesArg, eq: Equilibrium) returns (o: Outcome)
      requires eq.Consistent()
      modifies this
      ensures Step(o, Snapshot()) == AxisSpec(c, modes, old(Snapshot()), eq, bounds, weight)
    {
      var sel := Select(eq.AxisBasis(c), modes);
      var ns := Ns(sel.modes);
      var m := FillAxisMatrix(eq.Basis(c), ns);
      var t := [];
      if target.None? {
        t := FillAxisTarget(eq.AxisBasis(c), eq.AxisCoeffs(c), ns);
      }
      o := BuildAxisRows(modes, sel.modesIdx, m, |ns|, t);
    }

    /** The FixAxisR/Z build once its rows and default target are known. */
    method BuildAxisRows(modes: ModesArg, modesIdx: seq<nat>, m: seq<seq<real>>, dim: nat, t: seq<real>)
      returns (o: Outcome)
      modifies this
      ensures Step(o, Snapshot()) == AxisFrom(modes, modesIdx, m, dim, t, old(Snapshot()), bounds, weight)
    {
      a, dimF := Some(m), dim;
      if target.None? {
        o := SetTarget(Zeros(dim));
        if o.Pass? {
          target := Some(t);
        }
      } else {
        o := ReorderTarget(modes, modesIdx);
      }
      if o.Fail? {
        return;
      }
      o := BuildCommon();
    }

    method BuildMode(c: Coord, modes: ModesArg, eq: Equilibrium) returns (o: Outcome)
      requires eq.Consistent() && !NoModes(modes)
      modifies this
      ensures Step(o, Snapshot()) == ModeSpec(c, modes, old(Snapshot()), eq, bounds, weight)
    {
      var sel := Select(eq.Basis(c), modes);
      var modesIdx := if modes.ModesFlag? then sel.idx else sel.modesIdx;
      if modes.ModesList? {
        idx := Some(sel.idx);
      }
      dimF := |modesIdx|;
      if target.None? {
        if idx.None? {
          return Fail(AttributeError);
        }
        var r := Take(eq.Lmn(c), idx.value);
        if r.Err? {
          return Fail(r.error);
        }
        o := SetTarget(r.value);
      } else if modes.ModesFlag? {
        return Fail(RuntimeError);
      } else {
        o := ReorderTarget(modes, modesIdx);
      }
      if o.Fail? {
        return;
      }
      o := BuildCommon();
    }

    method BuildSumModes(c: Coord, modes: ModesArg, eq: Equilibrium) returns (o: Outcome)
      requires eq.Consistent() && !NoModes(modes)
      modifies this
      ensures Step(o, Snapshot()) == SumModesSpec(c, modes, old(Snapshot()), eq, bounds, weight)
    {
      var basis := eq.Basis(c);
      var sel := Select(basis, modes);
      o := SelectSumModes(modes, sel);
      if o.Fail? {
        return;
      }
      o := BuildSumSelected(basis, eq.Lmn(c), sel.modes);
    }

    /** The FixSumModes build once its modes and weights are selected. */
    method BuildSumSelected(basis: seq<Mode>, lmn: seq<real>, selected: seq<Mode>) returns (o: Outcome)
      requires forall i :: 0 <= i < |selected| ==> selected[i] in basis
      modifies this
      ensures Step(o, Snapshot()) == SumModesFrom(basis, lmn, selected, old(Snapshot()), bounds, weight)
    {
      var sw := if sumWeights.None? then seq(|selected|, _ => 1.0) else sumWeights.value;
      dimF := 1;
      if |sw| < |selected| {
        var row, filled := FillSumRow(|basis|, Positions(basis, selected), sw);
        a := Some([row]);
        return filled;
      }
      o := BuildSumRow(basis, lmn, Positions(basis, selected), sw);
    }

    /** Store the selected indices and reorder the sum weights, for explicit modes. */
    method SelectSumModes(modes: ModesArg, sel: Selection) returns (o: Outcome)
      modifies this
      ensures Step(o, Snapshot()) == SumModesWeights(modes, sel, old(Snapshot()))
    {
      o := Pass;
      if modes.ModesList? {
        idx := Some(sel.idx);
        if sumWeights.Some? {
          var r := Take(sumWeights.value, sel.modesIdx);
          if r.Err? {
            return Fail(r.error);
          }
          sumWeights := Some(r.value);
        }
      }
    }

    /** The tail of the FixSumModes build: the row, the default weighted-sum target, then the common build. */
    method BuildSumRow(basis: seq<Mode>, lmn: seq<real>, p: seq<nat>, sw: seq<real>) returns (o: Outcome)
      requires |p| <= |sw| && forall i :: 0 <= i < |p| ==> p[i] < |basis|
      modifies this
      ensures Step(o, Snapshot()) == SumModesRow(basis, lmn, p, sw, old(Snapshot()), bounds, weight)
    {
      var row, _ := FillSumRow(|basis|, p, sw);
      a := Some([row]);
      if target.None? {
        if idx.None? {
          return Fail(AttributeError);
        }
        var r := Take(lmn, idx.value);
        if r.Err? {
          return Fail(r.error);
        }
        if |sw| != |r.value| {
          return Fail(ValueError);
        }
        o := SetTarget([Dot(sw, r.value)]);
        if o.Fail? {
          return;
        }
      }
      o := BuildCommon();
    }

    method BuildTheta(eq: Equilibrium) returns (o: Outcome)
      modifies this
      ensures Step(o, Snapshot()) == ThetaSpec(old(Snapshot()), eq, bounds, weight)
    {
      var n := eq.lNumModes;
      idx := Some(seq(n, k => k));
      dimF := n;
      o := SetTarget(Zeros(n));
      if o.Fail? {
        return;
      }
      o := BuildCommon();
    }

    method BuildProfile(p: ProfileKind, indices: IndicesArg, eq: Equilibrium) returns (o: Outcome)
      modifies this
      ensures Step(o, Snapshot()) == ProfileSpec(p, indices, old(Snapshot()), eq, bounds, weight, normalize)
    {
      if p !in eq.profiles {
        return Fail(RuntimeError);
      }
      var scale := if normalize && ProfileScale(p).Some? then eq.scales(ProfileScale(p).value) else normalization;
      var params := if profile.None? || |profile.value| != eq.bigL + 1 then eq.profiles[p] else profile.value;
      o := FixIndices(indices, params, scale);
    }

    /**
      Store the profile and the normalisation, select the profile parameters
      to fix and, by default, take their current values as the target.
     */
    method FixIndices(indices: IndicesArg, params: seq<real>, scale: real) returns (o: Outcome)
      modifies this
      ensures Step(o, Snapshot()) ==
        ProfileFix(indices, params, old(Snapshot()).(normalization := scale, profile := Some(params)), bounds, weight)
    {
      var selected := ProfileIndices(indices, params);
      normalization, profile, idx, dimF := scale, Some(params), Some(selected), |selected|;
      if target.None? {
        var r := Take(params, selected);
        if r.Err? {
          return Fail(r.error);
        }
        o := SetTarget(r.value);
        if o.Fail? {
          return;
        }
      }
      o := BuildCommon();
    }

    method BuildPsi(eq: Equilibrium) returns (o: Outcome)
      modifies this
      ensures Step(o, Snapshot()) == PsiSpec(old(Snapshot()), eq, bounds, weight, normalize)
    {
      dimF := 1;
      if target.None? {
        o := SetTarget([eq.psi]);
        if o.Fail? {
          return;
        }
      }
      if normalize {
        normalization := eq.scales(FluxScale);
      }
      o := BuildCommon();
    }

    /** `build(eq)`: the build of this objective's kind. */
    method Build(eq: Equilibrium) returns (o: Outcome)
      requires eq.Consistent() && Admissible(kind)
      modifies this
      ensures Step(o, Snapshot()) == BuildSpec(kind, old(Snapshot()), eq, bounds, weight, normalize)
    {
      match kind
      case FixBoundary(c, modes) => o := BuildBoundary(c, modes, eq);
      case FixAxis(c, modes) => o := BuildAxis(c, modes, eq);
      case FixMode(c, modes) => o := BuildMode(c, modes, eq);
      case FixSumModes(c, modes) => o := BuildSumModes(c, modes, eq);
      case FixThetaSFL => o := BuildTheta(eq);
      case FixProfile(p, indices) => o := BuildProfile(p, indices, eq);
      case FixPsi => o := BuildPsi(eq);
    }

    /** `compute(x)` on the fields of this objective. */
    method ComputeAt(x: seq<real>) returns (r: Result<seq<real>>)
      ensures r == Compute(kind, Snapshot(), x)
    {
      match kind {
        case FixPsi => r := Ok(x);
        case FixBoundary(_, _) => r := if a.None? then Err(AttributeError) else MatVec(a.value, x);
        case FixAxis(_, _) => r := if a.None? then Err(AttributeError) else MatVec(a.value, x);
        case FixSumModes(_, _) => r := if a.None? then Err(AttributeError) else MatVec(a.value, x);
        case _ => r := if idx.None? then Err(AttributeError) else Take(x, idx.value);
      }
    }
  }
}
