/**
  What building a linear objective does, stated on values: which modes or
  profile indices it selects, the constant matrix A it builds, the default
  target it takes from the equilibrium, the errors it raises and in which
  order, and what `compute` returns afterwards. The `LinearObjective` class
  performs these steps on its fields; the lemmas here are what the steps
  guarantee (zero residual at the current equilibrium, rows that follow the
  selected modes, the sign pattern of the axis matrix, the weighted-sum row).
 */
module LinearBuild {
  import opened Common
  import opened Modes
  import opened Objectives

  /** The R or the Z coefficients: every R/Z pair of objectives is the same code on the other coordinate. */
  datatype Coord = R | Z

  datatype ProfileKind = Pressure | Iota | Current | ElectronTemperature | ElectronDensity | IonTemperature | AtomicNumber

  /** The normalisation scales of the equilibrium ("a", "p", "I", "T", "n", "Psi"). */
  datatype Scale = LengthScale | PressureScale | CurrentScale | TemperatureScale | DensityScale | FluxScale

  /**
    The equilibrium as the linear objectives read it: the mode lists of its
    bases and the matching coefficients, the axis and boundary surface, the
    number of lambda modes, its radial resolution L, the enclosed flux, the
    profiles it has, and its normalisation scales (computed elsewhere).
   */
  datatype Equilibrium = Equilibrium(
    rBasis: seq<Mode>, rLmn: seq<real>, zBasis: seq<Mode>, zLmn: seq<real>,
    surfaceRBasis: seq<Mode>, rbLmn: seq<real>, surfaceZBasis: seq<Mode>, zbLmn: seq<real>,
    axisRBasis: seq<Mode>, rn: seq<real>, axisZBasis: seq<Mode>, zn: seq<real>,
    lNumModes: nat, bigL: nat, psi: real,
    profiles: map<ProfileKind, seq<real>>,
    scales: Scale -> real)
  {
    function Basis(c: Coord): seq<Mode> { if c == R then rBasis else zBasis }
    function Lmn(c: Coord): seq<real> { if c == R then rLmn else zLmn }
    function SurfaceBasis(c: Coord): seq<Mode> { if c == R then surfaceRBasis else surfaceZBasis }
    function SurfaceLmn(c: Coord): seq<real> { if c == R then rbLmn else zbLmn }
    function AxisBasis(c: Coord): seq<Mode> { if c == R then axisRBasis else axisZBasis }
    function AxisCoeffs(c: Coord): seq<real> { if c == R then rn else zn }

    /** Every coefficient array matches its basis, and no basis lists a mode twice. */
    predicate Consistent() {
      && |rLmn| == |rBasis| && |zLmn| == |zBasis|
      && |rbLmn| == |surfaceRBasis| && |zbLmn| == |surfaceZBasis|
      && |rn| == |axisRBasis| && |zn| == |axisZBasis|
      && Distinct(rBasis) && Distinct(zBasis)
    }
  }

  /** The `modes` argument: None, True/False, or an explicit array of (l, m, n). */
  datatype ModesArg = ModesNone | ModesFlag(all: bool) | ModesList(modes: seq<Mode>)

  /** The `indices` argument of the profile objectives: None, True/False, or explicit indices. */
  datatype IndicesArg = IndicesNone | IndicesFlag(all: bool) | IndicesList(indices: seq<int>)

  /** Which linear objective; FixBoundary is the fixed-surface (not fixed-boundary) variant. */
  datatype Kind =
    | FixBoundary(coord: Coord, modes: ModesArg)
    | FixAxis(coord: Coord, modes: ModesArg)
    | FixMode(coord: Coord, modes: ModesArg)
    | FixSumModes(coord: Coord, modes: ModesArg)
    | FixThetaSFL
    | FixProfile(profile: ProfileKind, indices: IndicesArg)
    | FixPsi

  /** No modes at all: `modes` is None or False. */
  predicate NoModes(m: ModesArg) { m.ModesNone? || m == ModesFlag(false) }

  /**
    The checks `__init__` makes before the common ones: FixMode and
    FixSumModes need modes, FixSumModes accepts at most one target value;
    then every weight must be positive.
   */
  function InitChecks(kind: Kind, target: Option<seq<real>>, weight: seq<real>): (o: Outcome)
    ensures o.Pass? <==>
      !((kind.FixMode? || kind.FixSumModes?) && NoModes(kind.modes)) &&
      !(kind.FixSumModes? && target.Some? && |target.value| > 1) &&
      forall i :: 0 <= i < |weight| ==> weight[i] > 0.0
    ensures o.Fail? && (kind.FixMode? || kind.FixSumModes?) && NoModes(kind.modes) ==> o.error == ValueError
    ensures (o.Fail? && !((kind.FixMode? || kind.FixSumModes?) && NoModes(kind.modes)) &&
             !(kind.FixSumModes? && target.Some? && |target.value| > 1)) ==> o.error == AssertionError
  {
    if (kind.FixMode? || kind.FixSumModes?) && NoModes(kind.modes) then Fail(ValueError)
    else if kind.FixSumModes? && target.Some? && |target.value| > 1 then Fail(ValueError)
    else InitCheck(weight)
  }

  /** The modes selected from a basis, their basis indices and (explicit modes only) their positions in the request. */
  datatype Selection = Selection(modes: seq<Mode>, idx: seq<nat>, modesIdx: seq<nat>)

  /**
    Mode selection: none for None/False, the whole basis for True, and for an
    explicit array its intersection with the basis, in ascending mode order.
   */
  function Select(basis: seq<Mode>, modes: ModesArg): (s: Selection)
    ensures |s.modes| == |s.idx|
    ensures forall k :: 0 <= k < |s.idx| ==> s.idx[k] < |basis| && basis[s.idx[k]] == s.modes[k]
    ensures Distinct(s.idx)
    ensures NoModes(modes) ==> s.idx == []
    ensures modes == ModesFlag(true) ==> s.modes == basis && forall k :: 0 <= k < |basis| ==> s.idx[k] == k
    ensures modes.ModesList? ==>
      && (forall y :: y in s.modes <==> y in basis && y in modes.modes)
      && StrictlySorted(s.modes)
      && |s.modesIdx| == |s.idx|
      && (forall k :: 0 <= k < |s.idx| ==> s.modesIdx[k] < |modes.modes| && modes.modes[s.modesIdx[k]] == s.modes[k])
      && forall k :: 0 <= k < |s.idx| ==> s.idx[k] == FirstIndex(basis, s.modes[k])
  {
    match modes
    case ModesNone => Selection([], [], [])
    case ModesFlag(all) =>
      if all then Selection(basis, seq(|basis|, k => k), []) else Selection([], [], [])
    case ModesList(given) =>
      var r := Intersect1d(basis, given);
      IntersectIndicesDistinct(basis, given);
      Selection(r.common, r.aIdx, r.bIdx)
  }

  /**
    The mutable state a build sets: the target, dim_f, the matrix A, the
    selected indices (None while `_idx` was never assigned), the sum weights,
    the profile, the normalisation and the built flag.
   */
  datatype State = State(
    target: Option<seq<real>>, dimF: nat, a: Option<seq<seq<real>>>, idx: Option<seq<int>>,
    sumWeights: Option<seq<real>>, profile: Option<seq<real>>, normalization: real, built: bool)

  /** The outcome of a build step together with the state it leaves (a failing step leaves what it had assigned). */
  datatype Step = Step(o: Outcome, st: State)

  /** The target setter: store the target, then re-check the dimensions. */
  function Assign(st: State, t: seq<real>, bounds: Option<(seq<real>, seq<real>)>, weight: seq<real>): (s: Step)
    ensures s.st == st.(target := Some(t))
    ensures s.o == CheckDimensions(st.dimF, Some(t), bounds, weight)
  {
    Step(CheckDimensions(st.dimF, Some(t), bounds, weight), st.(target := Some(t)))
  }

  /** The common `_Objective.build`: check the dimensions, then mark built. */
  function Finish(st: State, bounds: Option<(seq<real>, seq<real>)>, weight: seq<real>): (s: Step)
    ensures s.o.Pass? <==> CheckDimensions(st.dimF, st.target, bounds, weight).Pass?
    ensures s.o.Fail? ==> s.o.error == ValueError && s.st == st
    ensures s.o.Pass? ==> s.st == st.(built := true)
  {
    var o := CheckDimensions(st.dimF, st.target, bounds, weight);
    if o.Fail? then Step(o, st) else Step(Pass, st.(built := true))
  }

  /**
    A target given by the caller is reordered to the selected modes; it only
    makes sense with an explicit mode array: with True/False it is a
    RuntimeError, and with None the reordering reads an unassigned local.
   */
  function GivenTarget(st: State, modes: ModesArg, modesIdx: seq<nat>,
                       bounds: Option<(seq<real>, seq<real>)>, weight: seq<real>): (s: Step)
    requires st.target.Some?
    ensures modes.ModesFlag? ==> s == Step(Fail(RuntimeError), st)
    ensures modes.ModesNone? ==> s == Step(Fail(UnboundLocalError), st)
    ensures modes.ModesList? && !(forall k :: 0 <= k < |modesIdx| ==> modesIdx[k] < |st.target.value|) ==>
      s == Step(Fail(IndexError), st)
    ensures modes.ModesList? && (forall k :: 0 <= k < |modesIdx| ==> modesIdx[k] < |st.target.value|) ==>
      s == Assign(st, Pick(st.target.value, modesIdx), bounds, weight)
  {
    if modes.ModesFlag? then Step(Fail(RuntimeError), st)
    else if modes.ModesNone? then Step(Fail(UnboundLocalError), st)
    else
      match Take(st.target.value, modesIdx)
      case Err(e) => Step(Fail(e), st)
      case Ok(t) =>
        assert (forall k :: 0 <= k < |modesIdx| ==> modesIdx[k] < |st.target.value|) ==> t == Pick(st.target.value, modesIdx);
        Assign(st, t, bounds, weight)
  }

  /** `np.eye(n)[idx, :]`: row k is the unit row of idx[k]. */
  function EyeRows(n: nat, idx: seq<nat>): (a: seq<seq<real>>)
    requires forall k :: 0 <= k < |idx| ==> idx[k] < n
    ensures IsMatrix(a, |idx|, n)
  {
    seq(|idx|, k requires 0 <= k < |idx| => UnitRow(n, idx[k]))
  }

  /** The identity rows pick the selected coefficients: `A @ x == x[idx]`. */
  lemma EyeRowsPick(n: nat, idx: seq<nat>, x: seq<real>)
    requires |x| == n && forall k :: 0 <= k < |idx| ==> idx[k] < n
    ensures MatVec(EyeRows(n, idx), x) == Ok(Pick(x, idx))
  {
    forall k | 0 <= k < |idx| ensures Dot(EyeRows(n, idx)[k], x) == x[idx[k]] {
      UnitRowPicks(n, idx[k], x);
    }
    var r := MatVec(EyeRows(n, idx), x);
    assert r.Ok?;
    assert r.value == Pick(x, idx);
  }

  /** `build` of FixBoundaryR/Z on the fixed-surface path. */
  function BoundarySpec(c: Coord, modes: ModesArg, st: State, eq: Equilibrium,
                        bounds: Option<(seq<real>, seq<real>)>, weight: seq<real>, normalize: bool): Step
    requires eq.Consistent()
  {
    var basis := eq.SurfaceBasis(c);
    var sel := Select(basis, modes);
    BoundaryFrom(|basis|, modes, sel, Pick(eq.SurfaceLmn(c), sel.idx), st, eq.scales(LengthScale), bounds, weight, normalize)
  }

  /**
    FixBoundary once the modes are selected: reorder a given target (or take
    the current coefficients `current` as the target), store the unit rows
    of the n-mode basis, normalise by the length scale when asked, finish.
   */
  function BoundaryFrom(n: nat, modes: ModesArg, sel: Selection, current: seq<real>, st: State, lengthScale: real,
                        bounds: Option<(seq<real>, seq<real>)>, weight: seq<real>, normalize: bool): Step
    requires IndicesIn(sel.idx, n)
  {
    var st1 := st.(dimF := |sel.idx|);
    var s2 := if st1.target.Some? then GivenTarget(st1, modes, sel.modesIdx, bounds, weight) else Step(Pass, st1);
    if s2.o.Fail? then s2
    else
      var st3 := s2.st.(a := Some(EyeRows(n, sel.idx)));
      var s4 := if st3.target.None? then Assign(st3, current, bounds, weight) else Step(Pass, st3);
      if s4.o.Fail? then s4
      else Finish(if normalize then s4.st.(normalization := lengthScale) else s4.st, bounds, weight)
  }

  /** The axis sign of a mode with radial index l: +1 when l // 2 is even, -1 otherwise (floor division; Dafny's / agrees for the divisor 2). */
  function AxisSign(l: int): (s: real)
    ensures s == 1.0 || s == -1.0
    ensures s == 1.0 <==> (l / 2) % 2 == 0
  {
    if (l / 2) % 2 == 0 then 1.0 else -1.0
  }

  /** Entry (j, i) of the axis matrix: the sign of basis mode i when it has m == 0 and the toroidal number ns[j], else 0. */
  function AxisEntry(basis: seq<Mode>, ns: seq<int>, j: nat, i: nat): real
    requires j < |ns| && i < |basis|
  {
    if basis[i].m == 0 && basis[i].n == ns[j] then AxisSign(basis[i].l) else 0.0
  }

  /** The axis matrix of FixAxisR/Z: one row per fixed toroidal number, one column per basis mode. */
  function AxisMatrix(basis: seq<Mode>, ns: seq<int>): (a: seq<seq<real>>)
    ensures IsMatrix(a, |ns|, |basis|)
    ensures forall j, i :: 0 <= j < |ns| && 0 <= i < |basis| ==> a[j][i] == AxisEntry(basis, ns, j, i)
  {
    seq(|ns|, j requires 0 <= j < |ns| => seq(|basis|, i requires 0 <= i < |basis| => AxisEntry(basis, ns, j, i)))
  }

  /** The sum of ±x[i] over the m == 0 modes among the first k with toroidal number n. */
  function SignedSum(basis: seq<Mode>, x: seq<real>, n: int, k: nat): real
    requires k <= |basis| == |x|
  {
    if k == 0 then 0.0
    else
      var term := if basis[k - 1].m == 0 && basis[k - 1].n == n then AxisSign(basis[k - 1].l) * x[k - 1] else 0.0;
      SignedSum(basis, x, n, k - 1) + term
  }

  /** Row j of the axis constraint is the signed sum of the m == 0 coefficients with toroidal number ns[j]. */
  lemma AxisRowDot(basis: seq<Mode>, ns: seq<int>, x: seq<real>, j: nat)
    requires |basis| == |x| && j < |ns|
    ensures Dot(AxisMatrix(basis, ns)[j], x) == SignedSum(basis, x, ns[j], |basis|)
  {
    AxisRowPrefix(basis, ns, x, j, |basis|);
    assert AxisMatrix(basis, ns)[j][..|basis|] == AxisMatrix(basis, ns)[j];
    assert x[..|basis|] == x;
  }

  lemma {:induction false} AxisRowPrefix(basis: seq<Mode>, ns: seq<int>, x: seq<real>, j: nat, k: nat)
    requires |basis| == |x| && j < |ns| && k <= |basis|
    ensures Dot(AxisMatrix(basis, ns)[j][..k], x[..k]) == SignedSum(basis, x, ns[j], k)
  {
    if k > 0 {
      var row := AxisMatrix(basis, ns)[j];
      AxisRowPrefix(basis, ns, x, j, k - 1);
      assert row[..k][..k - 1] == row[..k - 1];
      assert x[..k][..k - 1] == x[..k - 1];
    }
  }

  /** The value of the last of the first k axis modes with toroidal number n, or 0 when there is none. */
  function LastMatch(bs: seq<Mode>, cs: seq<real>, n: int, k: nat): real
    requires k <= |bs| == |cs|
  {
    if k == 0 then 0.0 else if bs[k - 1].n == n then cs[k - 1] else LastMatch(bs, cs, n, k - 1)
  }

  /** The default axis target: for each fixed toroidal number, the axis coefficient of that number. */
  function AxisTarget(bs: seq<Mode>, cs: seq<real>, ns: seq<int>): (t: seq<real>)
    requires |bs| == |cs|
    ensures |t| == |ns| && forall j :: 0 <= j < |ns| ==> t[j] == LastMatch(bs, cs, ns[j], |bs|)
  {
    seq(|ns|, j requires 0 <= j < |ns| => LastMatch(bs, cs, ns[j], |bs|))
  }

  /** The toroidal numbers of the selected modes. */
  function Ns(modes: seq<Mode>): (ns: seq<int>)
    ensures |ns| == |modes| && forall k :: 0 <= k < |modes| ==> ns[k] == modes[k].n
  {
    seq(|modes|, k requires 0 <= k < |modes| => modes[k].n)
  }

  /** `build` of FixAxisR/Z. */
  function AxisSpec(c: Coord, modes: ModesArg, st: State, eq: Equilibrium,
                    bounds: Option<(seq<real>, seq<real>)>, weight: seq<real>): Step
    requires eq.Consistent()
  {
    var sel := Select(eq.AxisBasis(c), modes);
    var ns := Ns(sel.modes);
    var t := if st.target.None? then AxisTarget(eq.AxisBasis(c), eq.AxisCoeffs(c), ns) else [];
    AxisFrom(modes, sel.modesIdx, AxisMatrix(eq.Basis(c), ns), |ns|, t, st, bounds, weight)
  }

  /**
    FixAxisR/Z once the axis rows `m` (dim of them) are known: with no
    target, the setter stores a zero target and checks it (a ValueError
    leaves the zeros), and only then is that array filled with the current
    axis values `t`; a given target is reordered instead; then finish.
   */
  function AxisFrom(modes: ModesArg, modesIdx: seq<nat>, m: seq<seq<real>>, dim: nat, t: seq<real>, st: State,
                    bounds: Option<(seq<real>, seq<real>)>, weight: seq<real>): Step
  {
    var st1 := st.(a := Some(m), dimF := dim);
    var s2 :=
      if st1.target.None? then
        var zeroed := Assign(st1, Zeros(dim), bounds, weight);
        if zeroed.o.Fail? then zeroed else Step(Pass, zeroed.st.(target := Some(t)))
      else GivenTarget(st1, modes, modesIdx, bounds, weight);
    if s2.o.Fail? then s2 else Finish(s2.st, bounds, weight)
  }

  /**
    `build` of FixModeR/Z. With modes True the indices are never stored in
    `_idx`, so the default target, which reads `_idx`, fails unless an earlier
    build stored some.
   */
  function ModeSpec(c: Coord, modes: ModesArg, st: State, eq: Equilibrium,
                    bounds: Option<(seq<real>, seq<real>)>, weight: seq<real>): Step
    requires eq.Consistent() && !NoModes(modes)
  {
    var sel := Select(eq.Basis(c), modes);
    var modesIdx := if modes.ModesFlag? then sel.idx else sel.modesIdx;
    var st1 := if modes.ModesList? then st.(idx := Some(sel.idx), dimF := |modesIdx|) else st.(dimF := |modesIdx|);
    var s2 :=
      if st1.target.None? then
        if st1.idx.None? then Step(Fail(AttributeError), st1)
        else match Take(eq.Lmn(c), st1.idx.value)
          case Err(e) => Step(Fail(e), st1)
          case Ok(t) => Assign(st1, t, bounds, weight)
      else if modes.ModesFlag? then Step(Fail(RuntimeError), st1)
      else GivenTarget(st1, modes, modesIdx, bounds, weight);
    if s2.o.Fail? then s2 else Finish(s2.st, bounds, weight)
  }

  /** The basis positions of the selected modes (`basis.get_idx`). */
  function Positions(basis: seq<Mode>, modes: seq<Mode>): (p: seq<nat>)
    requires forall i :: 0 <= i < |modes| ==> modes[i] in basis
    ensures |p| == |modes| && forall i :: 0 <= i < |modes| ==> p[i] < |basis| && basis[p[i]] == modes[i]
  {
    seq(|modes|, i requires 0 <= i < |modes| => FirstIndex(basis, modes[i]))
  }

  /** Distinct selected modes have distinct positions. */
  lemma PositionsDistinct(basis: seq<Mode>, modes: seq<Mode>)
    requires Distinct(modes) && forall i :: 0 <= i < |modes| ==> modes[i] in basis
    ensures Distinct(Positions(basis, modes))
  {
  }

  /** The weighted-sum row of length n after the first k selected modes wrote their weight at their position p[i]. */
  function SumRow(n: nat, p: seq<nat>, sw: seq<real>, k: nat): (row: seq<real>)
    requires k <= |p| && k <= |sw| && forall i :: 0 <= i < |p| ==> p[i] < n
    ensures |row| == n
  {
    if k == 0 then Zeros(n) else SumRow(n, p, sw, k - 1)[p[k - 1] := sw[k - 1]]
  }

  /** Before mode k writes, the row is zero at every position no earlier mode owns. */
  lemma {:induction false} SumRowUntouched(n: nat, p: seq<nat>, sw: seq<real>, k: nat, j: nat)
    requires k <= |p| && k <= |sw| && forall i :: 0 <= i < |p| ==> p[i] < n
    requires j < n && forall i :: 0 <= i < k ==> p[i] != j
    ensures SumRow(n, p, sw, k)[j] == 0.0
  {
    if k > 0 {
      SumRowUntouched(n, p, sw, k - 1, j);
    }
  }

  /**
    The weighted-sum row dotted with x is the weighted sum of the selected
    coefficients: `A @ x == sum_i sw[i] * x[p[i]]`.
   */
  lemma {:induction false} SumRowDot(n: nat, p: seq<nat>, sw: seq<real>, x: seq<real>, k: nat)
    requires k <= |p| && k <= |sw| && |x| == n && Distinct(p)
    requires forall i :: 0 <= i < |p| ==> p[i] < n
    ensures Dot(SumRow(n, p, sw, k), x) == Dot(sw[..k], Pick(x, p[..k]))
  {
    if k == 0 {
      DotZeros(x);
    } else {
      SumRowStep(n, p, sw, x, k);
      SumRowDot(n, p, sw, x, k - 1);
      WeightedPickStep(p, sw, x, k);
    }
  }

  /** Writing weight k - 1 at its own, untouched position adds that weight times the coefficient there. */
  lemma SumRowStep(n: nat, p: seq<nat>, sw: seq<real>, x: seq<real>, k: nat)
    requires 0 < k <= |p| && k <= |sw| && |x| == n && Distinct(p)
    requires forall i :: 0 <= i < |p| ==> p[i] < n
    ensures Dot(SumRow(n, p, sw, k), x) == Dot(SumRow(n, p, sw, k - 1), x) + sw[k - 1] * x[p[k - 1]]
  {
    SumRowUntouched(n, p, sw, k - 1, p[k - 1]);
    DotUpdate(SumRow(n, p, sw, k - 1), x, p[k - 1], sw[k - 1]);
  }

  lemma WeightedPickStep(p: seq<nat>, sw: seq<real>, x: seq<real>, k: nat)
    requires 0 < k <= |p| && k <= |sw| && forall i :: 0 <= i < |p| ==> p[i] < |x|
    ensures Dot(sw[..k], Pick(x, p[..k])) == Dot(sw[..k - 1], Pick(x, p[..k - 1])) + sw[k - 1] * x[p[k - 1]]
  {
    var u, v := sw[..k], Pick(x, p[..k]);
    assert u[..k - 1] == sw[..k - 1];
    assert v[..k - 1] == Pick(x, p[..k - 1]);
  }

  /**
    `build` of FixSumModesR/Z. With explicit modes the sum weights are
    reordered to the selected modes (and stored so); the row gets weight i at
    the basis position of mode i; a weight list shorter than the modes is an
    IndexError; the default target is the current weighted sum, read through
    `_idx`, which modes True never assigns.
   */
  function SumModesSpec(c: Coord, modes: ModesArg, st: State, eq: Equilibrium,
                        bounds: Option<(seq<real>, seq<real>)>, weight: seq<real>): Step
    requires eq.Consistent() && !NoModes(modes)
  {
    var basis := eq.Basis(c);
    var sel := Select(basis, modes);
    var reweighed := SumModesWeights(modes, sel, st);
    if reweighed.o.Fail? then reweighed
    else SumModesFrom(basis, eq.Lmn(c), sel.modes, reweighed.st, bounds, weight)
  }

  /**
    FixSumModes once the selected modes and their weights are known: the
    weights default to ones, there must be one per selected mode, and the
    row sits at the basis positions of the selected modes. The row is stored
    before it is written, so a weight list that runs out (IndexError) leaves
    the row with the weights written so far.
   */
  function SumModesFrom(basis: seq<Mode>, lmn: seq<real>, selected: seq<Mode>, st: State,
                        bounds: Option<(seq<real>, seq<real>)>, weight: seq<real>): Step
    requires forall i :: 0 <= i < |selected| ==> selected[i] in basis
  {
    var sw := if st.sumWeights.None? then seq(|selected|, _ => 1.0) else st.sumWeights.value;
    var st1 := st.(dimF := 1);
    if |sw| < |selected| then
      Step(Fail(IndexError), st1.(a := Some([SumRow(|basis|, Positions(basis, selected), sw, |sw|)])))
    else SumModesRow(basis, lmn, Positions(basis, selected), sw, st1, bounds, weight)
  }

  /** With explicit modes, FixSumModes stores the selected indices and reorders given sum weights to the selected modes. */
  function SumModesWeights(modes: ModesArg, sel: Selection, st: State): (s: Step)
    ensures s.o.Fail? ==> s.o.error == IndexError
  {
    var st1 := if modes.ModesList? then st.(idx := Some(sel.idx)) else st;
    if modes.ModesList? && st1.sumWeights.Some? then
      match Take(st1.sumWeights.value, sel.modesIdx)
      case Err(e) => Step(Fail(e), st1)
      case Ok(w) => Step(Pass, st1.(sumWeights := Some(w)))
    else Step(Pass, st1)
  }

  /**
    The rest of the FixSumModes build once the weights are known: store the
    row, take the current weighted sum as the default target (through `_idx`;
    a weight list of another length is a ValueError), then finish.
   */
  function SumModesRow(basis: seq<Mode>, lmn: seq<real>, p: seq<nat>, sw: seq<real>, st: State,
                       bounds: Option<(seq<real>, seq<real>)>, weight: seq<real>): Step
    requires |p| <= |sw| && forall i :: 0 <= i < |p| ==> p[i] < |basis|
  {
    var st1 := st.(a := Some([SumRow(|basis|, p, sw, |p|)]));
    var s2 :=
      if st1.target.None? then
        if st1.idx.None? then Step(Fail(AttributeError), st1)
        else match Take(lmn, st1.idx.value)
          case Err(e) => Step(Fail(e), st1)
          case Ok(v) => if |sw| != |v| then Step(Fail(ValueError), st1) else Assign(st1, [Dot(sw, v)], bounds, weight)
      else Step(Pass, st1);
    if s2.o.Fail? then s2 else Finish(s2.st, bounds, weight)
  }

  /** With the indices of the written positions stored, the default weighted-sum target is met by the coefficients it was read from. */
  lemma SumModesRowResidual(basis: seq<Mode>, lmn: seq<real>, p: seq<nat>, sw: seq<real>, st: State,
                            bounds: Option<(seq<real>, seq<real>)>, weight: seq<real>)
    requires |p| <= |sw| && (forall i :: 0 <= i < |p| ==> p[i] < |basis|) && Distinct(p)
    requires |lmn| == |basis| && st.target.None? && st.idx == Some(p)
    ensures var s := SumModesRow(basis, lmn, p, sw, st, bounds, weight);
      s.o.Pass? ==> s.st.a.Some? && s.st.target.Some? && MatVec(s.st.a.value, lmn) == Ok(s.st.target.value)
  {
    var s := SumModesRow(basis, lmn, p, sw, st, bounds, weight);
    if s.o.Pass? {
      TakePick(lmn, p);
      var v := Pick(lmn, p);
      var row := SumRow(|basis|, p, sw, |p|);
      assert |sw| == |v|;
      assert s.st.a == Some([row]) && s.st.target == Some([Dot(sw, v)]);
      SumRowFull(|basis|, p, sw, lmn);
      var m := MatVec([row], lmn);
      assert m.Ok?;
      assert m.value == [Dot(row, lmn)];
    }
  }

  /** The complete weighted-sum row dotted with x: `sum_i sw[i] * x[p[i]]`. */
  lemma SumRowFull(n: nat, p: seq<nat>, sw: seq<real>, x: seq<real>)
    requires |p| == |sw| && |x| == n && Distinct(p) && forall i :: 0 <= i < |p| ==> p[i] < n
    ensures Dot(SumRow(n, p, sw, |p|), x) == Dot(sw, Pick(x, p))
  {
    SumRowDot(n, p, sw, x, |p|);
    assert sw[..|p|] == sw;
    assert p[..|p|] == p;
  }

  /** `build` of FixThetaSFL: every lambda mode is fixed to zero. */
  function ThetaSpec(st: State, eq: Equilibrium, bounds: Option<(seq<real>, seq<real>)>, weight: seq<real>): Step {
    var n := eq.lNumModes;
    var st1 := st.(idx := Some(seq(n, k => k)), dimF := n);
    var s2 := Assign(st1, Zeros(n), bounds, weight);
    if s2.o.Fail? then s2 else Finish(s2.st, bounds, weight)
  }

  /** The scale a profile objective normalises by, if any. */
  function ProfileScale(p: ProfileKind): Option<Scale> {
    match p
    case Pressure => Some(PressureScale)
    case Current => Some(CurrentScale)
    case ElectronTemperature => Some(TemperatureScale)
    case IonTemperature => Some(TemperatureScale)
    case ElectronDensity => Some(DensityScale)
    case Iota => None
    case AtomicNumber => None
  }

  /** The profile indices: none for None/False, all parameters for True, else the given ones. */
  function ProfileIndices(indices: IndicesArg, params: seq<real>): (idx: seq<int>)
    ensures indices.IndicesNone? || indices == IndicesFlag(false) ==> idx == []
    ensures indices == IndicesFlag(true) ==> |idx| == |params| && forall k :: 0 <= k < |idx| ==> idx[k] == k
    ensures indices.IndicesList? ==> idx == indices.indices
  {
    match indices
    case IndicesNone => []
    case IndicesFlag(all) => if all then seq(|params|, k => k) else []
    case IndicesList(given) => given
  }

  /**
    `build` of a profile objective: RuntimeError when the equilibrium has no
    such profile; a profile given at construction is kept only when it has
    L + 1 parameters; the default target is the selected parameters.
   */
  function ProfileSpec(p: ProfileKind, indices: IndicesArg, st: State, eq: Equilibrium,
                       bounds: Option<(seq<real>, seq<real>)>, weight: seq<real>, normalize: bool): Step
  {
    if p !in eq.profiles then Step(Fail(RuntimeError), st)
    else
      var scale := if normalize && ProfileScale(p).Some? then eq.scales(ProfileScale(p).value) else st.normalization;
      var profile := if st.profile.None? || |st.profile.value| != eq.bigL + 1 then eq.profiles[p] else st.profile.value;
      ProfileFix(indices, profile, st.(normalization := scale, profile := Some(profile)), bounds, weight)
  }

  /** The indices of the profile parameters to fix, dim_f, and by default the selected parameters as the target. */
  function ProfileFix(indices: IndicesArg, params: seq<real>, st: State,
                      bounds: Option<(seq<real>, seq<real>)>, weight: seq<real>): Step
  {
    var idx := ProfileIndices(indices, params);
    var st1 := st.(idx := Some(idx), dimF := |idx|);
    var s2 :=
      if st1.target.None? then
        match Take(params, idx)
        case Err(e) => Step(Fail(e), st1)
        case Ok(t) => Assign(st1, t, bounds, weight)
      else Step(Pass, st1);
    if s2.o.Fail? then s2 else Finish(s2.st, bounds, weight)
  }

  /** `build` of FixPsi: one equation, the enclosed flux of the equilibrium by default. */
  function PsiSpec(st: State, eq: Equilibrium, bounds: Option<(seq<real>, seq<real>)>, weight: seq<real>, normalize: bool): Step {
    var st1 := st.(dimF := 1);
    var s2 := if st1.target.None? then Assign(st1, [eq.psi], bounds, weight) else Step(Pass, st1);
    if s2.o.Fail? then s2
    else Finish(if normalize then s2.st.(normalization := eq.scales(FluxScale)) else s2.st, bounds, weight)
  }

  /** A kind that `__init__` accepted. */
  predicate Admissible(kind: Kind) {
    (kind.FixMode? || kind.FixSumModes?) ==> !NoModes(kind.modes)
  }

  /** `build` of any linear objective. */
  function BuildSpec(kind: Kind, st: State, eq: Equilibrium,
                     bounds: Option<(seq<real>, seq<real>)>, weight: seq<real>, normalize: bool): Step
    requires eq.Consistent() && Admissible(kind)
  {
    match kind
    case FixBoundary(c, modes) => BoundarySpec(c, modes, st, eq, bounds, weight, normalize)
    case FixAxis(c, modes) => AxisSpec(c, modes, st, eq, bounds, weight)
    case FixMode(c, modes) => ModeSpec(c, modes, st, eq, bounds, weight)
    case FixSumModes(c, modes) => SumModesSpec(c, modes, st, eq, bounds, weight)
    case FixThetaSFL => ThetaSpec(st, eq, bounds, weight)
    case FixProfile(p, indices) => ProfileSpec(p, indices, st, eq, bounds, weight, normalize)
    case FixPsi => PsiSpec(st, eq, bounds, weight, normalize)
  }

  /**
    `compute`: `A @ x` for the matrix objectives, `x[idx]` for the
    index objectives, x itself for FixPsi; AttributeError when what it reads
    was never built.
   */
  function Compute(kind: Kind, st: State, x: seq<real>): (r: Result<seq<real>>)
    ensures (kind.FixBoundary? || kind.FixAxis? || kind.FixSumModes?) ==>
      r == (if st.a.None? then Err(AttributeError) else MatVec(st.a.value, x))
    ensures (kind.FixMode? || kind.FixThetaSFL? || kind.FixProfile?) ==>
      r == (if st.idx.None? then Err(AttributeError) else Take(x, st.idx.value))
    ensures kind.FixPsi? ==> r == Ok(x)
  {
    match kind
    case FixPsi => Ok(x)
    case FixBoundary(_, _) => if st.a.None? then Err(AttributeError) else MatVec(st.a.value, x)
    case FixAxis(_, _) => if st.a.None? then Err(AttributeError) else MatVec(st.a.value, x)
    case FixSumModes(_, _) => if st.a.None? then Err(AttributeError) else MatVec(st.a.value, x)
    case _ => if st.idx.None? then Err(AttributeError) else Take(x, st.idx.value)
  }

  // What a successful build guarantees.

  /** A fixed-surface objective built with its default target has zero residual at the surface it was built from. */
  lemma BoundaryDefaultResidual(c: Coord, modes: ModesArg, st: State, eq: Equilibrium,
                                bounds: Option<(seq<real>, seq<real>)>, weight: seq<real>, normalize: bool)
    requires eq.Consistent() && st.target.None?
    ensures var s := BoundarySpec(c, modes, st, eq, bounds, weight, normalize);
      s.o.Pass? ==> Compute(FixBoundary(c, modes), s.st, eq.SurfaceLmn(c)) == Ok(s.st.target.value)
  {
    var sel := Select(eq.SurfaceBasis(c), modes);
    EyeRowsPick(|eq.SurfaceBasis(c)|, sel.idx, eq.SurfaceLmn(c));
  }

  /**
    A target given with explicit modes is reordered to the selected modes:
    row k of the built objective fixes basis mode idx[k] to the target value
    given for that same mode.
   */
  lemma BoundaryTargetFollowsModes(c: Coord, modes: ModesArg, st: State, eq: Equilibrium,
                                   bounds: Option<(seq<real>, seq<real>)>, weight: seq<real>, normalize: bool)
    requires eq.Consistent() && st.target.Some? && modes.ModesList?
    ensures var s := BoundarySpec(c, modes, st, eq, bounds, weight, normalize);
      var basis := eq.SurfaceBasis(c);
      var sel := Select(basis, modes);
      s.o.Pass? ==>
        && s.st.target.Some? && s.st.a.Some?
        && |s.st.target.value| == |sel.idx| == |s.st.a.value| == s.st.dimF
        && forall k :: 0 <= k < |sel.idx| ==>
             && sel.modesIdx[k] < |st.target.value|
             && s.st.target.value[k] == st.target.value[sel.modesIdx[k]]
             && basis[sel.idx[k]] == modes.modes[sel.modesIdx[k]]
             && s.st.a.value[k] == UnitRow(|basis|, sel.idx[k])
  {
  }

  /** The last axis mode with a toroidal number is the only one when those numbers are distinct. */
  lemma {:induction false} LastMatchUnique(bs: seq<Mode>, cs: seq<real>, j: nat, k: nat)
    requires j < k <= |bs| == |cs|
    requires forall a, b :: 0 <= a < b < |bs| ==> bs[a].n != bs[b].n
    ensures LastMatch(bs, cs, bs[j].n, k) == cs[j]
  {
    if j < k - 1 {
      LastMatchUnique(bs, cs, j, k - 1);
    }
  }

  /**
    FixAxis with all modes and its default target fixes each axis coefficient
    to its current value, when the axis modes have distinct toroidal numbers.
   */
  lemma AxisDefaultAll(c: Coord, st: State, eq: Equilibrium, bounds: Option<(seq<real>, seq<real>)>, weight: seq<real>)
    requires eq.Consistent() && st.target.None?
    requires forall a, b :: 0 <= a < b < |eq.AxisBasis(c)| ==> eq.AxisBasis(c)[a].n != eq.AxisBasis(c)[b].n
    ensures var s := AxisSpec(c, ModesFlag(true), st, eq, bounds, weight);
      s.o.Pass? ==> s.st.target == Some(eq.AxisCoeffs(c))
  {
    var bs, cs := eq.AxisBasis(c), eq.AxisCoeffs(c);
    var t := AxisTarget(bs, cs, Ns(bs));
    forall j | 0 <= j < |bs| ensures t[j] == cs[j] {
      LastMatchUnique(bs, cs, j, |bs|);
    }
    assert t == cs;
    assert Select(bs, ModesFlag(true)).modes == bs;
  }

  /**
    The FixAxis rows: row j of A @ x is the sum of +-x over the m == 0 basis
    modes with the j-th fixed toroidal number, the sign alternating with l / 2.
   */
  lemma AxisComputeRows(c: Coord, modes: ModesArg, st: State, eq: Equilibrium,
                        bounds: Option<(seq<real>, seq<real>)>, weight: seq<real>, x: seq<real>)
    requires eq.Consistent() && |x| == |eq.Basis(c)|
    ensures var s := AxisSpec(c, modes, st, eq, bounds, weight);
      var ns := Ns(Select(eq.AxisBasis(c), modes).modes);
      s.o.Pass? ==>
        && Compute(FixAxis(c, modes), s.st, x).Ok?
        && |Compute(FixAxis(c, modes), s.st, x).value| == |ns| == s.st.dimF
        && forall j :: 0 <= j < |ns| ==> Compute(FixAxis(c, modes), s.st, x).value[j] == SignedSum(eq.Basis(c), x, ns[j], |x|)
  {
    var ns := Ns(Select(eq.AxisBasis(c), modes).modes);
    var s := AxisSpec(c, modes, st, eq, bounds, weight);
    if s.o.Pass? {
      var a := AxisMatrix(eq.Basis(c), ns);
      assert s.st.a == Some(a) && s.st.dimF == |ns|;
      forall j | 0 <= j < |ns| ensures Dot(a[j], x) == SignedSum(eq.Basis(c), x, ns[j], |x|) {
        AxisRowDot(eq.Basis(c), ns, x, j);
      }
    }
  }

  /** FixMode built with its default target has zero residual at the coefficients it was built from. */
  lemma ModeDefaultResidual(c: Coord, modes: ModesArg, st: State, eq: Equilibrium,
                            bounds: Option<(seq<real>, seq<real>)>, weight: seq<real>)
    requires eq.Consistent() && !NoModes(modes) && st.target.None?
    ensures var s := ModeSpec(c, modes, st, eq, bounds, weight);
      s.o.Pass? ==> Compute(FixMode(c, modes), s.st, eq.Lmn(c)) == Ok(s.st.target.value)
  {
  }

  /**
    FixMode with modes True on a fresh objective never builds: the default
    target reads indices that were never stored, and a given target is refused.
   */
  lemma ModeAllNeverBuilds(c: Coord, st: State, eq: Equilibrium, bounds: Option<(seq<real>, seq<real>)>, weight: seq<real>)
    requires eq.Consistent() && st.idx.None? && !st.built
    ensures var s := ModeSpec(c, ModesFlag(true), st, eq, bounds, weight);
      s.o == Fail(if st.target.None? then AttributeError else RuntimeError) && !s.st.built
  {
  }

  /**
    FixSumModes with explicit modes and its default target has zero residual
    at the coefficients it was built from: the row holds weight i at the
    basis position of mode i, and the target is the weighted sum.
   */
  lemma SumModesDefaultResidual(c: Coord, modes: ModesArg, st: State, eq: Equilibrium,
                                bounds: Option<(seq<real>, seq<real>)>, weight: seq<real>)
    requires eq.Consistent() && modes.ModesList? && st.target.None?
    ensures var s := SumModesSpec(c, modes, st, eq, bounds, weight);
      s.o.Pass? ==> Compute(FixSumModes(c, modes), s.st, eq.Lmn(c)) == Ok(s.st.target.value)
  {
    var s := SumModesSpec(c, modes, st, eq, bounds, weight);
    if s.o.Pass? {
      var p, sw, st3 := SumModesSpecRow(c, modes, st, eq, bounds, weight);
      SumModesRowResidual(eq.Basis(c), eq.Lmn(c), p, sw, st3, bounds, weight);
    }
  }

  /** With explicit modes, a FixSumModes build that gets past the weights is SumModesRow at the stored positions. */
  lemma SumModesSpecRow(c: Coord, modes: ModesArg, st: State, eq: Equilibrium,
                        bounds: Option<(seq<real>, seq<real>)>, weight: seq<real>)
    returns (p: seq<nat>, sw: seq<real>, st3: State)
    requires eq.Consistent() && modes.ModesList? && st.target.None?
    requires SumModesSpec(c, modes, st, eq, bounds, weight).o.Pass?
    ensures |p| <= |sw| && (forall i :: 0 <= i < |p| ==> p[i] < |eq.Basis(c)|) && Distinct(p)
    ensures st3.target.None? && st3.idx == Some(p)
    ensures SumModesSpec(c, modes, st, eq, bounds, weight) == SumModesRow(eq.Basis(c), eq.Lmn(c), p, sw, st3, bounds, weight)
  {
    var basis := eq.Basis(c);
    var sel := Select(basis, modes);
    p := Positions(basis, sel.modes);
    assert p == sel.idx;
    var st2 := SumModesWeights(modes, sel, st).st;
    sw := if st2.sumWeights.None? then seq(|sel.modes|, _ => 1.0) else st2.sumWeights.value;
    st3 := st2.(dimF := 1);
  }

  /** FixSumModes with modes True and no target on a fresh objective never builds: the default target reads indices never stored. */
  lemma SumModesAllNeedsTarget(c: Coord, st: State, eq: Equilibrium, bounds: Option<(seq<real>, seq<real>)>, weight: seq<real>)
    requires eq.Consistent() && st.idx.None? && st.target.None?
    ensures SumModesSpec(c, ModesFlag(true), st, eq, bounds, weight).o.Fail?
  {
  }

  /** FixThetaSFL is satisfied exactly by an all-zero lambda. */
  lemma ThetaZero(st: State, eq: Equilibrium, bounds: Option<(seq<real>, seq<real>)>, weight: seq<real>, lmn: seq<real>)
    requires |lmn| == eq.lNumModes
    ensures var s := ThetaSpec(st, eq, bounds, weight);
      s.o.Pass? ==> (Compute(FixThetaSFL, s.st, lmn) == Ok(s.st.target.value) <==> forall k :: 0 <= k < |lmn| ==> lmn[k] == 0.0)
  {
    var s := ThetaSpec(st, eq, bounds, weight);
    if s.o.Pass? {
      var n := eq.lNumModes;
      TakePick(lmn, seq(n, k => k));
      assert Pick(lmn, seq(n, k => k)) == lmn;
      if forall k :: 0 <= k < |lmn| ==> lmn[k] == 0.0 {
        assert lmn == Zeros(n);
      }
    }
  }

  /** A profile objective built with its default target has zero residual at the profile parameters it stored. */
  lemma ProfileDefaultResidual(p: ProfileKind, indices: IndicesArg, st: State, eq: Equilibrium,
                               bounds: Option<(seq<real>, seq<real>)>, weight: seq<real>, normalize: bool)
    requires st.target.None?
    ensures var s := ProfileSpec(p, indices, st, eq, bounds, weight, normalize);
      s.o.Pass? ==> s.st.profile.Some? && Compute(FixProfile(p, indices), s.st, s.st.profile.value) == Ok(s.st.target.value)
  {
  }

  /** A profile objective needs the equilibrium to have that profile. */
  lemma ProfileMissing(p: ProfileKind, indices: IndicesArg, st: State, eq: Equilibrium,
                       bounds: Option<(seq<real>, seq<real>)>, weight: seq<real>, normalize: bool)
    ensures ProfileSpec(p, indices, st, eq, bounds, weight, normalize).o.Pass? ==> p in eq.profiles
    ensures p !in eq.profiles ==> ProfileSpec(p, indices, st, eq, bounds, weight, normalize) == Step(Fail(RuntimeError), st)
  {
  }

  /** FixPsi built with its default target has zero residual at the flux it was built from. */
  lemma PsiDefaultResidual(st: State, eq: Equilibrium, bounds: Option<(seq<real>, seq<real>)>, weight: seq<real>, normalize: bool)
    requires st.target.None?
    ensures var s := PsiSpec(st, eq, bounds, weight, normalize);
      s.o.Pass? ==> Compute(FixPsi, s.st, [eq.psi]) == Ok(s.st.target.value)
  {
  }
}
