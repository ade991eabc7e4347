/**
  The control skeleton of `lsqtr`, the least-squares trust-region driver:
  option defaults popped from the caller's dictionary, the outer loop with
  its gradient test, the inner retry loop that accepts a step only when it
  lowers the cost, the evaluation counters and the iterate and radius
  histories. The numerics it delegates (the residual function and its
  Jacobian, norms, reciprocals of the scale, the exact trust-region step and
  its SVD, the quadratic model, the radius update, the termination test, the
  Jacobian scaling and the callback) are parameters.
 */
module LeastSquares {
  import opened Common
  import opened OptionsDicts

  /** The order of a vector norm: `np.inf` or a number. */
  datatype Ord = Inf | Order(p: real)

  /** What `trust_region_step_exact` returns: the scaled step, whether it reaches the boundary and the new LM parameter, or a LinAlgError. */
  datatype Solved = Solution(stepH: seq<real>, hitsBoundary: bool, alpha: Option<real>) | LinAlgFailure

  /** The trust-radius update parameters. */
  datatype TrParams = TrParams(maxRadius: real, minRadius: real, incThreshold: real, incRatio: real,
                               decThreshold: real, decRatio: real)

  /** The arguments handed to `check_termination`. */
  datatype TermArgs = TermArgs(actualReduction: real, cost: real, stepNorm: real, xNorm: real, gNorm: real,
                               ratio: real, ftol: real, xtol: real, gtol: real, iteration: nat, maxiter: real,
                               nfev: nat, maxNfev: real, njev: nat, maxNjev: real)

  /**
    The numerical routines `lsqtr` calls. `alpha == None` stands for the NaN
    the LM parameter starts as.
   */
  datatype Oracles = Oracles(
    fun: seq<real> -> seq<real>,
    jac: seq<real> -> seq<seq<real>>,
    norm: (seq<real>, Ord) -> real,
    recip: seq<real> -> seq<real>,
    jacScale: (seq<seq<real>>, Option<seq<real>>) -> (seq<real>, seq<real>),
    solve: (seq<real>, seq<seq<real>>, seq<real>, real, Option<real>) -> Solved,
    gaRhs: (seq<real>, seq<real>, seq<seq<real>>, seq<real>, seq<real>, real) -> seq<real>,
    quadratic: (seq<seq<real>>, seq<real>, seq<real>, seq<real>) -> real,
    updateRadius: (real, real, real, real, bool, TrParams) -> (real, real),
    rescaleAlpha: (Option<real>, real, real) -> Option<real>,
    terminate: TermArgs -> (Option<bool>, Option<string>),
    callback: Option<seq<real> -> bool>)

  /** The problem has n unknowns and m residuals, and every routine returns vectors of those sizes. */
  ghost predicate Shaped(o: Oracles, n: nat, m: nat) {
    && (forall v :: |o.fun(v)| == m)
    && (forall v :: IsMatrix(o.jac(v), m, n))
    && (forall v :: |o.recip(v)| == |v|)
    && (forall a, s :: |o.jacScale(a, s).0| == n && |o.jacScale(a, s).1| == n)
    && (forall r, a, s, t, al :: o.solve(r, a, s, t, al).Solution? ==> |o.solve(r, a, s, t, al).stepH| == n)
  }

  /** `success`: None, a bool, or the one-element tuple `(False,)`. */
  datatype Success = Undecided | Decided(ok: bool) | FalseTuple

  /** Python truth value of `success`: a non-empty tuple is true. */
  predicate Truthy(s: Success) {
    s == Decided(true) || s.FalseTuple?
  }

  /** `message`: never assigned, a status message (possibly wrapped in a one-element tuple), or what `check_termination` reported. */
  datatype Message = Unbound | Status(key: string) | StatusTuple(key: string) | Reported(text: Option<string>)

  /** `x_scale`: a string, or numbers broadcast to the shape of x. */
  datatype XScale = Named(name: string) | Values(v: seq<real>)

  /** The settings `lsqtr` resolves before its loop. */
  datatype Settings = Settings(
    maxiter: real, maxNfev: real, maxNjev: real, gnormOrd: Ord, xnormOrd: Ord,
    gaFdStep: real, gaTrRatio: real, returnAll: bool, returnTr: bool,
    jacScaling: bool, scale: seq<real>, scaleInv: seq<real>, radius: real, tr: TrParams)

  /** The result `lsqtr` returns. */
  datatype LsqResult = LsqResult(
    x: seq<real>, success: Success, cost: real, fun: seq<real>, grad: seq<real>, jac: seq<seq<real>>,
    optimality: real, nfev: nat, njev: nat, nit: nat, message: Message,
    allx: Option<seq<seq<real>>>, alltr: Option<seq<real>>)

  /** The cost of a residual vector: `0.5 * f . f`. */
  function Cost(f: seq<real>): real {
    0.5 * Dot(f, f)
  }

  /** Elementwise product of two vectors of one length. */
  function Mul(u: seq<real>, v: seq<real>): (r: seq<real>)
    requires |u| == |v|
    ensures |r| == |u| && forall i :: 0 <= i < |u| ==> r[i] == u[i] * v[i]
  {
    seq(|u|, i requires 0 <= i < |u| => u[i] * v[i])
  }

  /** Elementwise sum of two vectors of one length. */
  function Add(u: seq<real>, v: seq<real>): (r: seq<real>)
    requires |u| == |v|
    ensures |r| == |u| && forall i :: 0 <= i < |u| ==> r[i] == u[i] + v[i]
  {
    seq(|u|, i requires 0 <= i < |u| => u[i] + v[i])
  }

  /** The keys `lsqtr` pops, group by group in the order it pops them; any other key is refused. */
  const LimitKeys: set<string> := {"max_nfev", "max_njev", "gnorm_ord", "xnorm_ord"}
  const StepKeys: set<string> := {"ga_fd_step", "ga_tr_ratio", "return_all", "return_tr"}
  const RadiusKeys: set<string> := {"initial_trust_radius", "max_trust_radius"}
  const TrKeys: set<string> := {"min_trust_radius", "tr_increase_threshold", "tr_decrease_threshold",
                                "tr_increase_ratio", "tr_decrease_ratio"}
  const KnownKeys: set<string> := LimitKeys + StepKeys + RadiusKeys + TrKeys

  /**
    The scale of the variables: from the Jacobian for "jac" or "auto", else
    the given numbers broadcast to the size of x and their reciprocals; any
    other string cannot be inverted (TypeError) and numbers of another size
    cannot be broadcast (ValueError).
   */
  function Scaling(xScale: XScale, jac: seq<seq<real>>, n: nat, o: Oracles): (r: Result<(seq<real>, seq<real>, bool)>)
    requires Shaped(o, n, |jac|)
    ensures r.Ok? ==> |r.value.0| == n && |r.value.1| == n
    ensures r.Ok? && r.value.2 <==> xScale.Named? && (xScale.name == "jac" || xScale.name == "auto")
    ensures r.Err? <==> (xScale.Named? && xScale.name != "jac" && xScale.name != "auto") ||
                        (xScale.Values? && |xScale.v| != 1 && |xScale.v| != n)
  {
    match xScale
    case Named(name) =>
      if name == "jac" || name == "auto" then
        var (s, si) := o.jacScale(jac, None);
        Ok((s, si, true))
      else Err(TypeError)
    case Values(v) =>
      if |v| == n then Ok((v, o.recip(v), false))
      else if |v| == 1 then
        var s := seq(n, _ => v[0]);
        Ok((s, o.recip(s), false))
      else Err(ValueError)
  }

  /**
    The trust radii AS WRITTEN: the default maximum is 1000 times the initial
    radius before a zero initial radius is replaced by 1.0.
   */
  function RadiiAsWritten(d: map<string, real>, defaultRadius: real): (r: (real, real))
  {
    var initial := if "initial_trust_radius" in d then d["initial_trust_radius"] else defaultRadius;
    var maximum := if "max_trust_radius" in d then d["max_trust_radius"] else initial * 1000.0;
    (if initial == 0.0 then 1.0 else initial, maximum)
  }

  /** Starting from x0 = 0 with no radius options, the written defaults give a maximum radius below the initial one. */
  lemma RadiiInverted()
    ensures RadiiAsWritten(map[], 0.0) == (1.0, 0.0)
    ensures RadiiAsWritten(map[], 0.0).1 < RadiiAsWritten(map[], 0.0).0
  {
  }

  /** The trust radii as intended: the default maximum is 1000 times the radius actually used. */
  function Radii(d: map<string, real>, defaultRadius: real): (r: (real, real))
    ensures r.0 != 0.0
    ensures "initial_trust_radius" in d && d["initial_trust_radius"] != 0.0 ==> r.0 == d["initial_trust_radius"]
    ensures "initial_trust_radius" !in d && defaultRadius != 0.0 ==> r.0 == defaultRadius
    ensures "max_trust_radius" in d ==> r.1 == d["max_trust_radius"]
    ensures "max_trust_radius" !in d && r.0 > 0.0 ==> r.1 >= r.0
  {
    var initial := if "initial_trust_radius" in d then d["initial_trust_radius"] else defaultRadius;
    var used := if initial == 0.0 then 1.0 else initial;
    (used, if "max_trust_radius" in d then d["max_trust_radius"] else used * 1000.0)
  }

  function Get(d: map<string, real>, key: string, default: real): real {
    if key in d then d[key] else default
  }

  /** The maximum iteration count: the caller's, or 100 per unknown. */
  function MaxIter(maxiter: Option<real>, n: nat): real {
    if maxiter.Some? then maxiter.value else (n * 100) as real
  }

  /** The evaluation limits and the norms. */
  datatype Limits = Limits(maxNfev: real, maxNjev: real, gnormOrd: Ord, xnormOrd: Ord)

  /** Popping the limits: max_nfev defaults to maxiter, max_njev to max_nfev, the gradient norm to the max norm. */
  function PopLimits(d: map<string, real>, maxiter: real): (r: (Limits, map<string, real>))
    ensures r.1 == d - LimitKeys
    ensures r.0.maxNfev == Get(d, "max_nfev", maxiter) && r.0.maxNjev == Get(d, "max_njev", r.0.maxNfev)
    ensures r.0.gnormOrd == (if "gnorm_ord" in d then Order(d["gnorm_ord"]) else Inf)
    ensures r.0.xnormOrd == Order(Get(d, "xnorm_ord", 2.0))
  {
    var (maxNfev, d1) := Popped(d, "max_nfev", maxiter);
    var (maxNjev, d2) := Popped(d1, "max_njev", maxNfev);
    var gnormOrd := if "gnorm_ord" in d2 then Order(d2["gnorm_ord"]) else Inf;
    var d3 := Popped(d2, "gnorm_ord", 0.0).1;
    var (xnormOrd, d4) := Popped(d3, "xnorm_ord", 2.0);
    (Limits(maxNfev, maxNjev, gnormOrd, Order(xnormOrd)), d4)
  }

  /** The geodesic-acceleration settings and the history flags. */
  datatype StepOptions = StepOptions(gaFdStep: real, gaTrRatio: real, returnAll: bool, returnTr: bool)

  /** Popping them: a 1e-3 probe step, no acceleration, both histories kept. */
  function PopStepOptions(d: map<string, real>): (r: (StepOptions, map<string, real>))
    ensures r.1 == d - StepKeys
    ensures r.0.gaFdStep == Get(d, "ga_fd_step", 0.001) && r.0.gaTrRatio == Get(d, "ga_tr_ratio", 0.0)
    ensures r.0.returnAll == (Get(d, "return_all", 1.0) != 0.0) && r.0.returnTr == (Get(d, "return_tr", 1.0) != 0.0)
  {
    var (gaFdStep, d1) := Popped(d, "ga_fd_step", 0.001);
    var (gaTrRatio, d2) := Popped(d1, "ga_tr_ratio", 0.0);
    var (returnAll, d3) := Popped(d2, "return_all", 1.0);
    var (returnTr, d4) := Popped(d3, "return_tr", 1.0);
    (StepOptions(gaFdStep, gaTrRatio, returnAll != 0.0, returnTr != 0.0), d4)
  }

  /** Popping the initial and maximum radius, a zero initial radius replaced by 1.0 before the maximum's default is taken. */
  function PopRadii(d: map<string, real>, defaultRadius: real): (r: (real, real, map<string, real>))
    ensures (r.0, r.1) == Radii(d, defaultRadius)
    ensures r.2 == d - RadiusKeys
  {
    var (initial, d1) := Popped(d, "initial_trust_radius", defaultRadius);
    var radius := if initial == 0.0 then 1.0 else initial;
    var (maxRadius, d2) := Popped(d1, "max_trust_radius", radius * 1000.0);
    (radius, maxRadius, d2)
  }

  /** Popping the radius-update parameters: thresholds 0.75 and 0.25, ratios 2 and 0.25, no minimum radius. */
  function PopTrParams(d: map<string, real>, maxRadius: real): (r: (TrParams, map<string, real>))
    ensures r.1 == d - TrKeys
    ensures r.0 == TrParams(maxRadius, Get(d, "min_trust_radius", 0.0), Get(d, "tr_increase_threshold", 0.75),
                            Get(d, "tr_increase_ratio", 2.0), Get(d, "tr_decrease_threshold", 0.25),
                            Get(d, "tr_decrease_ratio", 0.25))
  {
    var (minRadius, d1) := Popped(d, "min_trust_radius", 0.0);
    var (incThreshold, d2) := Popped(d1, "tr_increase_threshold", 0.75);
    var (decThreshold, d3) := Popped(d2, "tr_decrease_threshold", 0.25);
    var (incRatio, d4) := Popped(d3, "tr_increase_ratio", 2.0);
    var (decRatio, d5) := Popped(d4, "tr_decrease_ratio", 0.25);
    (TrParams(maxRadius, minRadius, incThreshold, incRatio, decThreshold, decRatio), d5)
  }

  /**
    Option resolution in the order `lsqtr` does it: pop the limits and step
    options, work out the scale, pop the radii (the default radius is
    |x0 / x_scale|) and the radius-update parameters, then refuse any key
    left over. Returns the settings and the dictionary as the caller sees it
    afterwards.
   */
  function Resolve(d: map<string, real>, maxiter: Option<real>, x0: seq<real>, xScale: XScale,
                   jac: seq<seq<real>>, o: Oracles): (r: (Result<Settings>, map<string, real>))
    requires Shaped(o, |x0|, |jac|)
    ensures r.0.Ok? ==> r.1 == map[] && |r.0.value.scale| == |x0| && |r.0.value.scaleInv| == |x0|
  {
    var mi := MaxIter(maxiter, |x0|);
    var (limits, d1) := PopLimits(d, mi);
    var (steps, d2) := PopStepOptions(d1);
    match Scaling(xScale, jac, |x0|, o)
    case Err(e) => (Err(e), d2)
    case Ok((scale, scaleInv, jacScaling)) =>
      var (radius, maxRadius, d3) := PopRadii(d2, o.norm(Mul(x0, scaleInv), Order(2.0)));
      var (tr, d4) := PopTrParams(d3, maxRadius);
      if d4.Keys != {} then (Err(ValueError), d4)
      else
        (Ok(Settings(mi, limits.maxNfev, limits.maxNjev, limits.gnormOrd, limits.xnormOrd, steps.gaFdStep,
                     steps.gaTrRatio, steps.returnAll, steps.returnTr, jacScaling, scale, scaleInv, radius, tr)),
         d4)
  }

  /** With usable scaling, what is left after resolution is exactly the unknown keys, and any of them is a ValueError. */
  lemma ResolveRejectsUnknown(d: map<string, real>, maxiter: Option<real>, x0: seq<real>, xScale: XScale,
                              jac: seq<seq<real>>, o: Oracles)
    requires Shaped(o, |x0|, |jac|) && Scaling(xScale, jac, |x0|, o).Ok?
    ensures Resolve(d, maxiter, x0, xScale, jac, o).1 == d - KnownKeys
    ensures Resolve(d, maxiter, x0, xScale, jac, o).0.Ok? <==> d.Keys <= KnownKeys
    ensures !(d.Keys <= KnownKeys) ==> Resolve(d, maxiter, x0, xScale, jac, o).0 == Err(ValueError)
  {
    ResolveLeaves(d, maxiter, x0, xScale, jac, o);
    MinusUnion(d, LimitKeys, StepKeys, RadiusKeys, TrKeys);
    var left := d - KnownKeys;
    if !(d.Keys <= KnownKeys) {
      var k :| k in d && k !in KnownKeys;
      assert k in left;
    }
  }

  /** With usable scaling, resolution pops the four option groups one after the other. */
  lemma ResolveLeaves(d: map<string, real>, maxiter: Option<real>, x0: seq<real>, xScale: XScale,
                      jac: seq<seq<real>>, o: Oracles)
    requires Shaped(o, |x0|, |jac|) && Scaling(xScale, jac, |x0|, o).Ok?
    ensures Resolve(d, maxiter, x0, xScale, jac, o).1 == d - LimitKeys - StepKeys - RadiusKeys - TrKeys
    ensures Resolve(d, maxiter, x0, xScale, jac, o).0.Ok? <==> Resolve(d, maxiter, x0, xScale, jac, o).1.Keys == {}
    ensures Resolve(d, maxiter, x0, xScale, jac, o).0.Err? ==> Resolve(d, maxiter, x0, xScale, jac, o).0 == Err(ValueError)
  {
  }

  /** Removing four key sets one after the other removes their union. */
  lemma MinusUnion(d: map<string, real>, a: set<string>, b: set<string>, c: set<string>, e: set<string>)
    ensures d - a - b - c - e == d - (a + b + c + e)
  {
  }

  /** An unusable x_scale is refused after the limit and step options were already popped. */
  lemma ResolveBadScale(d: map<string, real>, maxiter: Option<real>, x0: seq<real>, xScale: XScale,
                        jac: seq<seq<real>>, o: Oracles)
    requires Shaped(o, |x0|, |jac|) && Scaling(xScale, jac, |x0|, o).Err?
    ensures Resolve(d, maxiter, x0, xScale, jac, o) == (Err(Scaling(xScale, jac, |x0|, o).error), d - LimitKeys - StepKeys)
  {
  }

  /** A key outside the popped group reads the same after the pops. */
  lemma GetOutside(d: map<string, real>, popped: set<string>, key: string, default: real)
    requires key !in popped
    ensures Get(d - popped, key, default) == Get(d, key, default)
    ensures key in d - popped <==> key in d
  {
  }

  /**
    Every limit and step setting is the caller's value when the key was
    given and the documented default otherwise; the limits chain maxiter ->
    max_nfev -> max_njev.
   */
  lemma ResolveUsesGiven(d: map<string, real>, maxiter: Option<real>, x0: seq<real>, xScale: XScale,
                         jac: seq<seq<real>>, o: Oracles)
    requires Shaped(o, |x0|, |jac|)
    ensures var r := Resolve(d, maxiter, x0, xScale, jac, o).0;
      r.Ok? ==>
        && r.value.maxiter == MaxIter(maxiter, |x0|)
        && r.value.maxNfev == Get(d, "max_nfev", MaxIter(maxiter, |x0|))
        && r.value.maxNjev == Get(d, "max_njev", r.value.maxNfev)
        && r.value.gnormOrd == (if "gnorm_ord" in d then Order(d["gnorm_ord"]) else Inf)
        && r.value.xnormOrd == Order(Get(d, "xnorm_ord", 2.0))
        && r.value.gaFdStep == Get(d, "ga_fd_step", 0.001) && r.value.gaTrRatio == Get(d, "ga_tr_ratio", 0.0)
        && r.value.returnAll == (Get(d, "return_all", 1.0) != 0.0)
        && r.value.returnTr == (Get(d, "return_tr", 1.0) != 0.0)
  {
    GetOutside(d, LimitKeys, "ga_fd_step", 0.001);
    GetOutside(d, LimitKeys, "ga_tr_ratio", 0.0);
    GetOutside(d, LimitKeys, "return_all", 1.0);
    GetOutside(d, LimitKeys, "return_tr", 1.0);
  }

  /** Every radius-update parameter is the caller's value when given and the documented default otherwise. */
  lemma ResolveTrGiven(d: map<string, real>, maxiter: Option<real>, x0: seq<real>, xScale: XScale,
                       jac: seq<seq<real>>, o: Oracles)
    requires Shaped(o, |x0|, |jac|)
    ensures var r := Resolve(d, maxiter, x0, xScale, jac, o).0;
      r.Ok? ==>
        && r.value.tr.minRadius == Get(d, "min_trust_radius", 0.0)
        && r.value.tr.incThreshold == Get(d, "tr_increase_threshold", 0.75)
        && r.value.tr.decThreshold == Get(d, "tr_decrease_threshold", 0.25)
        && r.value.tr.incRatio == Get(d, "tr_increase_ratio", 2.0)
        && r.value.tr.decRatio == Get(d, "tr_decrease_ratio", 0.25)
  {
    var early := LimitKeys + StepKeys + RadiusKeys;
    assert d - LimitKeys - StepKeys - RadiusKeys == d - early;
    GetOutside(d, early, "min_trust_radius", 0.0);
    GetOutside(d, early, "tr_increase_threshold", 0.75);
    GetOutside(d, early, "tr_decrease_threshold", 0.25);
    GetOutside(d, early, "tr_increase_ratio", 2.0);
    GetOutside(d, early, "tr_decrease_ratio", 0.25);
  }

  /** The initial and maximum radii are Radii of the caller's options, the default radius being |x0 * scale_inv|. */
  lemma ResolveRadiiGiven(d: map<string, real>, maxiter: Option<real>, x0: seq<real>, xScale: XScale, o: Oracles)
    requires Shaped(o, |x0|, |o.fun(x0)|)
    ensures var r := Resolve(d, maxiter, x0, xScale, o.jac(x0), o).0;
      r.Ok? ==> (r.value.radius, r.value.tr.maxRadius) == Radii(d, o.norm(Mul(x0, r.value.scaleInv), Order(2.0)))
  {
    var r := Resolve(d, maxiter, x0, xScale, o.jac(x0), o).0;
    if r.Ok? {
      var sc := Scaling(xScale, o.jac(x0), |x0|, o);
      var def := o.norm(Mul(x0, sc.value.1), Order(2.0));
      var d2 := PopStepOptions(PopLimits(d, MaxIter(maxiter, |x0|)).1).1;
      RadiiOutside(d, d2, def);
    }
  }

  /** Radii reads only the two radius keys. */
  lemma RadiiOutside(d: map<string, real>, e: map<string, real>, default: real)
    requires e == d - LimitKeys - StepKeys
    ensures Radii(e, default) == Radii(d, default)
  {
    assert "initial_trust_radius" !in LimitKeys + StepKeys && "max_trust_radius" !in LimitKeys + StepKeys;
    assert e == d - (LimitKeys + StepKeys);
  }

  /** Without options: max_nfev = max_njev = maxiter, both histories kept, no acceleration, gradient norm of order inf. */
  lemma ResolveDefaults(maxiter: Option<real>, x0: seq<real>, xScale: XScale, jac: seq<seq<real>>, o: Oracles)
    requires Shaped(o, |x0|, |jac|)
    ensures var r := Resolve(map[], maxiter, x0, xScale, jac, o).0;
      r.Ok? ==>
        && r.value.maxNfev == MaxIter(maxiter, |x0|) && r.value.maxNjev == r.value.maxNfev
        && r.value.returnAll && r.value.returnTr && r.value.gaTrRatio == 0.0 && r.value.gnormOrd == Inf
        && r.value.radius != 0.0 && r.value.tr.maxRadius == 1000.0 * r.value.radius
  {
  }

  /** What `np.linalg.LinAlgError` in the step solver sets, AS WRITTEN: one-element tuples. */
  function LinAlgStatusAsWritten(): (r: (Success, Message))
  {
    (FalseTuple, StatusTuple("err"))
  }

  /** The failure is reported as a success: `(False,)` is a true value. */
  lemma LinAlgReportedAsSuccess()
    ensures Truthy(LinAlgStatusAsWritten().0)
  {
  }

  /** What the solver failure is meant to set: a false success and the "err" message. */
  function LinAlgStatus(): (r: (Success, Message))
    ensures !Truthy(r.0) && r.0 != Undecided
  {
    (Decided(false), Status("err"))
  }

  /** The head of the outer loop AS WRITTEN: a small gradient sets success; any set success stops. */
  function HeadAsWritten(gNorm: real, gtol: real, success: Success): (r: (Success, bool))
  {
    var s := if gNorm < gtol then Decided(true) else success;
    (s, s != Undecided)
  }

  /**
    The outer loop AS WRITTEN once no evaluation is left: the inner loop is
    skipped, the (absent) step is rejected, the iteration count grows, and
    nothing the head reads changes. Some(i) when the loop stops within k more
    heads, at iteration i.
   */
  function IdleLoopAsWritten(gNorm: real, gtol: real, nfev: nat, maxNfev: real, success: Success,
                             iteration: nat, k: nat): Option<nat>
    requires nfev as real >= maxNfev
    decreases k
  {
    var (s, stop) := HeadAsWritten(gNorm, gtol, success);
    if stop then Some(iteration)
    else if k == 0 then None
    else IdleLoopAsWritten(gNorm, gtol, nfev, maxNfev, s, iteration + 1, k - 1)
  }

  /**
    With no evaluation left (for instance maxiter = 0 or 1, so max_nfev <= 1
    after the first evaluation) and a gradient above gtol, the written loop never
    stops, however many iterations it is given.
   */
  lemma {:induction false} IdleLoopSpins(gNorm: real, gtol: real, nfev: nat, maxNfev: real, iteration: nat, k: nat)
    requires nfev as real >= maxNfev && gNorm >= gtol
    ensures IdleLoopAsWritten(gNorm, gtol, nfev, maxNfev, Undecided, iteration, k) == None
    decreases k
  {
    if k > 0 {
      IdleLoopSpins(gNorm, gtol, nfev, maxNfev, iteration + 1, k - 1);
    }
  }

  /** Reading `message` to build the result AS WRITTEN: a message never assigned raises UnboundLocalError. */
  function ResultMessageAsWritten(message: Message): (r: Result<Message>)
    ensures r.Err? <==> message.Unbound?
    ensures r.Ok? ==> r.value == message
  {
    if message.Unbound? then Err(UnboundLocalError) else Ok(message)
  }

  /**
    A starting point that already meets gtol stops the written loop at its
    first head, before any message is assigned, so building the result fails.
   */
  lemma ImmediateStopUnbound(gNorm: real, gtol: real)
    requires gNorm < gtol
    ensures HeadAsWritten(gNorm, gtol, Undecided) == (Decided(true), true)
    ensures ResultMessageAsWritten(Unbound) == Err(UnboundLocalError)
  {
  }

  /**
    The head of the outer loop as intended: a small gradient is a success,
    keeping the message already assigned (the None `check_termination` leaves
    when it decides nothing) and giving the "gtol" message only when none was
    ever assigned; a decided success stops, and so does an exhausted
    evaluation budget (which, as written, the inner loop would never reach).
   */
  function Head(gNorm: real, gtol: real, success: Success, message: Message, nfev: nat, maxNfev: real): (r: (Success, Message, bool))
    ensures r.2 <==> gNorm < gtol || success != Undecided || nfev as real >= maxNfev
    ensures !r.2 ==> r.0 == Undecided && r.1 == message
    ensures gNorm < gtol ==> r.0 == Decided(true)
    ensures gNorm < gtol && message == Unbound ==> r.1 == Status("gtol")
    ensures gNorm < gtol && message != Unbound ==> r.1 == message
    ensures gNorm >= gtol && success != Undecided ==> r.0 == success && r.1 == message
    ensures gNorm >= gtol && success == Undecided && nfev as real >= maxNfev ==> r.0 == Decided(false) && r.1 == Status("max_nfev")
    ensures r.2 && (success == Undecided || message != Unbound) ==> r.1 != Unbound
  {
    if gNorm < gtol then (Decided(true), if message == Unbound then Status("gtol") else message, true)
    else if success != Undecided then (success, message, true)
    else if nfev as real >= maxNfev then (Decided(false), Status("max_nfev"), true)
    else (Undecided, message, false)
  }

  /** The head as intended agrees with the head as written whenever the written one stops. */
  lemma HeadRefinesWritten(gNorm: real, gtol: real, success: Success, message: Message, nfev: nat, maxNfev: real)
    ensures HeadAsWritten(gNorm, gtol, success).1 ==>
      Head(gNorm, gtol, success, message, nfev, maxNfev).2 &&
      Head(gNorm, gtol, success, message, nfev, maxNfev).0 == HeadAsWritten(gNorm, gtol, success).0
  {
  }


  /** The current iterate: x, its residuals, cost, Jacobian and gradient, the norm of x, and the variable scale. */
  datatype Iterate = Iterate(x: seq<real>, f: seq<real>, cost: real, jac: seq<seq<real>>, g: seq<real>,
                             xNorm: real, scale: seq<real>, scaleInv: seq<real>)

  /** Everything stored about x was computed at x. */
  predicate AtX(o: Oracles, s: Settings, it: Iterate, n: nat, m: nat) {
    && |it.x| == n && |it.f| == m && |it.scale| == n && |it.scaleInv| == n
    && it.f == o.fun(it.x) && it.cost == Cost(it.f) && it.jac == o.jac(it.x)
    && IsMatrix(it.jac, m, n) && it.g == TransposeTimes(it.jac, it.f, n)
    && it.xNorm == o.norm(it.x, s.xnormOrd)
  }

  /** One trial point of the inner loop. */
  datatype Trial = Trial(actualReduction: real, xNew: seq<real>, fNew: seq<real>, costNew: real, stepNorm: real)

  /** The trial point was evaluated, and the actual reduction is the drop in cost from the current iterate. */
  predicate Evaluated(o: Oracles, it: Iterate, t: Trial) {
    |t.xNew| == |it.x| && t.fNew == o.fun(t.xNew) && t.costNew == Cost(t.fNew) && t.actualReduction == it.cost - t.costNew
  }

  /** Residual evaluations per trial: one, plus one for the geodesic acceleration probe. */
  function PerTrial(s: Settings): nat {
    if s.gaTrRatio > 0.0 then 2 else 1
  }

  /** What one pass of the inner loop produces. */
  datatype Attempt =
    | SolverFailed
    | AccelerationFailed
    | Tried(trial: Trial, radius: real, alpha: Option<real>, nfev: nat, success: Success, message: Message)

  /** The loop tolerances. */
  datatype Tolerances = Tolerances(ftol: real, xtol: real, gtol: real)

  /**
    One pass of the inner loop: solve for the step (a solver LinAlgError ends
    the inner loop), add the geodesic correction when asked (a LinAlgError
    there propagates), evaluate the trial point, update the radius and the
    LM parameter, and ask `check_termination`.
   */
  function TryStep(o: Oracles, s: Settings, tol: Tolerances, it: Iterate, radius: real, alpha: Option<real>,
                   nfev: nat, njev: nat, iteration: nat, gNorm: real): (a: Attempt)
    requires Shaped(o, |it.x|, |it.f|) && |it.scale| == |it.x|
    ensures a.Tried? ==> Evaluated(o, it, a.trial) && a.nfev == nfev + PerTrial(s) && a.message.Reported?
    ensures a.AccelerationFailed? ==> s.gaTrRatio > 0.0
    ensures o.solve(it.f, it.jac, it.scale, radius, alpha).LinAlgFailure? <==> a.SolverFailed?
  {
    match o.solve(it.f, it.jac, it.scale, radius, alpha)
    case LinAlgFailure => SolverFailed
    case Solution(stepH0, hits, alpha1) =>
      var stepHNorm := o.norm(stepH0, s.xnormOrd);
      var accelerated :=
        if s.gaTrRatio > 0.0 then
          var probe := Add(it.x, Mul(seq(|stepH0|, _ => s.gaFdStep), Mul(stepH0, it.scale)));
          var rhs := o.gaRhs(it.f, o.fun(probe), it.jac, stepH0, it.scale, s.gaFdStep);
          match o.solve(rhs, it.jac, it.scale, s.gaTrRatio * stepHNorm, alpha1)
          case LinAlgFailure => None
          case Solution(gaStep, _, _) => Some(Add(stepH0, gaStep))
        else Some(stepH0);
      if accelerated.None? then AccelerationFailed
      else
        var stepH := accelerated.value;
        var predicted := -o.quadratic(it.jac, it.g, it.scale, stepH);
        var step := Mul(it.scale, stepH);
        var xNew := Add(it.x, step);
        var fNew := o.fun(xNew);
        var nfev1 := nfev + PerTrial(s);
        var costNew := Cost(fNew);
        var actual := it.cost - costNew;
        var stepNorm := o.norm(step, s.xnormOrd);
        var (radius1, ratio) := o.updateRadius(radius, actual, predicted, stepHNorm, hits, s.tr);
        var (succ, msg) := o.terminate(TermArgs(actual, it.cost, stepNorm, it.xNorm, gNorm, ratio, tol.ftol, tol.xtol,
                                                tol.gtol, iteration, s.maxiter, nfev1, s.maxNfev, njev, s.maxNjev));
        Tried(Trial(actual, xNew, fNew, costNew, stepNorm), radius1, o.rescaleAlpha(alpha1, radius, radius1), nfev1,
              if succ.None? then Undecided else Decided(succ.value), Reported(msg))
  }

  /** The evaluations still allowed: positive exactly while nfev < max_nfev, and falling with every evaluation. */
  function Budget(maxNfev: real, nfev: nat): (b: nat)
    ensures b > 0 <==> (nfev as real) < maxNfev
  {
    if (nfev as real) < maxNfev then (maxNfev - nfev as real).Floor + 1 else 0
  }

  lemma BudgetFalls(maxNfev: real, nfev: nat, later: nat)
    requires (nfev as real) < maxNfev && nfev < later
    ensures Budget(maxNfev, later) < Budget(maxNfev, nfev)
  {
  }

  /** How the inner loop ends. */
  datatype InnerEnd = InnerEnd(trial: Trial, radius: real, alpha: Option<real>, nfev: nat, success: Success,
                               message: Message, alltr: seq<real>)

  /**
    The inner loop: retry from the iterate of `st`, shrinking the radius,
    until a trial lowers the cost, the evaluation budget is spent, or the
    termination test decides. `tries` counts the trials made (ghost).
   */
  method InnerLoop(o: Oracles, s: Settings, tol: Tolerances, st: RunState, gNorm: real, ghost tries0: nat)
    returns (r: Result<InnerEnd>, ghost tries: nat)
    requires Shaped(o, |st.it.x|, |st.it.f|) && |st.it.scale| == |st.it.x|
    requires st.success == Undecided || st.message != Unbound
    ensures r.Err? ==> r.error == LinAlgError && s.gaTrRatio > 0.0
    ensures r.Ok? ==> InnerEnded(o, s, st, r.value, tries0, tries)
    ensures r.Ok? ==> r.value.trial.actualReduction > 0.0 || r.value.nfev as real >= s.maxNfev || r.value.success != Undecided
    ensures r.Ok? && (st.nfev as real) < s.maxNfev ==> tries > tries0 || r.value.success != Undecided
  {
    var it := st.it;
    var trial := Trial(-1.0, it.x, it.f, it.cost, 0.0);
    var radius, alpha, nfev, success, message, alltr := st.radius, st.alpha, st.nfev, st.success, st.message, st.alltr;
    tries := tries0;
    while trial.actualReduction <= 0.0 && (nfev as real) < s.maxNfev
      invariant tries >= tries0 && nfev == st.nfev + PerTrial(s) * (tries - tries0)
      invariant trial.actualReduction > 0.0 ==> Evaluated(o, it, trial) && tries > tries0
      invariant tries == tries0 ==> trial.actualReduction == -1.0
      invariant nfev == st.nfev || (nfev as real) < s.maxNfev + PerTrial(s) as real
      invariant success == Undecided || message != Unbound
      invariant s.returnTr ==> |alltr| == |st.alltr| + (tries - tries0) && alltr[..|st.alltr|] == st.alltr
      invariant !s.returnTr ==> alltr == st.alltr
      decreases Budget(s.maxNfev, nfev)
    {
      var a := TryStep(o, s, tol, it, radius, alpha, nfev, st.njev, st.iteration, gNorm);
      match a
      case SolverFailed =>
        success, message := LinAlgStatus().0, LinAlgStatus().1;
        break;
      case AccelerationFailed =>
        return Err(LinAlgError), tries;
      case Tried(t, radius1, alpha1, nfev1, succ, msg) =>
        BudgetFalls(s.maxNfev, nfev, nfev1);
        OneMoreTrial(PerTrial(s), tries - tries0);
        trial, radius, alpha, nfev, tries := t, radius1, alpha1, nfev1, tries + 1;
        if s.returnTr {
          assert (alltr + [radius])[..|st.alltr|] == alltr[..|st.alltr|];
          alltr := alltr + [radius];
        }
        success, message := succ, msg;
        if success != Undecided {
          break;
        }
    }
    r := Ok(InnerEnd(trial, radius, alpha, nfev, success, message, alltr));
  }

  /**
    Accepting a trial that lowered the cost: move to the trial point,
    evaluate the Jacobian and gradient there, and with Jacobian scaling
    update the scale from the new Jacobian.
   */
  function Accept(o: Oracles, s: Settings, it: Iterate, t: Trial): (r: Iterate)
    requires Shaped(o, |it.x|, |it.f|) && AtX(o, s, it, |it.x|, |it.f|) && Evaluated(o, it, t)
    ensures AtX(o, s, r, |it.x|, |it.f|)
    ensures r.x == t.xNew && r.cost == t.costNew
    ensures t.actualReduction > 0.0 ==> r.cost < it.cost
    ensures !s.jacScaling ==> r.scale == it.scale && r.scaleInv == it.scaleInv
  {
    var jac := o.jac(t.xNew);
    var (scale, scaleInv) := if s.jacScaling then o.jacScale(jac, Some(it.scaleInv)) else (it.scale, it.scaleInv);
    Iterate(t.xNew, t.fNew, t.costNew, jac, TransposeTimes(jac, t.fNew, |it.x|), o.norm(t.xNew, s.xnormOrd),
            scale, scaleInv)
  }

  /** Each accepted iterate has a strictly lower cost than the one before. */
  ghost predicate CostsFall(o: Oracles, xs: seq<seq<real>>) {
    forall i :: 0 < i < |xs| ==> Cost(o.fun(xs[i])) < Cost(o.fun(xs[i - 1]))
  }

  /** So any later iterate of the history is strictly cheaper than any earlier one. */
  lemma {:induction false} CostsFallPairwise(o: Oracles, xs: seq<seq<real>>, i: nat, j: nat)
    requires CostsFall(o, xs) && i < j < |xs|
    ensures Cost(o.fun(xs[j])) < Cost(o.fun(xs[i]))
    decreases j - i
  {
    if j > i + 1 {
      CostsFallPairwise(o, xs, i, j - 1);
    }
  }

  /** The settings a run resolves, from the options the caller passed. */
  function SettingsOf(d: map<string, real>, maxiter: Option<real>, x0: seq<real>, xScale: XScale, o: Oracles): Result<Settings>
    requires Shaped(o, |x0|, |o.fun(x0)|)
  {
    Resolve(d, maxiter, x0, xScale, o.jac(x0), o).0
  }

  /** The first loop head stops at once: the start already meets gtol, or no evaluation is left. */
  ghost predicate StopsAtStart(o: Oracles, s: Settings, x0: seq<real>, gtol: real)
    requires Shaped(o, |x0|, |o.fun(x0)|)
  {
    o.norm(TransposeTimes(o.jac(x0), o.fun(x0), |x0|), s.gnormOrd) < gtol || s.maxNfev <= 1.0
  }

  /** `options.pop` of the limits, in place. */
  method PopLimitsIn(options: OptionsDict, maxiter: real) returns (l: Limits)
    modifies options
    ensures (l, options.entries) == PopLimits(old(options.entries), maxiter)
  {
    var maxNfev := options.Pop("max_nfev", maxiter);
    var maxNjev := options.Pop("max_njev", maxNfev);
    var hasGnormOrd := "gnorm_ord" in options.entries;
    var gnormOrd := options.Pop("gnorm_ord", 0.0);
    var xnormOrd := options.Pop("xnorm_ord", 2.0);
    l := Limits(maxNfev, maxNjev, if hasGnormOrd then Order(gnormOrd) else Inf, Order(xnormOrd));
  }

  /** `options.pop` of the step options, in place. */
  method PopStepOptionsIn(options: OptionsDict) returns (so: StepOptions)
    modifies options
    ensures (so, options.entries) == PopStepOptions(old(options.entries))
  {
    var gaFdStep := options.Pop("ga_fd_step", 0.001);
    var gaTrRatio := options.Pop("ga_tr_ratio", 0.0);
    var returnAll := options.Pop("return_all", 1.0);
    var returnTr := options.Pop("return_tr", 1.0);
    so := StepOptions(gaFdStep, gaTrRatio, returnAll != 0.0, returnTr != 0.0);
  }

  /** `options.pop` of the radii, in place, a zero radius replaced by 1.0 first. */
  method PopRadiiIn(options: OptionsDict, defaultRadius: real) returns (radius: real, maxRadius: real)
    modifies options
    ensures (radius, maxRadius, options.entries) == PopRadii(old(options.entries), defaultRadius)
  {
    radius := options.Pop("initial_trust_radius", defaultRadius);
    if radius == 0.0 {
      radius := 1.0;
    }
    maxRadius := options.Pop("max_trust_radius", radius * 1000.0);
  }

  /** `options.pop` of the radius-update parameters, in place. */
  method PopTrParamsIn(options: OptionsDict, maxRadius: real) returns (tr: TrParams)
    modifies options
    ensures (tr, options.entries) == PopTrParams(old(options.entries), maxRadius)
  {
    var minRadius := options.Pop("min_trust_radius", 0.0);
    var incThreshold := options.Pop("tr_increase_threshold", 0.75);
    var decThreshold := options.Pop("tr_decrease_threshold", 0.25);
    var incRatio := options.Pop("tr_increase_ratio", 2.0);
    var decRatio := options.Pop("tr_decrease_ratio", 0.25);
    tr := TrParams(maxRadius, minRadius, incThreshold, incRatio, decThreshold, decRatio);
  }

  /**
    The option handling of `lsqtr`: pops every known key from the caller's
    dictionary in place, then refuses whatever is left.
   */
  method ResolveOptions(options: OptionsDict, maxiter: Option<real>, x0: seq<real>, xScale: XScale,
                        jac: seq<seq<real>>, o: Oracles) returns (r: Result<Settings>)
    requires Shaped(o, |x0|, |jac|)
    modifies options
    ensures (r, options.entries) == Resolve(old(options.entries), maxiter, x0, xScale, jac, o)
  {
    var mi := MaxIter(maxiter, |x0|);
    var limits := PopLimitsIn(options, mi);
    var steps := PopStepOptionsIn(options);
    var scaling := Scaling(xScale, jac, |x0|, o);
    if scaling.Err? {
      return Err(scaling.error);
    }
    var (scale, scaleInv, jacScaling) := scaling.value;
    var radius, maxRadius := PopRadiiIn(options, o.norm(Mul(x0, scaleInv), Order(2.0)));
    var tr := PopTrParamsIn(options, maxRadius);
    if options.Size() > 0 {
      return Err(ValueError);
    }
    r := Ok(Settings(mi, limits.maxNfev, limits.maxNjev, limits.gnormOrd, limits.xnormOrd, steps.gaFdStep,
                     steps.gaTrRatio, steps.returnAll, steps.returnTr, jacScaling, scale, scaleInv, radius, tr));
  }

  /** Appending a strictly cheaper point keeps the costs of the history falling. */
  lemma CostsFallExtend(o: Oracles, xs: seq<seq<real>>, y: seq<real>)
    requires CostsFall(o, xs) && xs != [] && Cost(o.fun(y)) < Cost(o.fun(xs[|xs| - 1]))
    ensures CostsFall(o, xs + [y])
  {
    var ys := xs + [y];
    forall i | 0 < i < |ys| ensures Cost(o.fun(ys[i])) < Cost(o.fun(ys[i - 1])) {
      if i < |xs| {
        assert ys[i] == xs[i] && ys[i - 1] == xs[i - 1];
      }
    }
  }

  lemma OneMoreTrial(p: nat, k: nat)
    ensures p * (k + 1) == p * k + p
  {
  }

  /** The evaluation count stays one plus a fixed number per trial, which is at least the number of trials. */
  lemma CountTrials(p: nat, nfev: nat, tries: nat, nfev1: nat, tries1: nat)
    requires 1 <= p <= 2 && nfev == 1 + p * tries && tries <= tries1 && nfev1 == nfev + p * (tries1 - tries)
    ensures nfev1 == 1 + p * tries1 && tries1 + 1 <= nfev1
    ensures tries1 > tries ==> nfev1 > nfev
    ensures tries1 == tries ==> nfev1 == nfev
  {
  }

  /** The variables the outer loop carries from pass to pass. */
  datatype RunState = RunState(it: Iterate, nfev: nat, njev: nat, iteration: nat, radius: real, alpha: Option<real>,
                               success: Success, message: Message, allx: seq<seq<real>>, alltr: seq<real>)

  /**
    What holds between passes: the iterate is consistent and no costlier
    than x0; each trial cost a fixed number of evaluations and at most one
    Jacobian; the evaluations stay within the budget plus one trial; a
    decided success comes with a message; the histories hold the accepted
    iterates (costs falling) and one radius per trial.
   */
  ghost predicate Progress(o: Oracles, s: Settings, x0: seq<real>, st: RunState, tries: nat)
    requires Shaped(o, |x0|, |o.fun(x0)|)
  {
    && AtX(o, s, st.it, |x0|, |o.fun(x0)|) && st.it.cost <= Cost(o.fun(x0))
    && st.nfev == 1 + PerTrial(s) * tries && 1 <= st.njev <= 1 + tries
    && (st.nfev == 1 || (st.nfev as real) < s.maxNfev + PerTrial(s) as real)
    && (st.success == Undecided || st.message != Unbound)
    && (s.returnAll ==> |st.allx| == st.njev && st.allx[0] == x0 && st.allx[|st.allx| - 1] == st.it.x && CostsFall(o, st.allx))
    && (!s.returnAll ==> st.allx == [x0])
    && (s.returnTr ==> |st.alltr| == 1 + tries && st.alltr[0] == s.radius)
    && (!s.returnTr ==> st.alltr == [s.radius])
  }

  /**
    What the inner loop guarantees about how it ended (the ensures of
    `InnerLoop`, for a run state).
   */
  ghost predicate InnerEnded(o: Oracles, s: Settings, st: RunState, e: InnerEnd, tries: nat, tries1: nat) {
    && tries1 >= tries && e.nfev == st.nfev + PerTrial(s) * (tries1 - tries)
    && (e.trial.actualReduction > 0.0 ==> Evaluated(o, st.it, e.trial) && tries1 > tries)
    && (e.nfev == st.nfev || (e.nfev as real) < s.maxNfev + PerTrial(s) as real)
    && (e.success == Undecided || e.message != Unbound)
    && (s.returnTr ==> |e.alltr| == |st.alltr| + (tries1 - tries) && e.alltr[..|st.alltr|] == st.alltr)
    && (!s.returnTr ==> e.alltr == st.alltr)
  }

  /**
    Settling after the inner loop: a trial that lowered the cost is accepted
    (the new iterate, one more Jacobian, the history extended); otherwise x
    stays. The inner loop's counters, radius, LM parameter, status and
    radius history are taken over either way.
   */
  function Settled(o: Oracles, s: Settings, st: RunState, e: InnerEnd): (r: RunState)
    requires Shaped(o, |st.it.x|, |st.it.f|) && AtX(o, s, st.it, |st.it.x|, |st.it.f|)
    requires e.trial.actualReduction > 0.0 ==> Evaluated(o, st.it, e.trial)
    ensures e.trial.actualReduction > 0.0 ==> r.it.x == e.trial.xNew && r.it.cost < st.it.cost && r.njev == st.njev + 1
    ensures e.trial.actualReduction <= 0.0 ==> r.it == st.it && r.njev == st.njev && r.allx == st.allx
    ensures r.iteration == st.iteration && r.nfev == e.nfev && r.alltr == e.alltr
    ensures r.success == e.success && r.message == e.message
  {
    var common := st.(nfev := e.nfev, radius := e.radius, alpha := e.alpha, success := e.success,
                      message := e.message, alltr := e.alltr);
    if e.trial.actualReduction > 0.0 then
      var it := Accept(o, s, st.it, e.trial);
      common.(it := it, njev := st.njev + 1, allx := if s.returnAll then st.allx + [it.x] else st.allx)
    else common
  }

  /** Settling keeps what holds between passes. */
  lemma SettledProgress(o: Oracles, s: Settings, x0: seq<real>, st: RunState, e: InnerEnd, tries: nat, tries1: nat)
    requires Shaped(o, |x0|, |o.fun(x0)|) && Progress(o, s, x0, st, tries) && InnerEnded(o, s, st, e, tries, tries1)
    ensures Progress(o, s, x0, Settled(o, s, st, e), tries1)
  {
    CountTrials(PerTrial(s), st.nfev, tries, e.nfev, tries1);
    var r := Settled(o, s, st, e);
    if e.trial.actualReduction > 0.0 && s.returnAll {
      CostsFallExtend(o, st.allx, r.it.x);
    }
    if s.returnTr {
      assert e.alltr[0] == e.alltr[..|st.alltr|][0];
    }
  }

  /** Stopping on the callback, or counting the pass, keeps what holds between passes. */
  lemma RelabelProgress(o: Oracles, s: Settings, x0: seq<real>, st: RunState, tries: nat, iteration: nat, success: Success, message: Message)
    requires Shaped(o, |x0|, |o.fun(x0)|) && Progress(o, s, x0, st, tries)
    requires success == Undecided || message != Unbound
    ensures Progress(o, s, x0, st.(iteration := iteration, success := success, message := message), tries)
  {
  }

  /**
    The outer loop's body after its head, up to the callback: the inner
    loop, then accepting a trial that lowered the cost or rejecting. The
    second result says whether a trial was accepted. Either an evaluation
    was spent or success was decided.
   */
  method RetryAndSettle(o: Oracles, s: Settings, tol: Tolerances, x0: seq<real>, st: RunState, gNorm: real, ghost tries: nat)
    returns (r: Result<(RunState, bool)>, ghost tries1: nat)
    requires Shaped(o, |x0|, |o.fun(x0)|) && Progress(o, s, x0, st, tries)
    requires st.success == Undecided && (st.nfev as real) < s.maxNfev
    ensures r.Err? ==> r.error == LinAlgError
    ensures r.Ok? ==> Progress(o, s, x0, r.value.0, tries1) && r.value.0.iteration == st.iteration
    ensures r.Ok? ==> r.value.0.nfev > st.nfev || (r.value.0.nfev == st.nfev && r.value.0.success != Undecided)
    ensures r.Ok? && r.value.1 ==> r.value.0.it.cost < st.it.cost
  {
    var inner, t1 := InnerLoop(o, s, tol, st, gNorm, tries);
    tries1 := t1;
    if inner.Err? {
      return Err(inner.error), tries1;
    }
    var e := inner.value;
    CountTrials(PerTrial(s), st.nfev, tries, e.nfev, tries1);
    SettledProgress(o, s, x0, st, e, tries, tries1);
    r := Ok((Settled(o, s, st, e), e.trial.actualReduction > 0.0));
  }

  /** The result `lsqtr` builds from the final run state and the last gradient norm. */
  function Report(s: Settings, st: RunState, gNorm: real): LsqResult {
    LsqResult(st.it.x, st.success, st.it.cost, st.it.f, st.it.g, st.it.jac, gNorm, st.nfev, st.njev, st.iteration,
              st.message, if s.returnAll then Some(st.allx) else None, if s.returnTr then Some(st.alltr) else None)
  }

  /** A run that stops with a decided success reports what holds between passes. */
  lemma ReportHolds(o: Oracles, s: Settings, x0: seq<real>, st: RunState, tries: nat, gNorm: real)
    requires Shaped(o, |x0|, |o.fun(x0)|) && Progress(o, s, x0, st, tries) && st.success != Undecided
    ensures Reports(o, s, x0, Report(s, st, gNorm))
  {
    CountTrials(PerTrial(s), 1, 0, st.nfev, tries);
  }

  /** The run state right after the first evaluation: x0 with its residuals, Jacobian and gradient, nothing decided. */
  ghost predicate Initial(o: Oracles, s: Settings, x0: seq<real>, st: RunState)
    requires Shaped(o, |x0|, |o.fun(x0)|)
  {
    var f := o.fun(x0);
    var jac := o.jac(x0);
    st == RunState(Iterate(x0, f, Cost(f), jac, TransposeTimes(jac, f, |x0|), o.norm(x0, s.xnormOrd), s.scale, s.scaleInv),
                   1, 1, 0, s.radius, None, Undecided, Unbound, [x0], [s.radius])
  }

  /**
    The initial state meets what holds between passes, and when the first
    head stops the run reports x0 as `StartReport` says.
   */
  lemma StartHolds(o: Oracles, s: Settings, x0: seq<real>, gtol: real, st: RunState)
    requires Shaped(o, |x0|, |o.fun(x0)|) && |s.scale| == |x0| && |s.scaleInv| == |x0| && Initial(o, s, x0, st)
    ensures Progress(o, s, x0, st, 0)
    ensures var gNorm := o.norm(st.it.g, s.gnormOrd);
      var h := Head(gNorm, gtol, Undecided, Unbound, 1, s.maxNfev);
      StopsAtStart(o, s, x0, gtol) ==> h.2 && StartReport(o, s, x0, gtol, Report(s, st.(success := h.0, message := h.1), gNorm))
  {
  }

  /**
    The loop of `lsqtr` from the first evaluation (f and J at x0): the head
    tests the gradient and stops once success is decided, then the inner
    loop retries and a cost-lowering trial is accepted, until the head or
    the callback stops the run. Its only error is a LinAlgError from the
    geodesic-acceleration solve.
   */
  method TrustRegionLoop(o: Oracles, s: Settings, tol: Tolerances, x0: seq<real>, f: seq<real>, jac: seq<seq<real>>)
    returns (r: Result<LsqResult>)
    requires Shaped(o, |x0|, |o.fun(x0)|) && |s.scale| == |x0| && |s.scaleInv| == |x0|
    requires f == o.fun(x0) && jac == o.jac(x0)
    ensures r.Err? ==> r.error == LinAlgError
    ensures r.Ok? ==> Reports(o, s, x0, r.value)
    ensures r.Ok? && StopsAtStart(o, s, x0, tol.gtol) ==> StartReport(o, s, x0, tol.gtol, r.value)
  {
    var it := Iterate(x0, f, Cost(f), jac, TransposeTimes(jac, f, |x0|), o.norm(x0, s.xnormOrd), s.scale, s.scaleInv);
    var st := RunState(it, 1, 1, 0, s.radius, None, Undecided, Unbound, [x0], [s.radius]);
    ghost var st0 := st;
    ghost var atStart := StopsAtStart(o, s, x0, tol.gtol);
    StartHolds(o, s, x0, tol.gtol, st);
    var gNorm := 0.0;
    ghost var tries: nat := 0;
    while true
      invariant Progress(o, s, x0, st, tries)
      invariant atStart ==> st == st0 && tries == 0
      decreases Budget(s.maxNfev, st.nfev), if st.success == Undecided then 1 else 0
    {
      gNorm := o.norm(st.it.g, s.gnormOrd);
      var (success, message, stop) := Head(gNorm, tol.gtol, st.success, st.message, st.nfev, s.maxNfev);
      if stop {
        RelabelProgress(o, s, x0, st, tries, st.iteration, success, message);
        st := st.(success := success, message := message);
        break;
      }
      var pass, tries1 := RetryAndSettle(o, s, tol, x0, st, gNorm, tries);
      if pass.Err? {
        return Err(pass.error);
      }
      var (next, accepted) := pass.value;
      if next.nfev > st.nfev {
        BudgetFalls(s.maxNfev, st.nfev, next.nfev);
      }
      if accepted && o.callback.Some? && o.callback.value(next.it.x) {
        RelabelProgress(o, s, x0, next, tries1, next.iteration, Decided(false), Status("callback"));
        st, tries := next.(success := Decided(false), message := Status("callback")), tries1;
        break;
      }
      RelabelProgress(o, s, x0, next, tries1, next.iteration + 1, next.success, next.message);
      st, tries := next.(iteration := next.iteration + 1), tries1;
    }
    ReportHolds(o, s, x0, st, tries, gNorm);
    r := Ok(Report(s, st, gNorm));
  }

  /**
    `lsqtr`: evaluate f and J at x0, resolve the options (popping them from
    the caller's dictionary), then run the loop. Errors are those of the
    option handling, or a LinAlgError from the geodesic-acceleration solve.
   */
  method Lsqtr(o: Oracles, x0: seq<real>, xScale: XScale, tol: Tolerances, maxiter: Option<real>, options: OptionsDict)
    returns (r: Result<LsqResult>)
    requires Shaped(o, |x0|, |o.fun(x0)|)
    modifies options
    ensures options.entries == Resolve(old(options.entries), maxiter, x0, xScale, o.jac(x0), o).1
    ensures SettingsOf(old(options.entries), maxiter, x0, xScale, o).Err? ==>
      r == Err(SettingsOf(old(options.entries), maxiter, x0, xScale, o).error)
    ensures r.Err? ==> SettingsOf(old(options.entries), maxiter, x0, xScale, o).Err? || r.error == LinAlgError
    ensures r.Ok? ==> SettingsOf(old(options.entries), maxiter, x0, xScale, o).Ok? && options.entries == map[]
    ensures r.Ok? ==> Reports(o, SettingsOf(old(options.entries), maxiter, x0, xScale, o).value, x0, r.value)
    ensures r.Ok? && StopsAtStart(o, SettingsOf(old(options.entries), maxiter, x0, xScale, o).value, x0, tol.gtol) ==>
      StartReport(o, SettingsOf(old(options.entries), maxiter, x0, xScale, o).value, x0, tol.gtol, r.value)
  {
    var f := o.fun(x0);
    var jac := o.jac(x0);
    var s :- ResolveOptions(options, maxiter, x0, xScale, jac, o);
    r := TrustRegionLoop(o, s, tol, x0, f, jac);
  }

  /**
    What every successful run reports: the last iterate with its own
    residuals, cost, Jacobian and gradient, a cost no higher than at x0, a
    decided success with a message, no more Jacobian than residual
    evaluations, evaluations within the budget plus one trial, and
    histories of strictly falling costs and of one radius per trial.
   */
  ghost predicate Reports(o: Oracles, s: Settings, x0: seq<real>, res: LsqResult)
    requires Shaped(o, |x0|, |o.fun(x0)|)
  {
    && |res.x| == |x0| && res.fun == o.fun(res.x) && res.cost == Cost(res.fun) && res.jac == o.jac(res.x)
    && res.grad == TransposeTimes(res.jac, res.fun, |x0|)
    && res.cost <= Cost(o.fun(x0))
    && res.success != Undecided && res.message != Unbound
    && 1 <= res.njev <= res.nfev
    && (res.nfev == 1 || (res.nfev as real) < s.maxNfev + PerTrial(s) as real)
    && (s.returnAll <==> res.allx.Some?)
    && (res.allx.Some? ==> var xs := res.allx.value;
          |xs| == res.njev && xs[0] == x0 && xs[|xs| - 1] == res.x && CostsFall(o, xs))
    && (s.returnTr <==> res.alltr.Some?)
    && (res.alltr.Some? ==> var trs := res.alltr.value;
          |trs| >= 1 && trs[0] == s.radius && res.nfev == 1 + PerTrial(s) * (|trs| - 1))
  }

  /**
    When the first loop head stops, the run reports x0 after no iteration: a
    success with the "gtol" message when the start meets gtol, otherwise a
    failure with the "max_nfev" message.
   */
  ghost predicate StartReport(o: Oracles, s: Settings, x0: seq<real>, gtol: real, res: LsqResult)
    requires Shaped(o, |x0|, |o.fun(x0)|)
  {
    var gNorm := o.norm(TransposeTimes(o.jac(x0), o.fun(x0), |x0|), s.gnormOrd);
    && res.x == x0 && res.nit == 0 && res.nfev == 1 && res.njev == 1 && res.optimality == gNorm
    && (gNorm < gtol ==> res.success == Decided(true) && res.message == Status("gtol"))
    && (gNorm >= gtol ==> res.success == Decided(false) && res.message == Status("max_nfev"))
  }
}
