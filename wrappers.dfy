/**
  The optimizer wrappers that put the three trust-region/stochastic drivers
  behind one calling convention: each refuses a constraint, turns a missing
  options dictionary into a fresh empty one, may fill in trust-region
  defaults when the variable scale is all ones, picks the tolerances out of
  the stopping-tolerance dictionary, and calls its driver. Their
  registration records which capabilities each method name has.
 */
module DescWrappers {
  import opened Common
  import opened OptionsDicts
  import opened LeastSquares

  /** The flags `register_optimizer` records for one method name. */
  datatype Capabilities = Capabilities(scalar: bool, equalityConstraints: bool, inequalityConstraints: bool,
                                       stochastic: bool, hessian: bool)

  const LsqNames: set<string> := {"lsq-exact"}
  const FminNames: set<string> := {"dogleg", "subspace", "dogleg-bfgs", "subspace-bfgs"}
  const SgdNames: set<string> := {"sgd"}

  /**
    The registration table: "lsq-exact" is a least-squares method without a
    Hessian; the four trust-region names are scalar, the two without "bfgs"
    using the objective's Hessian; "sgd" is scalar and stochastic. No name
    supports constraints.
   */
  function Registered(name: string): (r: Option<Capabilities>)
    ensures r.Some? <==> name in LsqNames + FminNames + SgdNames
    ensures r.Some? ==> !r.value.equalityConstraints && !r.value.inequalityConstraints
    ensures r.Some? ==> (r.value.scalar <==> name !in LsqNames)
    ensures r.Some? ==> (r.value.stochastic <==> name in SgdNames)
    ensures r.Some? ==> (r.value.hessian <==> name == "dogleg" || name == "subspace")
  {
    if name == "lsq-exact" then Some(Capabilities(false, false, false, false, false))
    else if name == "dogleg" || name == "subspace" then Some(Capabilities(true, false, false, false, true))
    else if name == "dogleg-bfgs" || name == "subspace-bfgs" then Some(Capabilities(true, false, false, false, false))
    else if name == "sgd" then Some(Capabilities(true, false, false, true, false))
    else None
  }

  /** pat occurs in s starting at position i. */
  predicate At(s: string, pat: string, i: nat) {
    i + |pat| <= |s| && s[i..i + |pat|] == pat
  }

  /** `pat in s` for strings: pat occurs at some position of s. */
  ghost predicate Contains(s: string, pat: string) {
    exists i: nat :: At(s, pat, i)
  }

  /** The substring test, scanning s from the left. */
  function Occurs(s: string, pat: string): (r: bool)
    ensures r <==> Contains(s, pat)
    decreases |s|
  {
    if |s| < |pat| then false
    else if s[..|pat|] == pat then assert At(s, pat, 0); true
    else
      var r := Occurs(s[1..], pat);
      assert r ==> Contains(s, pat) by {
        if r {
          var i: nat :| At(s[1..], pat, i);
          assert s[1..][i..i + |pat|] == s[i + 1..i + 1 + |pat|];
          assert At(s, pat, i + 1);
        }
      }
      assert Contains(s, pat) ==> r by {
        if Contains(s, pat) {
          var i: nat :| At(s, pat, i);
          assert i != 0;
          assert s[1..][i - 1..i - 1 + |pat|] == s[i..i + |pat|];
          assert At(s[1..], pat, i - 1);
        }
      }
      r
  }

  /**
    `s.replace(pat, "")`: every occurrence of pat, found from the left
    without overlap, is cut out. The string is unchanged when pat does not
    occur, and loses at least |pat| characters otherwise.
   */
  function RemoveAll(s: string, pat: string): (r: string)
    requires pat != []
    ensures !Occurs(s, pat) ==> r == s
    ensures Occurs(s, pat) ==> |r| + |pat| <= |s|
    ensures |r| <= |s|
    decreases |s|
  {
    if |s| < |pat| then s
    else if s[..|pat|] == pat then RemoveAll(s[|pat|..], pat)
    else
      var rest := RemoveAll(s[1..], pat);
      assert s == [s[0]] + s[1..];
      [s[0]] + rest
  }

  /** The Hessian handed to the scalar driver: the objective's own, or the "bfgs" quasi-Newton update. */
  datatype Hessian = ObjectiveHessian | Bfgs

  /** A method name containing "bfgs" asks for the quasi-Newton Hessian. */
  function HessianFor(methodName: string): (h: Hessian)
    ensures h == Bfgs <==> Contains(methodName, "bfgs")
  {
    if Occurs(methodName, "bfgs") then Bfgs else ObjectiveHessian
  }

  /** The method name the scalar driver receives: the name with "-bfgs" cut out. */
  function ForwardedMethod(methodName: string): (r: string)
    ensures r == methodName <==> !Contains(methodName, "-bfgs")
  {
    RemoveAll(methodName, "-bfgs")
  }

  /**
    For every registered scalar trust-region name, the wrapper uses the
    objective's Hessian exactly when the registration says the method has a
    Hessian, and forwards the base method "dogleg" or "subspace".
   */
  lemma FminNamesAgree(name: string)
    requires name in FminNames
    ensures HessianFor(name) == ObjectiveHessian <==> Registered(name).value.hessian
    ensures ForwardedMethod(name) in {"dogleg", "subspace"}
  {
    if name == "dogleg-bfgs" {
      assert name == "dogleg" + "-bfgs";
      BfgsVariant("dogleg");
    } else if name == "subspace-bfgs" {
      assert name == "subspace" + "-bfgs";
      BfgsVariant("subspace");
    } else if name == "dogleg" {
      NotContained(name, "bfgs", 0);
      BaseName(name);
    } else {
      NotContained(name, "bfgs", 1);
      BaseName(name);
    }
  }

  /** A base name (without "bfgs" and without '-') keeps the objective's Hessian and is forwarded unchanged. */
  lemma BaseName(stem: string)
    requires !Contains(stem, "bfgs") && '-' !in stem
    ensures HessianFor(stem) == ObjectiveHessian && ForwardedMethod(stem) == stem
  {
    NotContained(stem, "-bfgs", 0);
  }

  /** The "-bfgs" variant of a base name asks for the quasi-Newton Hessian and forwards the base name. */
  lemma BfgsVariant(stem: string)
    requires '-' !in stem
    ensures HessianFor(stem + "-bfgs") == Bfgs && ForwardedMethod(stem + "-bfgs") == stem
  {
    var s := stem + "-bfgs";
    assert s[|stem| + 1..|stem| + 5] == "bfgs";
    assert At(s, "bfgs", |stem| + 1);
    RemoveTail(stem, "-bfgs");
  }

  /** A string without one of the pattern's characters does not contain the pattern. */
  lemma NotContained(s: string, pat: string, j: nat)
    requires j < |pat| && pat[j] !in s
    ensures !Contains(s, pat)
  {
  }

  /** Cutting the pattern from the end of a string free of the pattern's first character leaves the stem. */
  lemma {:induction false} RemoveTail(stem: string, pat: string)
    requires pat != [] && pat[0] !in stem
    ensures RemoveAll(stem + pat, pat) == stem
    decreases |stem|
  {
    var s := stem + pat;
    if stem == [] {
      assert s == pat;
      assert s[|pat|..] == [];
    } else {
      assert s[..|pat|] != pat by { assert s[0] == stem[0] != pat[0]; }
      assert s[1..] == stem[1..] + pat;
      RemoveTail(stem[1..], pat);
      assert [s[0]] + stem[1..] == stem;
    }
  }

  /** `jnp.allclose(x_scale, 1)` with numpy's default tolerances: |v - 1| <= atol + rtol for every entry. */
  predicate AllCloseToOne(v: seq<real>) {
    forall i :: 0 <= i < |v| ==> -(0.00000001 + 0.00001) <= v[i] - 1.0 <= 0.00000001 + 0.00001
  }

  /** The scale is an array (not the string "jac" or "auto") whose entries are all close to one. */
  predicate UnitScale(xScale: XScale) {
    xScale.Values? && AllCloseToOne(xScale.v)
  }

  const MaxRadiusKey: string := "max_trust_radius"

  /**
    The options after the wrapper's defaults: with a unit scale the initial
    key (a radius for the least-squares driver, a ratio for the scalar one)
    defaults to 1e-3 and the maximum radius to 1.0; a value the caller
    supplied is never overwritten, and with any other scale nothing changes.
   */
  function TrustDefaults(entries: map<string, real>, xScale: XScale, initialKey: string): (r: map<string, real>)
    ensures r.Keys == entries.Keys + (if UnitScale(xScale) then {initialKey, MaxRadiusKey} else {})
    ensures forall k :: k in entries ==> r[k] == entries[k]
    ensures UnitScale(xScale) && initialKey !in entries && initialKey != MaxRadiusKey ==> r[initialKey] == 0.001
    ensures UnitScale(xScale) && MaxRadiusKey !in entries && initialKey != MaxRadiusKey ==> r[MaxRadiusKey] == 1.0
  {
    if UnitScale(xScale) then WithDefault(WithDefault(entries, initialKey, 0.001), MaxRadiusKey, 1.0)
    else entries
  }

  /** The two `setdefault` calls, made on the caller's dictionary in place. */
  method ApplyTrustDefaults(options: OptionsDict, xScale: XScale, initialKey: string)
    modifies options
    ensures options.entries == TrustDefaults(old(options.entries), xScale, initialKey)
  {
    if xScale.Values? && AllCloseToOne(xScale.v) {
      var _ := options.SetDefault(initialKey, 0.001);
      var _ := options.SetDefault(MaxRadiusKey, 1.0);
    }
  }

  /** `options = {} if options is None else options`: the caller's dictionary, or a new empty one. */
  method OptionsOrEmpty(options: OptionsDict?) returns (d: OptionsDict)
    ensures options != null ==> d == options
    ensures options == null ==> fresh(d) && d.entries == map[]
  {
    if options == null {
      d := new OptionsDict(map[]);
    } else {
      d := options;
    }
  }

  /** The stopping tolerances and iteration limit the wrappers forward. */
  datatype StopTol = StopTol(tol: Tolerances, maxiter: real)

  const StopKeys: set<string> := {"ftol", "xtol", "gtol", "maxiter"}

  /** `stoptol["ftol"]`, `stoptol["xtol"]`, `stoptol["gtol"]`, `stoptol["maxiter"]`: a missing key is a KeyError. */
  function StopTolerances(stoptol: map<string, real>): (r: Result<StopTol>)
    ensures r.Ok? <==> StopKeys <= stoptol.Keys
    ensures r.Err? ==> r.error == KeyError
    ensures r.Ok? ==> r.value.tol == Tolerances(stoptol["ftol"], stoptol["xtol"], stoptol["gtol"])
    ensures r.Ok? ==> r.value.maxiter == stoptol["maxiter"]
  {
    if "ftol" in stoptol && "xtol" in stoptol && "gtol" in stoptol && "maxiter" in stoptol then
      Ok(StopTol(Tolerances(stoptol["ftol"], stoptol["xtol"], stoptol["gtol"]), stoptol["maxiter"]))
    else
      Err(KeyError)
  }

  /** The assertion each wrapper opens with: constraints are not supported. */
  function NoConstraint(hasConstraint: bool): (r: Outcome)
    ensures r.Pass? <==> !hasConstraint
    ensures r.Fail? ==> r.error == AssertionError
  {
    if hasConstraint then Fail(AssertionError) else Pass
  }

  /** The options the least-squares driver sees: the caller's (or none) with the wrapper's defaults. */
  function LsqOptions(entries: map<string, real>, xScale: XScale): map<string, real>
  {
    TrustDefaults(entries, xScale, "initial_trust_radius")
  }

  /**
    The "lsq-exact" wrapper: refuse a constraint, default the options, read
    the tolerances and run `lsqtr` on the objective's residuals and Jacobian.
    The defaults are written into the caller's dictionary before a missing
    tolerance is noticed; the driver then pops every option it knows.
   */
  method OptimizeLeastSquares(o: Oracles, hasConstraint: bool, x0: seq<real>, xScale: XScale,
                              stoptol: map<string, real>, options: OptionsDict?)
    returns (r: Result<LsqResult>)
    requires Shaped(o, |x0|, |o.fun(x0)|)
    modifies options
    ensures hasConstraint ==> r == Err(AssertionError) && (options != null ==> options.entries == old(options.entries))
    ensures !hasConstraint && StopTolerances(stoptol).Err? ==>
      r == Err(KeyError) && (options != null ==> options.entries == LsqOptions(old(options.entries), xScale))
    ensures !hasConstraint && StopTolerances(stoptol).Ok? ==>
      var d := LsqOptions(if options == null then map[] else old(options.entries), xScale);
      var s := SettingsOf(d, Some(stoptol["maxiter"]), x0, xScale, o);
      && (options != null ==> options.entries == Resolve(d, Some(stoptol["maxiter"]), x0, xScale, o.jac(x0), o).1)
      && (s.Err? ==> r == Err(s.error))
      && (r.Err? ==> s.Err? || r.error == LinAlgError)
      && (r.Ok? ==> s.Ok? && Reports(o, s.value, x0, r.value))
      && (r.Ok? && StopsAtStart(o, s.value, x0, stoptol["gtol"]) ==> StartReport(o, s.value, x0, stoptol["gtol"], r.value))
  {
    var admitted := NoConstraint(hasConstraint);
    if admitted.Fail? {
      return Err(admitted.error);
    }
    var d := OptionsOrEmpty(options);
    ApplyTrustDefaults(d, xScale, "initial_trust_radius");
    var stop :- StopTolerances(stoptol);
    r := Lsqtr(o, x0, xScale, stop.tol, Some(stop.maxiter), d);
  }

  /**
    With a unit scale of the right length and no options from the caller,
    the least-squares driver starts from the wrapper's radius 1e-3 and caps
    the radius at 1.0.
   */
  lemma LsqUnitScaleRadii(o: Oracles, x0: seq<real>, v: seq<real>, maxiter: real)
    requires Shaped(o, |x0|, |o.fun(x0)|)
    requires AllCloseToOne(v) && (|v| == |x0| || |v| == 1)
    ensures SettingsOf(LsqOptions(map[], Values(v)), Some(maxiter), x0, Values(v), o).Ok?
    ensures SettingsOf(LsqOptions(map[], Values(v)), Some(maxiter), x0, Values(v), o).value.radius == 0.001
    ensures SettingsOf(LsqOptions(map[], Values(v)), Some(maxiter), x0, Values(v), o).value.tr.maxRadius == 1.0
  {
    var d := LsqOptions(map[], Values(v));
    assert d == map["initial_trust_radius" := 0.001, MaxRadiusKey := 1.0];
    ResolveRejectsUnknown(d, Some(maxiter), x0, Values(v), o.jac(x0), o);
    ResolveRadiiGiven(d, Some(maxiter), x0, Values(v), o);
  }

  /** What the scalar trust-region wrapper hands to `fmintr`. */
  datatype FminCall = FminCall(methodName: string, hessian: Hessian, xScale: XScale, tol: Tolerances, maxiter: real,
                               options: OptionsDict)

  /**
    The wrapper for "dogleg", "subspace" and their "-bfgs" variants: refuse a
    constraint, default the options (the initial key is a trust ratio here),
    choose the Hessian from the method name and forward the base method.
   */
  method OptimizeFminScalar(hasConstraint: bool, methodName: string, xScale: XScale, stoptol: map<string, real>,
                            options: OptionsDict?)
    returns (r: Result<FminCall>)
    modifies options
    ensures hasConstraint ==> r == Err(AssertionError) && (options != null ==> options.entries == old(options.entries))
    ensures !hasConstraint && options != null ==>
      options.entries == TrustDefaults(old(options.entries), xScale, "initial_trust_ratio")
    ensures !hasConstraint ==> (r.Ok? <==> StopKeys <= stoptol.Keys)
    ensures r.Err? && !hasConstraint ==> r.error == KeyError
    ensures r.Ok? ==>
      && r.value.methodName == ForwardedMethod(methodName)
      && (r.value.hessian == Bfgs <==> Contains(methodName, "bfgs"))
      && r.value.xScale == xScale
      && r.value.tol == Tolerances(stoptol["ftol"], stoptol["xtol"], stoptol["gtol"])
      && r.value.maxiter == stoptol["maxiter"]
      && (options != null ==> r.value.options == options)
      && r.value.options.entries ==
           TrustDefaults(if options == null then map[] else old(options.entries), xScale, "initial_trust_ratio")
  {
    var admitted := NoConstraint(hasConstraint);
    if admitted.Fail? {
      return Err(admitted.error);
    }
    var d := OptionsOrEmpty(options);
    var hess := HessianFor(methodName);
    ApplyTrustDefaults(d, xScale, "initial_trust_ratio");
    var stop :- StopTolerances(stoptol);
    r := Ok(FminCall(ForwardedMethod(methodName), hess, xScale, stop.tol, stop.maxiter, d));
  }

  /** What the stochastic wrapper hands to `sgd`. */
  datatype SgdCall = SgdCall(methodName: string, tol: Tolerances, maxiter: real, options: OptionsDict)

  /** The "sgd" wrapper: refuse a constraint, default the options to empty, forward everything unchanged. */
  method OptimizeStochastic(hasConstraint: bool, methodName: string, stoptol: map<string, real>, options: OptionsDict?)
    returns (r: Result<SgdCall>)
    ensures hasConstraint ==> r == Err(AssertionError)
    ensures !hasConstraint ==> (r.Ok? <==> StopKeys <= stoptol.Keys)
    ensures r.Err? && !hasConstraint ==> r.error == KeyError
    ensures r.Ok? ==>
      && r.value.methodName == methodName
      && r.value.tol == Tolerances(stoptol["ftol"], stoptol["xtol"], stoptol["gtol"])
      && r.value.maxiter == stoptol["maxiter"]
      && (options != null ==> r.value.options == options && r.value.options.entries == options.entries)
      && (options == null ==> r.value.options.entries == map[])
  {
    var admitted := NoConstraint(hasConstraint);
    if admitted.Fail? {
      return Err(admitted.error);
    }
    var d := OptionsOrEmpty(options);
    var stop :- StopTolerances(stoptol);
    r := Ok(SgdCall(methodName, stop.tol, stop.maxiter, d));
  }
}
