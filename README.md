# DESC objectives and least-squares driver in Dafny

This project models four parts of DESC, a stellarator equilibrium and optimisation code.
It covers the bookkeeping around the numerics, not the numerics themselves.

- **Objectives and the state vector** (`desc/objectives/objective_funs.py`). An
  `ObjectiveFunction` lays its named arguments (`R_lmn`, `Z_lmn`, `p_l`, ...) out
  as consecutive blocks of one flat state vector. It packs and unpacks that vector
  and sums the residual sizes `dim_f` of its member objectives. Its accessors raise
  before `build`. A member `_Objective` turns a raw value into a weighted residual.
  The residual is taken against a target, or against a `[lower, upper]` bounds window.
  Modules: `Objectives` (pure functions), `StateVector` (block offsets, slices and
  partition lemmas), and `ObjectiveFunctions` (the `ObjectiveFunction` class, whose
  methods update its fields the way the Python object does).
- **Linear objectives** (`desc/objectives/linear_objectives.py`). The `Fix*`
  classes first select a set of spectral modes `(l, m, n)`: none, all, or the
  intersection of a list with a basis. They then build a constant matrix `A`, or an
  index set, and a default target that makes the residual zero at the equilibrium
  they were built from. Modules:
  - `Modes`: mode triples, their lexicographic order, and `np.intersect1d`.
  - `LinearBuild`: each class's `build` as a function from the old object state to
    the new one, plus lemmas about those functions.
  - `LinearObjectives`: a `LinearObjective` class whose `Build` method fills `A`
    entry by entry. It is proved to produce exactly the state `LinearBuild.BuildSpec`
    describes.
- **The least-squares trust-region driver** (`lsqtr` in
  `desc/optimize/least_squares.py`).
  - Options are resolved by popping keys from the caller's dictionary; leftover keys
    are rejected.
  - An outer loop tests the gradient norm. An inner loop retries trust-region
    steps until one lowers the cost.
  - The driver keeps evaluation counters and the `allx` / `alltr` histories.
  - The residual function, Jacobian, norms, the exact trust-region step, radius
    update, termination test and Jacobian scaling are *oracles*: uninterpreted
    function parameters, bundled in `LeastSquares.Oracles`.
  - Modules: `OptionsDicts` (a mutable string-to-number dictionary with `pop` and
    `setdefault`) and `LeastSquares`.
- **The optimizer wrappers** (`desc/optimize/_desc_wrappers.py`, module `DescWrappers`):
  - the capability flags each method name is registered with;
  - the `"bfgs"` test and the `"-bfgs"` removal on the method name;
  - the conditional `setdefault` of trust-radius options;
  - the rejection of constraints;
  - the forwarding of the stopping tolerances.

Where the class docstrings and the code disagree, the model follows the code.
The docstrings of `FixBoundaryR/Z`, `FixAxisR/Z` and `FixSumModesR/Z` say the
selected modes are rearranged "to match order of" the basis. But `np.intersect1d`
returns the common modes in ascending lexicographic `(l, m, n)` order.
`Modes.Intersect1d` and `LinearBuild.Select` state that order.

## Model

| member | source | states |
|---|---|---|
| Common.Take | desc/objectives/linear_objectives.py:968 | numpy fancy indexing succeeds exactly when every index is within [-n, n), picks the entry at each (negative indices counting from the end), and otherwise raises IndexError |
| Common.MatVec | desc/objectives/linear_objectives.py:184 | np.dot of a matrix and a vector fails with ValueError exactly when some row does not have the vector's length, and otherwise has one dot product per row |
| Common.UnitRowPicks | desc/objectives/linear_objectives.py:166 | row k of the identity times a vector picks entry k |
| Objectives.InitCheck | desc/objectives/objective_funs.py:493 | construction passes exactly when every weight is strictly positive, otherwise AssertionError |
| Objectives.BLen | desc/objectives/objective_funs.py:616-642 | the broadcast length of two compatible 1-d shapes is one of them, the non-unit one when there is one, and both broadcast to it |
| Objectives.CheckDimensions | desc/objectives/objective_funs.py:569-585 | passes iff bounds (when given) broadcast to dim_f and to each other with lower <= upper, or else the target (when given) broadcasts to dim_f, and the weight broadcasts to dim_f; every failure is a ValueError |
| Objectives.BoundsResidual | desc/objectives/objective_funs.py:621-634 | the bounds error is zero inside the window, negative (value minus lower) below it and positive (value minus upper) above it, and zero only inside it when lower <= upper |
| Objectives.ComputeScaled | desc/objectives/objective_funs.py:616-642 | succeeds exactly when value, reference and weight shapes broadcast together (ValueError otherwise), has the broadcast length, and every entry, with scalar or length-1 operands repeated, has the meaning of `ScaledMeaning`: (value / normalization - target) * weight, of the value's sign against the target under a positive weight; or zero inside the bounds and, for ordered bounds, (value - bound passed) * weight outside, negative below and positive above |
| Objectives.ScaledEntry | desc/objectives/objective_funs.py:616-642 | one broadcast entry of the scaled residual has the meaning of `ScaledMeaning` for its position, and is zero when the value equals a normalised target |
| Objectives.WeightedDifference | desc/objectives/objective_funs.py:636-642 | the weighted difference from a target equals (value - target) * weight and, under a positive weight, is zero, negative or positive exactly as the value is at, below or above the target |
| Objectives.WeightedBoundsError | desc/objectives/objective_funs.py:621-642 | the weighted bounds error is zero inside the window, is (value - bound passed) * weight outside an ordered window, and under a positive weight is zero, negative or positive exactly inside, below or above it |
| Objectives.SumSquares | desc/objectives/objective_funs.py:649 | a sum of squares is non-negative and zero exactly when every entry is zero |
| Objectives.HalfSumSquares | desc/objectives/objective_funs.py:649 | half the sum of squares is non-negative and zero exactly when every residual is zero |
| Objectives.ComputeScalar | desc/objectives/objective_funs.py:644-650 | a scalar objective returns its one residual; a vector objective returns a non-negative value that is zero exactly when all residuals are zero |
| Objectives.Zip | desc/objectives/objective_funs.py:675 | the dictionary built from names and positional values has exactly the names as keys and, for distinct names, maps each name to its value |
| Objectives.ParseArgs | desc/objectives/objective_funs.py:666-682 | succeeds iff positional and keyword arguments are not mixed, a positional call has one value per argument name, and a keyword call supplies every name; failures are AssertionError; the result maps every name to its value |
| Objectives.Normalization | desc/objectives/objective_funs.py:717-722 | reading the normalization fails with ValueError exactly when normalising is on and the objective is not built, and otherwise returns the stored value |
| Objectives.Fixed | desc/objectives/objective_funs.py:764-769 | an objective is fixed only if it is linear, and a linear one is fixed exactly when its fixed flag is set |
| StateVector.SelectArgs | desc/objectives/objective_funs.py:61-62 | the state-vector arguments are exactly the used arguments that occur in the global argument order, any two of them in the same relative order as there (`InOrder`), without repeats |
| StateVector.StartMonotone | desc/objectives/objective_funs.py:66-70 | a later block starts at or after the end of every earlier block |
| StateVector.Owner | desc/objectives/objective_funs.py:66-70 | every position below dim_x lies in some block's index range |
| StateVector.BlocksDisjoint | desc/objectives/objective_funs.py:66-70 | no position lies in two blocks' index ranges |
| StateVector.Lengths | desc/objectives/objective_funs.py:66-70 | the block lengths are the lengths of the parts, one per part |
| StateVector.Concat | desc/objectives/objective_funs.py:281-286 | concatenated parts have the total length of the parts |
| StateVector.StartStep | desc/objectives/objective_funs.py:66-70 | block k+1 starts where block k ends |
| StateVector.StartWithin | desc/objectives/objective_funs.py:66-70 | every block ends within dim_x |
| StateVector.Block | desc/objectives/objective_funs.py:272-274 | the slice for argument k has that argument's dimension |
| StateVector.ConcatBlock | desc/objectives/objective_funs.py:272-274 | slicing block k out of concatenated parts gives back part k |
| StateVector.ConcatSlice | desc/objectives/objective_funs.py:281-286 | the range of block k in concatenated parts holds exactly part k |
| StateVector.SliceAfterPrefix | desc/objectives/objective_funs.py:272-274 | a slice behind a prefix reads the suffix shifted by the prefix length |
| StateVector.BlockIndices | desc/objectives/objective_funs.py:66-69 | the index array of argument k is the consecutive range starting at its offset, of its dimension |
| StateVector.ConcatSnoc | desc/objectives/objective_funs.py:281-286 | appending a part appends its entries to the concatenation |
| StateVector.TakeBlock | desc/objectives/objective_funs.py:272-274 | fancy indexing with an argument's index range never fails and returns that argument's block |
| StateVector.UnpackBlocks | desc/objectives/objective_funs.py:271-274 | unpacking the first k arguments yields exactly those keys, each mapped to its block |
| ObjectiveFunctions.UsedArgsMembers | desc/objectives/objective_funs.py:61 | an argument is used exactly when some member objective takes it |
| ObjectiveFunctions.ResolveMode | desc/objectives/objective_funs.py:343-347 | "auto" resolves to "scalar" exactly for a scalar objective and to "lsq" otherwise; any other mode is kept |
| ObjectiveFunctions.Fill | desc/objectives/objective_funs.py:281-286 | a value written into a block of length d fills it, a length-1 value repeated |
| ObjectiveFunctions.BlockLengths | desc/objectives/objective_funs.py:64-69 | the block lengths are the dimensions of the arguments, in argument order |
| ObjectiveFunctions.LayOut | desc/objectives/objective_funs.py:64-70 | the accumulated dim_x is the sum of the argument dimensions, and each argument's index array is its consecutive block range |
| ObjectiveFunctions.CoveredPrefix | desc/objectives/objective_funs.py:206-212 | members whose arguments are all unpacked stay covered when only a prefix of them is evaluated |
| ObjectiveFunctions.StackResiduals | desc/objectives/objective_funs.py:206-213 | stacking member residuals in order gives the concatenation of each member's scaled residuals on its own arguments |
| ObjectiveFunctions.ObjectiveFunction.constructor | desc/objectives/objective_funs.py:38-57 | a new objective function holds its members and jit flag and is neither built nor compiled |
| ObjectiveFunctions.ObjectiveFunction.SetStateVector | desc/objectives/objective_funs.py:59-70 | with at least one member the arguments, dimensions, index arrays and dim_x are laid out consecutively; with none it fails with ValueError and changes nothing |
| ObjectiveFunctions.ObjectiveFunction.Build | desc/objectives/objective_funs.py:152-190 | after build, dim_f is the sum of the members' dim_f, scalar holds iff dim_f == 1, and the object is built exactly when there is a member (ValueError otherwise) |
| ObjectiveFunctions.ObjectiveFunction.DimX | desc/objectives/objective_funs.py:430-435 | dim_x raises RuntimeError before build and afterwards is the sum of the argument dimensions |
| ObjectiveFunctions.ObjectiveFunction.DimF | desc/objectives/objective_funs.py:437-442 | dim_f raises RuntimeError before build and afterwards is the sum of the members' dim_f |
| ObjectiveFunctions.ObjectiveFunction.Scalar | desc/objectives/objective_funs.py:398-403 | scalar raises RuntimeError before build and afterwards holds iff the members' dim_f sum to 1 |
| ObjectiveFunctions.ObjectiveFunction.Unpacked | desc/objectives/objective_funs.py:251-275 | unpacking gives one entry per argument, each the slice of x at that argument's index range |
| ObjectiveFunctions.ObjectiveFunction.UnpackState | desc/objectives/objective_funs.py:251-275 | RuntimeError before build, ValueError when the length of x is not dim_x, and otherwise the per-argument slices |
| ObjectiveFunctions.ObjectiveFunction.X | desc/objectives/objective_funs.py:281-286 | the state vector of an equilibrium has length dim_x and holds each argument's value in its block; it fails with ValueError when a value fits neither the block nor length 1 |
| ObjectiveFunctions.ObjectiveFunction.UsedArgsSelected | desc/objectives/objective_funs.py:61-62 | every state-vector argument belongs to the global argument order |
| ObjectiveFunctions.ObjectiveFunction.UnpackPacked | desc/objectives/objective_funs.py:251-286 | round trip: unpacking the state vector of an equilibrium returns each argument's value (filled to its dimension) |
| ObjectiveFunctions.ObjectiveFunction.Compute | desc/objectives/objective_funs.py:192-213 | the residual vector is the stacking of every member's scaled residual on the unpacked arguments, with unpack_state's errors |
| ObjectiveFunctions.ObjectiveFunction.ArgumentsCovered | desc/objectives/objective_funs.py:206-209 | after build, unpacking supplies every argument each member takes |
| ObjectiveFunctions.ObjectiveFunction.ComputeScalar | desc/objectives/objective_funs.py:215-230 | the scalar objective is half the sum of squares of the stacked residuals, hence non-negative, with unpack_state's errors |
| ObjectiveFunctions.ObjectiveFunction.Compile | desc/objectives/objective_funs.py:323-386 | RuntimeError before build, changing nothing; otherwise compiled, and with jax the resolved mode is recorded; the layout is untouched |
| ObjectiveFunctions.FilledSnoc | desc/objectives/objective_funs.py:281-286 | the blocks written so far grow by one filled block per argument |
| ObjectiveFunctions.PackState | desc/objectives/objective_funs.py:281-286 | writing each argument's value into its block of a zero vector succeeds iff every value fits its block (ValueError otherwise) and gives the concatenation of the filled blocks |
| ObjectiveFunctions.WriteBlock | desc/objectives/objective_funs.py:285 | writing block k extends the written prefix by that block's filled value |
| ObjectiveFunctions.BlockWritten | desc/objectives/objective_funs.py:285 | a prefix followed by a written block is the longer prefix |
| ObjectiveFunctions.Scatter | desc/objectives/objective_funs.py:285 | assignment through a consecutive index array overwrites exactly that range with the filled value and leaves the rest |
| ObjectiveFunctions.ArgsOf | desc/objectives/objective_funs.py:277-279 | the positional arguments are the unpacked values of the member's argument names, in order |
| Modes.Insert | desc/objectives/linear_objectives.py:124-128 | inserting a mode into a sorted unique list keeps it sorted and unique and adds exactly that mode |
| Modes.SortedUnique | desc/objectives/linear_objectives.py:124-128 | np.unique: the result is strictly sorted and has the same modes |
| Modes.KeepCommon | desc/objectives/linear_objectives.py:124-128 | keeping the modes of one list that occur in another gives exactly the common modes, sorted when the first was |
| Modes.FirstIndex | desc/objectives/linear_objectives.py:124-128 | the index returned for a mode is its first occurrence |
| Modes.Intersect1d | desc/objectives/linear_objectives.py:124-128 | the common modes are exactly those in both lists, strictly ascending, and both index arrays point at first occurrences of them |
| Modes.IntersectIndicesDistinct | desc/objectives/linear_objectives.py:124-128 | each mode of either list is selected at most once |
| Modes.IntersectSize | desc/objectives/linear_objectives.py:124-143 | at most as many modes are fixed as were asked for, and at most as many as the basis holds |
| Modes.DistinctIndicesBound | desc/objectives/linear_objectives.py:124-143 | distinct indices below n number at most n |
| Modes.Below | desc/objectives/linear_objectives.py:116 | the index set below n has n elements |
| Modes.InjectiveImage | desc/objectives/linear_objectives.py:124-143 | a list of distinct indices has as many values as entries |
| Modes.SubsetSize | desc/objectives/linear_objectives.py:124-143 | a subset is no larger than its superset |
| LinearBuild.InitChecks | desc/objectives/linear_objectives.py:1157-1169 | construction fails with ValueError when FixMode/FixSumModes get modes None/False, with ValueError when FixSumModes gets a target of size > 1, with AssertionError on a non-positive weight, and passes otherwise (FixModeR/Z check modes at 885-889) |
| LinearBuild.Select | desc/objectives/linear_objectives.py:112-132 | no modes select nothing; all modes select the whole basis in order; a list selects the common modes (ascending) with their first basis positions and their positions in the list, each basis index at most once |
| LinearBuild.Assign | desc/objectives/linear_objectives.py:169-171 | setting the target stores it and re-checks the dimensions |
| LinearBuild.Finish | desc/objectives/objective_funs.py:601-611 | the base build passes iff the dimensions check passes, and then only marks the objective built |
| LinearBuild.GivenTarget | desc/objectives/linear_objectives.py:144-152 | a given target with modes True/False raises RuntimeError, with modes None an UnboundLocalError, an out-of-range modes index an IndexError, and otherwise the target is reordered by the modes indices |
| LinearBuild.EyeRows | desc/objectives/linear_objectives.py:166 | the rows of the identity picked by idx form an |idx| x n matrix |
| LinearBuild.EyeRowsPick | desc/objectives/linear_objectives.py:166-185 | multiplying by identity rows idx picks x[idx] |
| LinearBuild.AxisSign | desc/objectives/linear_objectives.py:652-660 | the axis sign is +1 when (l // 2) is even and -1 otherwise |
| LinearBuild.AxisMatrix | desc/objectives/linear_objectives.py:645-660 | A has one row per selected n and one column per basis mode, each entry given by the signed m == 0 pattern |
| LinearBuild.AxisRowDot | desc/objectives/linear_objectives.py:645-660 | row j of A applied to x is the signed sum of the m == 0 coefficients whose n matches |
| LinearBuild.AxisRowPrefix | desc/objectives/linear_objectives.py:645-660 | the same signed sum over any prefix of the basis |
| LinearBuild.AxisTarget | desc/objectives/linear_objectives.py:662-666 | the default axis target has one entry per selected n, the last axis coefficient whose n matches (zero when none) |
| LinearBuild.Ns | desc/objectives/linear_objectives.py:641-644 | ns lists the n of each selected mode |
| LinearBuild.Positions | desc/objectives/linear_objectives.py:1229-1231 | get_idx finds each selected mode's position in the basis |
| LinearBuild.PositionsDistinct | desc/objectives/linear_objectives.py:1229-1231 | distinct modes sit at distinct basis positions |
| LinearBuild.SumRow | desc/objectives/linear_objectives.py:1228-1231 | the weighted-sum row has one entry per basis mode |
| LinearBuild.SumRowUntouched | desc/objectives/linear_objectives.py:1228-1231 | an entry no selected mode writes stays zero |
| LinearBuild.SumRowDot | desc/objectives/linear_objectives.py:1228-1235 | the row after k writes, applied to x, is the weighted sum of the first k selected coefficients |
| LinearBuild.SumRowStep | desc/objectives/linear_objectives.py:1229-1231 | each write adds its weight times the selected coefficient to the row's product with x |
| LinearBuild.WeightedPickStep | desc/objectives/linear_objectives.py:1235 | the weighted sum of picked coefficients grows term by term |
| LinearBuild.SumModesWeights | desc/objectives/linear_objectives.py:1206-1208 | reordering the given sum weights by the modes indices can only fail with IndexError |
| LinearBuild.SumModesRowResidual | desc/objectives/linear_objectives.py:1222-1235 | when it builds, the weighted-sum row times the equilibrium coefficients equals the default target |
| LinearBuild.SumRowFull | desc/objectives/linear_objectives.py:1228-1235 | the full row applied to x is the dot product of the sum weights with x at the selected indices |
| LinearBuild.ProfileIndices | desc/objectives/linear_objectives.py:1500-1505 | indices False/None fix nothing, True fixes every parameter index in order, a list fixes exactly the given indices |
| LinearBuild.Compute | desc/objectives/linear_objectives.py:179-185 | compute is A times x for boundary, axis and sum-of-modes objectives, x at the fixed indices for mode, Theta-SFL and profile objectives (AttributeError when A or the indices were never set), and x itself for Psi (FixBoundaryR; the same holds of the compute methods at 525-540, 680-695, 954-968, 1239-1254, 1606-1620 and 2373-2387) |
| LinearBuild.BoundaryDefaultResidual | desc/objectives/linear_objectives.py:166-185 | a boundary objective built with its default target has zero residual at the surface coefficients it was built from |
| LinearBuild.BoundaryTargetFollowsModes | desc/objectives/linear_objectives.py:124-166 | with a given target, row k of A is the unit row of the k-th selected basis mode and target entry k is the given target at that mode's position in the modes list |
| LinearBuild.LastMatchUnique | desc/objectives/linear_objectives.py:662-666 | when the axis n values are distinct, the target entry for a mode's n is that mode's coefficient |
| LinearBuild.AxisDefaultAll | desc/objectives/linear_objectives.py:662-666 | with all axis modes and distinct n, the default target is exactly the axis coefficients |
| LinearBuild.AxisComputeRows | desc/objectives/linear_objectives.py:641-695 | a built axis objective returns, per selected n, the signed sum of the m == 0 coefficients of that n |
| LinearBuild.ModeDefaultResidual | desc/objectives/linear_objectives.py:936-968 | a mode objective built with its default target has zero residual at the coefficients it was built from |
| LinearBuild.ModeAllNeverBuilds | desc/objectives/linear_objectives.py:912-950 | with modes True the index set is never assigned: the default target raises AttributeError, a given target raises RuntimeError, and the objective is not built |
| LinearBuild.SumModesDefaultResidual | desc/objectives/linear_objectives.py:1222-1254 | a sum-of-modes objective built with its default target has zero residual at the coefficients it was built from |
| LinearBuild.SumModesSpecRow | desc/objectives/linear_objectives.py:1192-1235 | a successful sum-of-modes build is the weighted-sum row over distinct basis positions |
| LinearBuild.SumModesAllNeedsTarget | desc/objectives/linear_objectives.py:1192-1235 | with modes True and no target the build always fails (the index set is never assigned) |
| LinearBuild.ThetaZero | desc/objectives/linear_objectives.py:515-540 | the Theta-SFL residual is zero exactly when every lambda coefficient is zero |
| LinearBuild.ProfileDefaultResidual | desc/objectives/linear_objectives.py:1497-1511 | a profile objective built with its default target has zero residual at the profile parameters it was built from |
| LinearBuild.ProfileMissing | desc/objectives/linear_objectives.py:1595-1599 | fixing a profile the equilibrium does not have raises RuntimeError and changes nothing; a successful build implies the profile exists |
| LinearBuild.PsiDefaultResidual | desc/objectives/linear_objectives.py:2362-2387 | a Psi objective built with its default target has zero residual at the equilibrium's Psi |
| LinearObjectives.FillAxisMatrix | desc/objectives/linear_objectives.py:649-660 | the entry-by-entry loop over m == 0 basis modes produces exactly the signed axis matrix |
| LinearObjectives.WriteColumn | desc/objectives/linear_objectives.py:652-660 | writing column i sets that column's signed entries in the matching rows and leaves the other columns |
| LinearObjectives.FillAxisTarget | desc/objectives/linear_objectives.py:662-666 | the loop over axis coefficients produces the default axis target |
| LinearObjectives.FillSumRow | desc/objectives/linear_objectives.py:1228-1231 | the loop writing each selected mode's weight produces the weighted-sum row, or fails with IndexError exactly when there are fewer weights than modes, leaving the row with the weights written before that |
| LinearObjectives.LinearObjective.constructor | desc/objectives/linear_objectives.py:1145-1177 | a new objective holds its kind, bounds, weight and flags, has normalization 1, nothing built, and its construction checks passed (FixSumModesR; the other constructors at 71-97, 874-897 and 1457-1480 store the same fields) |
| LinearObjectives.LinearObjective.Create | desc/objectives/linear_objectives.py:1157-1169 | construction succeeds iff the construction checks pass and otherwise fails with their error |
| LinearObjectives.LinearObjective.SetTarget | desc/objectives/objective_funs.py:689-691 | the target setter stores the target and re-checks dimensions, as `Assign` |
| LinearObjectives.LinearObjective.BuildCommon | desc/objectives/objective_funs.py:601-611 | the base build changes the object exactly as `Finish` |
| LinearObjectives.LinearObjective.ReorderTarget | desc/objectives/linear_objectives.py:144-152 | reordering a given target changes the object exactly as `GivenTarget` |
| LinearObjectives.LinearObjective.BuildBoundary | desc/objectives/linear_objectives.py:99-177 | FixBoundaryR/Z build (non-fixed-boundary branch) leaves the object exactly in the state `BoundarySpec` describes |
| LinearObjectives.LinearObjective.BuildSelected | desc/objectives/linear_objectives.py:143-177 | the boundary build after mode selection leaves the state `BoundaryFrom` describes |
| LinearObjectives.LinearObjective.BuildAxis | desc/objectives/linear_objectives.py:597-678 | FixAxisR/Z build leaves the object exactly in the state `AxisSpec` describes |
| LinearObjectives.LinearObjective.BuildAxisRows | desc/objectives/linear_objectives.py:648-678 | the axis build after the matrix is filled leaves the state `AxisFrom` describes: with no target, a zero target stored by the setter (left in place when the dimension check fails) and filled with the axis values only after the check passes |
| LinearObjectives.LinearObjective.BuildMode | desc/objectives/linear_objectives.py:899-952 | FixModeR/Z build leaves the object exactly in the state `ModeSpec` describes |
| LinearObjectives.LinearObjective.BuildSumModes | desc/objectives/linear_objectives.py:1179-1237 | FixSumModesR/Z build leaves the object exactly in the state `SumModesSpec` describes |
| LinearObjectives.LinearObjective.BuildSumSelected | desc/objectives/linear_objectives.py:1218-1237 | the sum build after selection leaves the state `SumModesFrom` describes, including the partly written row A that a too-short weight list leaves behind its IndexError |
| LinearObjectives.LinearObjective.SelectSumModes | desc/objectives/linear_objectives.py:1192-1208 | storing the selection and reordering the sum weights changes the object exactly as `SumModesWeights` |
| LinearObjectives.LinearObjective.BuildSumRow | desc/objectives/linear_objectives.py:1222-1237 | filling the row and setting the default target changes the object exactly as `SumModesRow` |
| LinearObjectives.LinearObjective.BuildTheta | desc/objectives/linear_objectives.py:502-523 | FixThetaSFL build leaves the object exactly in the state `ThetaSpec` describes |
| LinearObjectives.LinearObjective.BuildProfile | desc/objectives/linear_objectives.py:1582-1604 | a profile build leaves the object exactly in the state `ProfileSpec` describes |
| LinearObjectives.LinearObjective.FixIndices | desc/objectives/linear_objectives.py:1497-1513 | choosing the fixed indices and the default target changes the object exactly as `ProfileFix` |
| LinearObjectives.LinearObjective.BuildPsi | desc/objectives/linear_objectives.py:2349-2371 | FixPsi build leaves the object exactly in the state `PsiSpec` describes |
| LinearObjectives.LinearObjective.Build | desc/objectives/linear_objectives.py:99-177 | every build leaves the object in the state `BuildSpec` describes, so the zero-residual lemmas above hold of the built object (FixBoundaryR; the other builds are cited on the rows of the Build methods above) |
| LinearObjectives.LinearObjective.ComputeAt | desc/objectives/linear_objectives.py:179-185 | compute on the object's current fields is `LinearBuild.Compute` (FixBoundaryR; the other compute methods as on the row of LinearBuild.Compute) |
| OptionsDicts.Popped | desc/optimize/least_squares.py:118-142 | dict.pop removes the key, keeps every other entry, and returns the stored value or else the default |
| OptionsDicts.WithDefault | desc/optimize/_desc_wrappers.py:64-65 | dict.setdefault adds the key with the value only when absent and otherwise leaves the dictionary unchanged |
| OptionsDicts.DefaultNeverOverwrites | desc/optimize/_desc_wrappers.py:64-65 | a caller-supplied value survives any number of setdefaults |
| OptionsDicts.PopAfterDefault | desc/optimize/_desc_wrappers.py:64-65 | popping a defaulted key returns the caller's value if there was one, else the default, and leaves the original dictionary minus that key |
| OptionsDicts.OptionsDict.constructor | desc/optimize/_desc_wrappers.py:62 | a new dictionary holds the given entries |
| OptionsDicts.OptionsDict.Pop | desc/optimize/least_squares.py:118-142 | pop in place: the value and remaining entries are those of `Popped` |
| OptionsDicts.OptionsDict.SetDefault | desc/optimize/_desc_wrappers.py:64-65 | setdefault in place: the entries become `WithDefault` and the returned value is the one now stored |
| LeastSquares.Mul | desc/optimize/least_squares.py:136 | elementwise product of two vectors |
| LeastSquares.Add | desc/optimize/least_squares.py:217 | elementwise sum of two vectors |
| LeastSquares.Scaling | desc/optimize/least_squares.py:128-133 | "jac"/"auto" turn Jacobian scaling on; another string, or a vector that does not broadcast to x, is an error; otherwise scale and inverse scale have length n |
| LeastSquares.RadiiInverted | desc/optimize/least_squares.py:135-145 | as written, a zero default radius and no radius options give initial radius 1.0 but maximum radius 0.0 |
| LeastSquares.Radii | desc/optimize/least_squares.py:135-145 | the initial radius is never zero: a given non-zero radius or non-zero default is used as is; a given maximum is kept, and a defaulted maximum is at least a positive initial radius |
| LeastSquares.PopLimits | desc/optimize/least_squares.py:116-121 | max_nfev defaults to maxiter and max_njev to max_nfev, the norm orders default to inf and 2, and the four keys leave the dictionary |
| LeastSquares.PopStepOptions | desc/optimize/least_squares.py:123-126 | the geodesic-acceleration step and ratio default to 1e-3 and 0, both history flags to true, and the four keys leave the dictionary |
| LeastSquares.PopRadii | desc/optimize/least_squares.py:135-145 | the two radii are those of the corrected `Radii` (Findings), and their keys leave the dictionary |
| LeastSquares.PopTrParams | desc/optimize/least_squares.py:137-142 | the trust-region parameters default to 0, 0.75, 2, 0.25, 0.25, and their keys leave the dictionary |
| LeastSquares.Resolve | desc/optimize/least_squares.py:116-149 | resolved settings leave the options dictionary empty and give scale vectors of length n |
| LeastSquares.ResolveRejectsUnknown | desc/optimize/least_squares.py:146-149 | resolution succeeds exactly when every option key is known; otherwise ValueError, and the unknown keys are what is left |
| LeastSquares.ResolveLeaves | desc/optimize/least_squares.py:118-149 | the dictionary left is the input minus every popped key, and resolution succeeds iff nothing is left |
| LeastSquares.ResolveBadScale | desc/optimize/least_squares.py:128-133 | a bad x_scale fails after only the limit and step options were popped |
| LeastSquares.GetOutside | desc/optimize/least_squares.py:118-142 | a key not yet popped reads the same as in the caller's dictionary |
| LeastSquares.ResolveUsesGiven | desc/optimize/least_squares.py:116-126 | maxiter defaults to 100 n; every limit and step option is the caller's value or its default |
| LeastSquares.ResolveTrGiven | desc/optimize/least_squares.py:138-142 | every trust-region parameter is the caller's value or its default |
| LeastSquares.ResolveRadiiGiven | desc/optimize/least_squares.py:135-145 | the radii are the corrected `Radii` (Findings) of the caller's options with default the 2-norm of x0 times the inverse scale |
| LeastSquares.RadiiOutside | desc/optimize/least_squares.py:135-137 | popping the limit and step options does not change the radii |
| LeastSquares.ResolveDefaults | desc/optimize/least_squares.py:116-145 | with no options: max_nfev = max_njev = maxiter, both histories on, no acceleration, gradient norm order inf, a non-zero radius and, with the corrected `Radii`, a maximum radius 1000 times it (as written it is 0 when x0 scales to zero, Findings) |
| LeastSquares.LinAlgReportedAsSuccess | desc/optimize/least_squares.py:193-196 | as written, the success value set on a solver LinAlgError is truthy |
| LeastSquares.LinAlgStatus | desc/optimize/least_squares.py:193-196 | corrected: a solver failure is reported as a decided, falsy success |
| LeastSquares.IdleLoopSpins | desc/optimize/least_squares.py:167-293 | as written, with the evaluation budget spent at the loop head and the gradient above gtol, no number of passes ever stops the loop |
| LeastSquares.ResultMessageAsWritten | desc/optimize/least_squares.py:295-307 | building the result fails exactly when message was never assigned |
| LeastSquares.ImmediateStopUnbound | desc/optimize/least_squares.py:169-307 | as written, a start already below gtol stops at once with success and no message, so building the result raises UnboundLocalError |
| LeastSquares.Head | desc/optimize/least_squares.py:169-177 | corrected loop head: stops iff the gradient is below gtol, success is decided, or the budget is spent; below gtol it reports success, keeping an assigned message (such as the None left by `check_termination`) and giving "gtol" only when none was ever assigned; a spent budget reports failure "max_nfev"; a stop always has a message |
| LeastSquares.HeadRefinesWritten | desc/optimize/least_squares.py:169-177 | whenever the written head stops, the corrected head stops with the same success value |
| LeastSquares.TryStep | desc/optimize/least_squares.py:189-264 | a trial evaluates the residuals once more at the trial point (twice with acceleration), its reduction is the cost drop, and it fails exactly when the solver does |
| LeastSquares.Budget | desc/optimize/least_squares.py:184 | the remaining evaluation budget is positive exactly when nfev < max_nfev |
| LeastSquares.BudgetFalls | desc/optimize/least_squares.py:184-219 | more evaluations leave less budget |
| LeastSquares.InnerLoop | desc/optimize/least_squares.py:183-264 | the retry loop ends with a cost-lowering trial, a spent budget or a decided success; evaluations grow by a fixed amount per trial and one radius is recorded per trial; its only error is a LinAlgError from the acceleration solve; a solver failure ends it with the corrected `LinAlgStatus` (Findings) |
| LeastSquares.Accept | desc/optimize/least_squares.py:266-280 | an accepted step moves to the trial point with its residuals, Jacobian and gradient, lowering the cost when the reduction is positive |
| LeastSquares.CostsFallPairwise | desc/optimize/least_squares.py:266-273 | along the accepted iterates every later cost is below every earlier one |
| LeastSquares.PopLimitsIn | desc/optimize/least_squares.py:116-121 | the in-place pops leave the dictionary and values of `PopLimits` |
| LeastSquares.PopStepOptionsIn | desc/optimize/least_squares.py:123-126 | the in-place pops leave the dictionary and values of `PopStepOptions` |
| LeastSquares.PopRadiiIn | desc/optimize/least_squares.py:135-145 | the in-place pops leave the dictionary and values of `PopRadii` |
| LeastSquares.PopTrParamsIn | desc/optimize/least_squares.py:138-142 | the in-place pops leave the dictionary and values of `PopTrParams` |
| LeastSquares.ResolveOptions | desc/optimize/least_squares.py:116-149 | in-place option resolution yields the settings and leftover dictionary of `Resolve` |
| LeastSquares.CostsFallExtend | desc/optimize/least_squares.py:269-270 | appending a cheaper iterate keeps the history's costs falling |
| LeastSquares.OneMoreTrial | desc/optimize/least_squares.py:202-219 | one more trial adds one more per-trial evaluation count |
| LeastSquares.CountTrials | desc/optimize/least_squares.py:110-219 | nfev is 1 plus the per-trial count times the trials, and grows exactly when a trial is made |
| LeastSquares.Settled | desc/optimize/least_squares.py:266-291 | a positive reduction moves to the trial point, lowering the cost and counting one Jacobian; otherwise the iterate, Jacobian count and history stay |
| LeastSquares.SettledProgress | desc/optimize/least_squares.py:266-291 | settling a pass keeps the loop invariant (consistent iterate, counts, histories with falling costs) |
| LeastSquares.RelabelProgress | desc/optimize/least_squares.py:282-293 | stopping on the callback or counting the pass keeps the loop invariant |
| LeastSquares.RetryAndSettle | desc/optimize/least_squares.py:179-291 | one outer pass keeps the invariant, spends at least one evaluation or decides success, and lowers the cost when it accepts |
| LeastSquares.ReportHolds | desc/optimize/least_squares.py:295-322 | the result built from a finished run meets `Reports` |
| LeastSquares.StartHolds | desc/optimize/least_squares.py:102-177 | the first evaluation meets the loop invariant, and a run stopping at its first head reports x0 as `StartReport` says |
| LeastSquares.TrustRegionLoop | desc/optimize/least_squares.py:167-322 | the result is at a point no costlier than x0 with its residuals, Jacobian and gradient, a decided success and a bound message, 1 <= njev <= nfev within the budget plus one trial, allx the accepted iterates from x0 with falling costs, alltr one radius per trial; with the corrected `Head` (Findings), a start meeting gtol or with no budget reports x0 after no iteration |
| LeastSquares.Lsqtr | desc/optimize/least_squares.py:102-322 | lsqtr, with the four corrections of Findings, pops every known option from the caller's dictionary, fails with the option error when resolution fails, and otherwise returns what `TrustRegionLoop` promises or a LinAlgError |
| DescWrappers.Registered | desc/optimize/_desc_wrappers.py:84-91 | exactly the five names are registered; none supports constraints; only "lsq-exact" is not scalar; only "sgd" is stochastic; only dogleg and subspace use the Hessian (the lsq-exact and sgd tables are at 9-16 and 162-169) |
| DescWrappers.Occurs | desc/optimize/_desc_wrappers.py:138 | the substring test answers whether the pattern occurs at some position |
| DescWrappers.RemoveAll | desc/optimize/_desc_wrappers.py:149 | str.replace with "" leaves a string without the pattern unchanged and otherwise shortens it by at least the pattern |
| DescWrappers.HessianFor | desc/optimize/_desc_wrappers.py:138 | the BFGS Hessian is used exactly when "bfgs" occurs in the method name |
| DescWrappers.ForwardedMethod | desc/optimize/_desc_wrappers.py:149 | the forwarded name differs from the given one exactly when "-bfgs" occurs in it |
| DescWrappers.FminNamesAgree | desc/optimize/_desc_wrappers.py:84-91 | for the four registered trust-region names the Hessian choice agrees with the registered hessian flag, and the forwarded name is "dogleg" or "subspace" |
| DescWrappers.BaseName | desc/optimize/_desc_wrappers.py:138-149 | a name without "bfgs" and without a dash uses the objective Hessian and is forwarded unchanged |
| DescWrappers.BfgsVariant | desc/optimize/_desc_wrappers.py:138-149 | name + "-bfgs" uses BFGS and is forwarded as name |
| DescWrappers.NotContained | desc/optimize/_desc_wrappers.py:138 | a pattern with a character absent from a string does not occur in it |
| DescWrappers.RemoveTail | desc/optimize/_desc_wrappers.py:149 | removing a pattern that occurs only as a suffix gives back the stem |
| DescWrappers.TrustDefaults | desc/optimize/_desc_wrappers.py:63-65 | for a non-string scale all close to 1 the two keys are added, with 1e-3 and 1.0 when absent; caller values are never overwritten; for any other scale nothing changes (the scalar wrapper does the same at 139-141) |
| DescWrappers.ApplyTrustDefaults | desc/optimize/_desc_wrappers.py:63-65 | the in-place setdefaults leave the entries `TrustDefaults` describes |
| DescWrappers.OptionsOrEmpty | desc/optimize/_desc_wrappers.py:62 | a missing options dictionary becomes a fresh empty one; a given one is used itself |
| DescWrappers.StopTolerances | desc/optimize/_desc_wrappers.py:73-76 | reading the tolerances fails with KeyError exactly when one of ftol, xtol, gtol, maxiter is missing, and otherwise forwards them unchanged |
| DescWrappers.NoConstraint | desc/optimize/_desc_wrappers.py:61 | the assertion passes exactly when there is no constraint |
| DescWrappers.OptimizeLeastSquares | desc/optimize/_desc_wrappers.py:17-81 | a constraint fails the assertion with the options untouched; a missing tolerance is a KeyError after the defaults were set; otherwise the result is lsqtr's on the defaulted options with maxiter from stoptol |
| DescWrappers.LsqUnitScaleRadii | desc/optimize/_desc_wrappers.py:63-65 | with no options and a unit scale, the driver starts with radius 1e-3 and maximum radius 1.0 |
| DescWrappers.OptimizeFminScalar | desc/optimize/_desc_wrappers.py:92-159 | a constraint fails the assertion; the options get the "initial_trust_ratio" defaults; the call carries the forwarded method name, the BFGS choice, the scale and the stoptol values, or KeyError when one is missing |
| DescWrappers.OptimizeStochastic | desc/optimize/_desc_wrappers.py:170-230 | a constraint fails the assertion; otherwise the call carries the method name, the stoptol values (KeyError when missing) and the given or a fresh empty options dictionary |

## Left out

- Floating point: every quantity is an exact real. NaN and infinity are not modelled. So the initial `alpha = np.nan` becomes `None`, and `np.allclose` has no NaN case.
- Numerical routines are oracle parameters of `LeastSquares.Oracles` and are not modelled: SVD, `trust_region_step_exact`, `update_tr_radius`, `check_termination`, `compute_jac_scale`, `evaluate_quadratic`, the norms of given order, and the finite-difference right-hand side of geodesic acceleration.
- Objective residuals, the Jacobian and the callback are oracles too. Member objectives of `ObjectiveFunction` carry their residual as a function value.
- The `args` tuple passed through to `fun` and `jac` is not modelled, because the wrappers always pass an empty one.
- `print`, `verbose`, warnings, `colored`, `Timer` and `IOAble` serialisation are not modelled: they are I/O only.
- The JAX machinery (`jit`, `_set_derivatives`, `Derivative`, `grad`, `hess`, `jac`, `jvp`, `block_until_ready`) is not modelled: it is automatic differentiation and compilation. Compilation is modelled only as the resolved mode it records.
- `zernike_radial`, `compute_scaling_factors` and the fixed-boundary branch of `FixBoundaryR/Z` (desc/objectives/linear_objectives.py:154-164) are not modelled. The length, pressure, current, temperature, density and flux scales are fields of the abstract equilibrium.
- `FixLambdaGauge` is not modelled: its matrix comes from the basis numerics above.
- `fmintr`, `sgd` and `register_optimizer` are not part of this model. The scalar and stochastic wrappers return a record of the call they would make, and `DescWrappers.Registered` is the table of flags passed to the decorator.
- Options are numbers: `return_all` and `return_tr` are read as true when non-zero, and `gnorm_ord` / `xnorm_ord` as numeric orders.
- `stoptol` values are numbers, so a `None` maxiter coming from `stoptol` is not modelled; `Lsqtr` itself accepts an absent maxiter.
- `OptionsDicts.OptionsDict` stores numbers only. A caller passing another kind of value is not modelled.
- The Python `assert` statements are modelled as always active (AssertionError). Running Python with `-O` would strip them.
- `LeastSquares.Lsqtr`: the `Shaped` precondition assumes `fun` and `jac` return arrays of consistent sizes for every input. The source checks nothing here, and numpy would raise on a mismatch.
- `LeastSquares.Lsqtr`: the driver runs the corrected definitions of Findings, not the code as written: the radii of `LeastSquares.Radii` (as written the maximum radius is 0 when x0 scales to zero), the decided failure of `LeastSquares.LinAlgStatus` (as written a truthy `(False,)`), and the loop head `LeastSquares.Head` (as written the loop spins when the budget is spent, and a start meeting gtol raises UnboundLocalError). The same holds for `ResolveOptions`, `Resolve`, `PopRadii`, `PopRadiiIn`, `ResolveRadiiGiven`, `ResolveDefaults`, `InnerLoop` and `StartHolds`. The as-written behaviour is stated only by the as-written members of Findings.
- `LeastSquares.TrustRegionLoop`: the loop uses the corrected `LeastSquares.Head` and `LeastSquares.LinAlgStatus` of Findings. So it stops on a spent budget with "max_nfev", reports a solver LinAlgError as a falsy success with "err", and reports a start meeting gtol with "gtol". The code as written spins, reports success, and raises UnboundLocalError in those three cases.
- `LeastSquares.TrustRegionLoop`: a callback stop sets success false with the "callback" message in the body, but the contract states it only through `Reports` (success decided, message bound).
- `LeastSquares.TrustRegionLoop`: termination of the corrected loop follows from the evaluation budget. The unseen termination test is not relied on.
- `ObjectiveFunctions.ObjectiveFunction.Build`: each member objective's own `build` is not modelled here. Its `dim_f` is given. The linear objectives' builds are `LinearObjectives.LinearObjective.Build`.
- `ObjectiveFunctions.ObjectiveFunction.constructor`: the type assertions on the objectives, `use_jit` and `deriv_mode` are not modelled. The Dafny types already enforce them.
- `FixSumModesR/Z` set `_dim_f = np.array([1])`. The model uses the number 1.
- A scalar weight is modelled as a length-1 sequence, which broadcasts like the 0-d array `np.asarray` makes of it.
- A target is assumed to be a numpy array, as the `target` setter (desc/objectives/objective_funs.py:690-692) makes it; `_Objective.__init__` stores the raw value. The model therefore does not raise the errors a raw Python target causes. A Python float passed to `FixSumModesR/Z` raises AttributeError at `target.size` (desc/objectives/linear_objectives.py:1164). A Python scalar or list target reordered by `self.target[modes_idx]` in `FixBoundaryR/Z`, `FixAxisR/Z` and `FixModeR/Z` raises TypeError (desc/objectives/linear_objectives.py:152).
- `Common.Take`: fancy indexing follows the numpy backend, raising IndexError out of range. With JAX in use (`use_jax`, desc/objectives/objective_funs.py:338) the `jnp` arrays of the compute methods clamp an out-of-range gather instead, so for example a `FixPressure` with an index past the profile returns the last parameter where `LinearBuild.Compute` gives IndexError.
- `Common.MatVec`: `jnp.dot` follows the numpy backend, raising ValueError on a shape mismatch; under JAX the same mismatch raises TypeError. `LinearBuild.Compute` inherits both backend choices.
- `Common.MatVec`: a matrix with no rows multiplies any vector to the empty vector. numpy would raise ValueError when its column count differs from the vector's length. Only a `FixBoundaryR/Z` or `FixAxisR/Z` with no selected modes reaches this, and the model does not store the column count of an empty matrix.
- `ObjectiveFunctions.ObjectiveFunction.Build`: the `use_jit` argument (desc/objectives/objective_funs.py:152-160) is not modelled, because JIT compilation is not modelled.
- The check `idx.size < modes.shape[0]` that triggers a warning is not modelled, because warnings are not modelled.

## Findings

| source | as written | input that shows it | evidently intended | confidence | as-written member | corrected member |
|---|---|---|---|---|---|---|
| desc/optimize/least_squares.py:135-145 | the default maximum radius is 1000 times the initial radius, computed before a zero initial radius is replaced by 1.0 | x0 = 0 with no radius options: initial radius 1.0, maximum radius 0.0 | the default maximum radius is at least the (replaced) initial radius | not executed | `LeastSquares.RadiiInverted` | `LeastSquares.Radii` |
| desc/optimize/least_squares.py:193-196 | on a LinAlgError from the step solver, `success = (False,)` and `message = (…,)` are one-element tuples, and a non-empty tuple is truthy | any run where the exact step raises LinAlgError: the result reports success | success False with the error message | not executed | `LeastSquares.LinAlgReportedAsSuccess` | `LeastSquares.LinAlgStatus` |
| desc/optimize/least_squares.py:167-293 | the loop head stops only on gtol or a decided success; with nfev >= max_nfev the inner loop does not run, nothing changes, and the outer loop repeats forever | maxiter = 1 (so max_nfev = 1 after the first evaluation) and a starting gradient norm >= gtol | stop with success False and the "max_nfev" message | not executed | `LeastSquares.IdleLoopSpins` | `LeastSquares.Head` |
| desc/optimize/least_squares.py:169-306 | when x0 already meets gtol the loop breaks before `message` is ever assigned, and building the result reads it | any x0 whose gradient norm is below gtol | success True with the "gtol" message | not executed | `LeastSquares.ImmediateStopUnbound` | `LeastSquares.Head` |
