/**
  Shared vocabulary: the Python exceptions the modelled code can raise, a
  failure-compatible Result/Outcome pair, and the handful of numpy operations
  (fancy indexing, ranges, dot products, broadcasting rules) the objectives use.
 */
module Common {

  /** The exception classes raised by the modelled code (or by numpy inside it). */
  datatype Error =
    | RuntimeError
    | ValueError
    | AssertionError
    | AttributeError      // reading an attribute that was never assigned
    | UnboundLocalError   // reading a local variable that was never assigned
    | IndexError
    | TypeError
    | ZeroDivisionError
    | LinAlgError
    | KeyError

  datatype Option<+T> = None | Some(value: T)

  datatype Result<+T> = Ok(value: T) | Err(error: Error) {
    predicate IsFailure() { Err? }
    function PropagateFailure<U>(): Result<U> requires Err? { Err(error) }
    function Extract(): T requires Ok? { value }
  }

  datatype Outcome = Pass | Fail(error: Error) {
    predicate IsFailure() { Fail? }
    function PropagateFailure<U>(): Result<U> requires Fail? { Err(error) }
  }

  /** `np.arange(a, b)`. */
  function Range(a: int, b: int): (r: seq<int>)
    requires a <= b
    ensures |r| == b - a
    ensures forall k :: 0 <= k < |r| ==> r[k] == a + k
  {
    seq(b - a, k => a + k)
  }

  /** numpy accepts an integer index i into an array of length n when -n <= i < n. */
  predicate InBounds(i: int, n: nat) { 0 <= i + n && i < n }

  /** The position a valid numpy index denotes: negative indices count from the end. */
  function Position(i: int, n: nat): (p: nat)
    requires InBounds(i, n)
    ensures p < n
    ensures i >= 0 ==> p == i
  {
    if i < 0 then n + i else i
  }

  /** Fancy indexing `a[idx]`: IndexError as soon as one index is out of range. */
  function Take<T>(a: seq<T>, idx: seq<int>): (r: Result<seq<T>>)
    ensures r.Ok? <==> forall k :: 0 <= k < |idx| ==> InBounds(idx[k], |a|)
    ensures r.Err? ==> r.error == IndexError
    ensures r.Ok? ==> |r.value| == |idx|
    ensures r.Ok? ==> forall k :: 0 <= k < |idx| ==> r.value[k] == a[Position(idx[k], |a|)]
  {
    if idx == [] then Ok([])
    else if !InBounds(idx[0], |a|) then Err(IndexError)
    else
      match Take(a, idx[1..])
      case Ok(rest) => Ok([a[Position(idx[0], |a|)]] + rest)
      case Err(e) => Err(e)
  }

  /** `a[idx]` for indices already known to be in range. */
  function Pick<T>(a: seq<T>, idx: seq<int>): (r: seq<T>)
    requires forall k :: 0 <= k < |idx| ==> 0 <= idx[k] < |a|
    ensures |r| == |idx| && forall k :: 0 <= k < |idx| ==> r[k] == a[idx[k]]
  {
    seq(|idx|, k requires 0 <= k < |idx| => a[idx[k]])
  }

  /** Fancy indexing with in-range indices never fails and picks those entries. */
  lemma TakePick<T>(a: seq<T>, idx: seq<int>)
    requires forall k :: 0 <= k < |idx| ==> 0 <= idx[k] < |a|
    ensures Take(a, idx) == Ok(Pick(a, idx))
  {
    assert Take(a, idx).Ok?;
    assert Take(a, idx).value == Pick(a, idx);
  }

  /** Every index of `idx` is a plain (non-negative) position of an array of length n. */
  predicate IndicesIn(idx: seq<int>, n: nat) {
    forall k :: 0 <= k < |idx| ==> 0 <= idx[k] < n
  }

  predicate Distinct<T(==)>(s: seq<T>) {
    forall i, j :: 0 <= i < j < |s| ==> s[i] != s[j]
  }

  function Sum(s: seq<real>): real {
    if s == [] then 0.0 else Sum(s[..|s| - 1]) + s[|s| - 1]
  }

  /** `np.dot` of two vectors of the same length. */
  function Dot(u: seq<real>, v: seq<real>): real
    requires |u| == |v|
  {
    if u == [] then 0.0 else Dot(u[..|u| - 1], v[..|v| - 1]) + u[|u| - 1] * v[|v| - 1]
  }

  function Zeros(n: nat): (r: seq<real>)
    ensures |r| == n && forall k :: 0 <= k < n ==> r[k] == 0.0
  {
    seq(n, _ => 0.0)
  }

  predicate IsMatrix(a: seq<seq<real>>, rows: nat, cols: nat) {
    |a| == rows && forall i :: 0 <= i < |a| ==> |a[i]| == cols
  }

  /** `np.dot(A, x)`: ValueError when a row of A does not have the length of x. */
  function MatVec(a: seq<seq<real>>, x: seq<real>): (r: Result<seq<real>>)
    ensures r.Ok? <==> forall i :: 0 <= i < |a| ==> |a[i]| == |x|
    ensures r.Err? ==> r.error == ValueError
    ensures r.Ok? ==> |r.value| == |a| && forall i :: 0 <= i < |a| ==> r.value[i] == Dot(a[i], x)
  {
    if forall i :: 0 <= i < |a| ==> |a[i]| == |x| then
      Ok(seq(|a|, i requires 0 <= i < |a| => Dot(a[i], x)))
    else
      Err(ValueError)
  }

  /** `np.dot(J.T, f)` for an m x n matrix J and a length-m vector f. */
  function TransposeTimes(j: seq<seq<real>>, f: seq<real>, n: nat): (g: seq<real>)
    requires IsMatrix(j, |f|, n)
    ensures |g| == n
  {
    seq(n, c requires 0 <= c < n => Dot(seq(|f|, r requires 0 <= r < |f| => j[r][c]), f))
  }

  /** Two one-dimensional shapes (n,) and (k,) broadcast against each other. */
  predicate Broadcastable(n: nat, k: nat) {
    n == k || n == 1 || k == 1
  }

  /** Element i of v once v is broadcast to a longer length (a length-1 v repeats). */
  function Bcast(v: seq<real>, i: nat): real
    requires |v| == 1 || i < |v|
  {
    if |v| == 1 then v[0] else v[i]
  }

  function Square(x: real): real { x * x }

  lemma SquareSign(x: real)
    ensures Square(x) >= 0.0
    ensures x != 0.0 ==> Square(x) > 0.0
  {
    if x > 0.0 {
      calc { Square(x); == x * x; > 0.0; }
    } else if x < 0.0 {
      calc { Square(x); == x * x; == (-x) * (-x); > 0.0; }
    } else {
      calc { Square(x); == 0.0 * 0.0; == 0.0; }
    }
  }

  function Max(a: nat, b: nat): nat { if a < b then b else a }

  lemma {:induction false} DotUpdate(u: seq<real>, v: seq<real>, j: nat, c: real)
    requires |u| == |v| && j < |u|
    ensures Dot(u[j := c], v) == Dot(u, v) + (c - u[j]) * v[j]
    decreases |u|
  {
    var n := |u| - 1;
    if j < n {
      assert u[j := c][..n] == u[..n][j := c];
      DotUpdate(u[..n], v[..n], j, c);
    } else {
      assert u[j := c][..n] == u[..n];
    }
  }

  lemma {:induction false} DotZeros(v: seq<real>)
    ensures Dot(Zeros(|v|), v) == 0.0
    decreases |v|
  {
    if v != [] {
      assert Zeros(|v|)[..|v| - 1] == Zeros(|v| - 1);
      DotZeros(v[..|v| - 1]);
    }
  }

  /** The unit row e_k of length n. */
  function UnitRow(n: nat, k: nat): (r: seq<real>)
    requires k < n
    ensures |r| == n
  {
    seq(n, i => if i == k then 1.0 else 0.0)
  }

  /** A unit row picks one coordinate: `np.eye(n)[k] @ v == v[k]`. */
  lemma UnitRowPicks(n: nat, k: nat, v: seq<real>)
    requires k < n == |v|
    ensures Dot(UnitRow(n, k), v) == v[k]
  {
    assert UnitRow(n, k) == Zeros(n)[k := 1.0];
    DotUpdate(Zeros(n), v, k, 1.0);
    DotZeros(v);
  }
}
