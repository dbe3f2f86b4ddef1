/** The part of Python and numpy semantics that the balance core leans on:
    the exceptions it raises, integer subscripts and clamped slices, sums,
    and the broadcasting rules of the `*` operator on one- and two-dimensional
    arrays. */
module PyArrays {

  /** The exception classes the core raises or lets through. */
  datatype Error = TypeError | ValueError | IndexError | AttributeError

  /** A value, or the exception raised instead of returning it. */
  datatype Result<+T> = Ok(value: T) | Err(error: Error) {
    predicate IsFailure() { Err? }

    function PropagateFailure<U>(): Result<U>
      requires Err?
    {
      Err(error)
    }

    function Extract(): T
      requires Ok?
    {
      value
    }
  }

  /** Python's `None`, or a value. */
  datatype Option<+T> = None | Some(value: T)

  /** `abs` on floats. */
  function Abs(x: real): real
  {
    if x < 0.0 then -x else x
  }

  /** Python's `sum` (and numpy's `.sum()`), accumulated left to right. */
  function Sum(s: seq<real>): real
  {
    if s == [] then 0.0 else Sum(s[..|s| - 1]) + s[|s| - 1]
  }

  lemma {:induction false} SumConcat(a: seq<real>, b: seq<real>)
    ensures Sum(a + b) == Sum(a) + Sum(b)
    decreases |b|
  {
    if b == [] {
      assert a + b == a;
    } else {
      assert (a + b)[..|a + b| - 1] == a + b[..|b| - 1];
      SumConcat(a, b[..|b| - 1]);
    }
  }

  lemma SumSingle(x: real)
    ensures Sum([x]) == x
  {
    assert [x][..0] == [];
  }

  /** Summing a sequence built from the front: Sum([x] + s) == x + Sum(s). */
  lemma SumCons(x: real, s: seq<real>)
    ensures Sum([x] + s) == x + Sum(s)
  {
    SumConcat([x], s);
    SumSingle(x);
  }

  /** The product of two reals, named so that scaled sums compare by their
      factors rather than by nonlinear arithmetic. */
  function Times(x: real, c: real): real
  {
    x * c
  }

  /** Multiplication distributes over a sum. */
  lemma TimesAdd(x: real, y: real, c: real)
    ensures Times(x, c) + Times(y, c) == Times(x + y, c)
  {
  }

  /** `a * c` for a one-dimensional array and a scalar. */
  function Scale(a: seq<real>, c: real): (r: seq<real>)
    ensures |r| == |a| && forall k :: 0 <= k < |a| ==> r[k] == Times(a[k], c)
  {
    seq(|a|, k requires 0 <= k < |a| => Times(a[k], c))
  }

  /** Scaling every element scales the sum. */
  lemma {:induction false} SumScale(a: seq<real>, c: real)
    ensures Sum(Scale(a, c)) == Times(Sum(a), c)
    decreases |a|
  {
    if a != [] {
      var init := a[..|a| - 1];
      assert Scale(a, c)[..|a| - 1] == Scale(init, c);
      SumScale(init, c);
      TimesAdd(Sum(init), a[|a| - 1], c);
    } else {
      assert Times(0.0, c) == 0.0;
    }
  }

  /** Two lengths numpy can broadcast against each other. */
  predicate Broadcastable(m: nat, n: nat)
  {
    m == n || m == 1 || n == 1
  }

  /** The length of the broadcast result of lengths `m` and `n`. */
  function BroadcastLength(m: nat, n: nat): nat
  {
    if m == 1 then n else m
  }

  /** numpy's `a * b` on one-dimensional arrays: equal lengths multiply
      elementwise, a length-one operand is stretched over the other, and any
      other pair of lengths raises ValueError. */
  function Mul(a: seq<real>, b: seq<real>): (r: Result<seq<real>>)
    ensures r.Ok? <==> Broadcastable(|a|, |b|)
    ensures r.Err? ==> r.error == ValueError
    ensures r.Ok? ==> |r.value| == BroadcastLength(|a|, |b|)
    ensures r.Ok? && |a| == |b| ==>
      forall k :: 0 <= k < |a| ==> r.value[k] == a[k] * b[k]
  {
    if |a| == |b| then Ok(seq(|a|, k requires 0 <= k < |a| => a[k] * b[k]))
    else if |a| == 1 then Ok(seq(|b|, k requires 0 <= k < |b| => a[0] * b[k]))
    else if |b| == 1 then Ok(seq(|a|, k requires 0 <= k < |a| => a[k] * b[0]))
    else Err(ValueError)
  }

  /** The position an integer subscript `i` selects on an axis of length `n`:
      negative subscripts count from the end, and a subscript outside
      `-n .. n-1` raises IndexError. */
  function AxisIndex(i: int, n: nat): (r: Result<nat>)
    ensures r.Ok? <==> 0 <= i + n && i < n
    ensures r.Err? ==> r.error == IndexError
    ensures r.Ok? ==> r.value < n && (if i >= 0 then r.value == i else r.value == i + n)
  {
    if 0 <= i < n then Ok(i) else if 0 <= i + n && i < 0 then Ok(i + n) else Err(IndexError)
  }

  /** Python's normalisation of one slice bound on an axis of length `n`. */
  function SliceBound(i: int, n: nat): (b: nat)
    ensures b <= n
    ensures 0 <= i <= n ==> b == i
  {
    if i < 0 then (if i + n < 0 then 0 else i + n) else if i > n then n else i
  }

  /** The number of elements `s[i:j]` selects from an axis of length `n`. */
  function SliceLength(i: int, j: int, n: nat): (len: nat)
    ensures len <= n && SliceBound(i, n) + len <= n
    ensures 0 <= i <= j <= n ==> len == j - i
  {
    var a, b := SliceBound(i, n), SliceBound(j, n);
    if a < b then b - a else 0
  }

  /** `s[i:j]`: out-of-range bounds are clamped, never an error. */
  function Slice<T>(s: seq<T>, i: int, j: int): (r: seq<T>)
    ensures |r| == SliceLength(i, j, |s|)
    ensures forall k :: 0 <= k < |r| ==> r[k] == s[SliceBound(i, |s|) + k]
    ensures 0 <= i <= j <= |s| ==> r == s[i..j]
  {
    var a, b := SliceBound(i, |s|), SliceBound(j, |s|);
    if a < b then s[a..b] else []
  }

  /** A two-dimensional numpy array: its shape, and its rows. */
  datatype Matrix = Matrix(rows: nat, cols: nat, cells: seq<seq<real>>) {
    predicate Valid()
    {
      |cells| == rows && forall r :: 0 <= r < |cells| ==> |cells[r]| == cols
    }
  }

  /** Matrices whose rows all have the declared length. */
  type Array2 = m: Matrix | m.Valid() witness Matrix(0, 0, [])

  /** `m[r0:r1, c0:c1]` with Python's clamping on both axes. */
  function Slice2(m: Array2, r0: int, r1: int, c0: int, c1: int): (r: Array2)
    ensures r.rows == SliceLength(r0, r1, m.rows) && r.cols == SliceLength(c0, c1, m.cols)
  {
    var rows := Slice(m.cells, r0, r1);
    Matrix(|rows|, SliceLength(c0, c1, m.cols),
           seq(|rows|, i requires 0 <= i < |rows| => Slice(rows[i], c0, c1)))
  }

  /** Entry (i, j) of `m[r0:r1, c0:c1]` is entry (i, j) of `m` counted from
      the normalised corner. */
  lemma Slice2Entry(m: Array2, r0: int, r1: int, c0: int, c1: int, i: nat, j: nat)
    requires i < Slice2(m, r0, r1, c0, c1).rows && j < Slice2(m, r0, r1, c0, c1).cols
    ensures Slice2(m, r0, r1, c0, c1).cells[i][j] == m.cells[SliceBound(r0, m.rows) + i][SliceBound(c0, m.cols) + j]
  {
  }

  /** numpy's `a * b` on two-dimensional arrays, with broadcasting on each axis. */
  function Mul2(a: Array2, b: Array2): (r: Result<Array2>)
    ensures r.Ok? <==> Broadcastable(a.rows, b.rows) && Broadcastable(a.cols, b.cols)
    ensures r.Err? ==> r.error == ValueError
    ensures r.Ok? ==> (r.value.rows == BroadcastLength(a.rows, b.rows)
                       && r.value.cols == BroadcastLength(a.cols, b.cols))
  {
    if !(Broadcastable(a.rows, b.rows) && Broadcastable(a.cols, b.cols)) then Err(ValueError)
    else
      var rows, cols := BroadcastLength(a.rows, b.rows), BroadcastLength(a.cols, b.cols);
      Ok(Matrix(rows, cols, seq(rows, i requires 0 <= i < rows =>
        seq(cols, j requires 0 <= j < cols => Stretched(a, i, j) * Stretched(b, i, j)))))
  }

  /** Entry (i, j) of `m` broadcast over a larger shape: an axis of length one
      is read at index 0 whatever the index along it. */
  function Stretched(m: Array2, i: nat, j: nat): real
    requires m.rows == 1 || i < m.rows
    requires m.cols == 1 || j < m.cols
  {
    m.cells[if m.rows == 1 then 0 else i][if m.cols == 1 then 0 else j]
  }

  /** An entry of the product of two arrays of one shape. */
  lemma Mul2Entry(a: Array2, b: Array2, i: nat, j: nat)
    requires a.rows == b.rows && a.cols == b.cols && i < a.rows && j < a.cols
    ensures Mul2(a, b).Ok? && Mul2(a, b).value.cells[i][j] == a.cells[i][j] * b.cells[i][j]
  {
  }

  /** Two lists of rows with the same entries are equal. */
  lemma CellsEqual(p: seq<seq<real>>, q: seq<seq<real>>)
    requires |p| == |q| && (forall i :: 0 <= i < |p| ==> |p[i]| == |q[i]|)
    requires forall i, j :: 0 <= i < |p| && 0 <= j < |p[i]| ==> p[i][j] == q[i][j]
    ensures p == q
  {
    forall i | 0 <= i < |p|
      ensures p[i] == q[i]
    {
      assert forall j :: 0 <= j < |p[i]| ==> p[i][j] == q[i][j];
    }
  }

  /** The sum of the row sums of a list of rows. */
  function SumRows(cells: seq<seq<real>>): real
  {
    if cells == [] then 0.0 else SumRows(cells[..|cells| - 1]) + Sum(cells[|cells| - 1])
  }

  /** `.sum()` of a two-dimensional array. */
  function Sum2(m: Array2): real
  {
    SumRows(m.cells)
  }

  /** A loop that fills a preallocated buffer of `n` entries with `step(start)`,
      `step(start + 1)`, ...: `np.zeros(n)` raises ValueError for a negative `n`;
      otherwise the buffer is returned when every step succeeds, and the first
      failing step's exception is raised when one fails. */
  ghost predicate FilledFrom(r: Result<seq<real>>, start: int, n: int, step: int -> Result<real>)
  {
    if n < 0 then r == Err(ValueError)
    else if forall t :: start <= t < start + n ==> step(t).Ok? then
      r.Ok? && |r.value| == n && forall k :: 0 <= k < n ==> r.value[k] == step(start + k).value
    else
      r.Err? && exists t :: start <= t < start + n && step(t) == Err(r.error)
                            && forall u :: start <= u < t ==> step(u).Ok?
  }

  /** The loop shared by the series builders: a zeroed buffer of `n` entries
      (ValueError for a negative `n`), filled in order with `step(start)`,
      `step(start + 1)`, ..., stopping at the first step that raises. */
  method FillFrom(start: int, n: int, step: int -> Result<real>) returns (r: Result<seq<real>>)
    ensures FilledFrom(r, start, n, step)
  {
    if n < 0 {
      return Err(ValueError);
    }
    var buffer := new real[n](_ => 0.0);
    for t := start to start + n
      invariant forall u :: start <= u < t ==> step(u).Ok? && buffer[u - start] == step(u).value
    {
      var x := step(t);
      if x.Err? {
        return Err(x.error);
      }
      buffer[t - start] := x.value;
    }
    r := Ok(buffer[..]);
  }
}
