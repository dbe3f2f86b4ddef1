/** Grid generation, nearest-value lookup, map shape checking and the
    latitude factor of cell lengths. */
module Tools {
  import opened PyArrays
  import opened Constants
  import opened Containers

  // ---------------------------------------------------------------- verifyMap

  /** What `verifyMap` can be handed: a numpy array, of which only the shape
      matters, or any other Python object. */
  datatype PyObject = NdArray(shape: seq<int>) | OtherObject

  /** The shape of a two-dimensional array, as numpy reports it. */
  function ShapeOf(m: Array2): PyObject
  {
    NdArray([m.rows, m.cols])
  }

  /** `verifyMap`: TypeError for anything but a two-dimensional ndarray,
      ValueError for a shape other than (720, 1440), and nothing otherwise. */
  function VerifyMap(dataMap: PyObject): (r: Result<()>)
    ensures r == Err(TypeError) <==> dataMap.OtherObject? || |dataMap.shape| != 2
    ensures r == Err(ValueError) <==> dataMap.NdArray? && |dataMap.shape| == 2 && dataMap.shape != MAP_SIZE
    ensures r.Ok? <==> dataMap == NdArray(MAP_SIZE)
  {
    if !dataMap.NdArray? then Err(TypeError)
    else if |dataMap.shape| != 2 then Err(TypeError)
    else if dataMap.shape != MAP_SIZE then Err(ValueError)
    else Ok(())
  }

  /** A two-dimensional array passes `verifyMap` exactly when it is 720 x 1440. */
  lemma VerifyMapOfArray(m: Array2)
    ensures VerifyMap(ShapeOf(m)).Ok? <==> m.rows == STD_HEIGTH && m.cols == STD_WIDTH
    ensures VerifyMap(ShapeOf(m)).Err? ==> VerifyMap(ShapeOf(m)) == Err(ValueError)
  {
  }

  // ---------------------------------------------------------------- calcGrid

  /** The longitude of column `x`: columns from 640 on wrap to negative values. */
  function LonAt(x: int): real
  {
    if x < 640 then 20.125 + x as real * 0.25 else 20.125 + (x - 1440) as real * 0.25
  }

  /** The latitude of row `y` when row 0 is the northernmost. */
  function LatTop0At(y: int): real
  {
    (719 - y) as real * 0.25 - 89.875
  }

  /** The latitude of row `y` when row 0 is the southernmost. */
  function LatBtm0At(y: int): real
  {
    89.875 - (719 - y) as real * 0.25
  }

  function Lons(): seq<real>
  {
    seq(STD_WIDTH, x requires 0 <= x < STD_WIDTH => LonAt(x))
  }

  function LatsTop0(): seq<real>
  {
    seq(STD_HEIGTH, y requires 0 <= y < STD_HEIGTH => LatTop0At(y))
  }

  function LatsBtm0(): seq<real>
  {
    seq(STD_HEIGTH, y requires 0 <= y < STD_HEIGTH => LatBtm0At(y))
  }

  /** `calcGrid`: 720 latitudes and 1440 longitudes. */
  function CalcGrid(): (g: Grid)
    ensures |g.lat| == STD_HEIGTH && |g.lon| == STD_WIDTH
    ensures forall x :: 0 <= x < 640 ==> g.lon[x] == 20.125 + 0.25 * x as real
    ensures forall x :: 640 <= x < STD_WIDTH ==> g.lon[x] == 20.125 + 0.25 * (x - 1440) as real
    ensures forall y :: 0 <= y < STD_HEIGTH ==> g.lat[y] == 89.875 - 0.25 * y as real
  {
    Grid(if OPT_IMAGE_TOP0 then LatsTop0() else LatsBtm0(), Lons())
  }

  /** Neighbouring longitudes are one cell apart except at the wrap from
      179.875 (column 639) to -179.875 (column 640). */
  lemma LonSteps(x: nat)
    requires 0 < x < STD_WIDTH
    ensures x != 640 ==> Lons()[x] - Lons()[x - 1] == CELL_STEP
    ensures x == 640 ==> Lons()[x] - Lons()[x - 1] == -359.75
  {
  }

  /** No longitude occurs twice. */
  lemma LonsDistinct()
    ensures forall i, j :: 0 <= i < j < STD_WIDTH ==> Lons()[i] != Lons()[j]
  {
  }

  /** Every longitude lies strictly between -180 and 180. */
  lemma LonsRange()
    ensures forall x :: 0 <= x < STD_WIDTH ==> -180.0 < Lons()[x] < 180.0
  {
  }

  /** The top-origin latitudes fall strictly from 89.875 to -89.875 in steps of one cell. */
  lemma LatsTop0Decreasing()
    ensures LatsTop0()[0] == 89.875 && LatsTop0()[STD_HEIGTH - 1] == -89.875
    ensures forall i, j :: 0 <= i < j < STD_HEIGTH ==> LatsTop0()[j] < LatsTop0()[i]
    ensures forall y :: 0 < y < STD_HEIGTH ==> LatsTop0()[y - 1] - LatsTop0()[y] == CELL_STEP
  {
  }

  /** The bottom-origin latitudes are the top-origin ones in reverse. */
  lemma LatsBtm0Reversed()
    ensures forall y :: 0 <= y < STD_HEIGTH ==> LatsBtm0()[y] == LatsTop0()[STD_HEIGTH - 1 - y]
  {
  }

  // ---------------------------------------------------------------- closestId

  /** `i` is the first index of `a` at minimal distance from `coord`. */
  ghost predicate IsFirstClosest(a: seq<real>, coord: real, i: int)
  {
    && 0 <= i < |a|
    && (forall j :: 0 <= j < |a| ==> Abs(a[i] - coord) <= Abs(a[j] - coord))
    && (forall j :: 0 <= j < i ==> Abs(a[i] - coord) < Abs(a[j] - coord))
  }

  /** `np.argmin(np.absolute(a - coord))` of a non-empty array: numpy scans
      left to right and keeps the first minimum. */
  function ArgMinDistance(coord: real, a: seq<real>): (i: nat)
    requires |a| > 0
    ensures IsFirstClosest(a, coord, i)
    decreases |a|
  {
    if |a| == 1 then 0
    else
      var k := ArgMinDistance(coord, a[..|a| - 1]);
      if Abs(a[|a| - 1] - coord) < Abs(a[k] - coord) then |a| - 1 else k
  }

  /** `closestId`: the index of the first value of `a` nearest to `coord`;
      numpy raises ValueError for the argmin of an empty array. */
  function ClosestId(coord: real, a: seq<real>): (r: Result<nat>)
    ensures r.Err? <==> |a| == 0
    ensures r.Err? ==> r.error == ValueError
    ensures r.Ok? ==> IsFirstClosest(a, coord, r.value)
  {
    if |a| == 0 then Err(ValueError) else Ok(ArgMinDistance(coord, a))
  }

  /** `closest`: the value of `a` nearest to `coord`. */
  function Closest(coord: real, a: seq<real>): (r: Result<real>)
    ensures r.Err? <==> |a| == 0
    ensures r.Ok? ==> r.value in a && forall j :: 0 <= j < |a| ==> Abs(r.value - coord) <= Abs(a[j] - coord)
  {
    var i :- ClosestId(coord, a);
    Ok(a[i])
  }

  /** `closest` is the value at `closestId`. */
  lemma ClosestIsValueAtClosestId(coord: real, a: seq<real>)
    requires |a| > 0
    ensures Closest(coord, a) == Ok(a[ClosestId(coord, a).value])
  {
  }

  /** Snapping a value that is already on a grid of distinct values gives its own index back. */
  lemma ClosestIdOfGridValue(a: seq<real>, k: nat)
    requires k < |a|
    requires forall i, j :: 0 <= i < j < |a| ==> a[i] != a[j]
    ensures ClosestId(a[k], a) == Ok(k)
    ensures Closest(a[k], a) == Ok(a[k])
  {
    var i := ClosestId(a[k], a).value;
    assert Abs(a[i] - a[k]) <= Abs(a[k] - a[k]);
    assert a[i] == a[k];
  }

  // ---------------------------------------------------------------- latitude factor

  /** `calcLatCoef`: the cosine of |lat| degrees; `cosDeg` stands for
      `cos(radians(.))`, which the model leaves uninterpreted. */
  function CalcLatCoef(cosDeg: real -> real, lat: real): real
  {
    cosDeg(Abs(lat))
  }

  /** The factor depends on the latitude's magnitude only. */
  lemma LatCoefEven(cosDeg: real -> real, lat: real)
    ensures CalcLatCoef(cosDeg, lat) == CalcLatCoef(cosDeg, -lat)
    ensures CalcLatCoef(cosDeg, Abs(lat)) == CalcLatCoef(cosDeg, lat)
  {
  }

  /** The cosine of degrees does not grow from 0 to 90 degrees. */
  ghost predicate NonIncreasingTo90(cosDeg: real -> real)
  {
    forall x, y :: 0.0 <= x <= y <= 90.0 ==> cosDeg(y) <= cosDeg(x)
  }

  /** `caclParralelLength`: the length in metres of a one-cell (0.25 degree)
      piece of the parallel at latitude `lat`. */
  function ParallelLength(cosDeg: real -> real, lat: real): real
  {
    CELL_LENGTH_METERS * CalcLatCoef(cosDeg, lat)
  }

  /** Parallels shrink towards the poles: a latitude of larger magnitude has
      the shorter (or equal) cell length, and mirrored latitudes have equal ones. */
  lemma ParallelLengthPoleward(cosDeg: real -> real, a: real, b: real)
    requires NonIncreasingTo90(cosDeg)
    requires Abs(a) <= Abs(b) <= 90.0
    ensures ParallelLength(cosDeg, b) <= ParallelLength(cosDeg, a)
    ensures ParallelLength(cosDeg, -a) == ParallelLength(cosDeg, a)
  {
    assert cosDeg(Abs(b)) <= cosDeg(Abs(a));
  }
}
