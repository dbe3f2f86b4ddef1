/** The stand-alone script that predates the package: it snaps a fixed
    region to the grid, builds the cell areas with a loop, and classifies the
    boundary transport into what comes in and what goes out. Its grid lists
    follow the formulas of `calcGrid` (Tools.CalcGrid). */
module Yule {
  import opened PyArrays
  import opened Constants
  import opened Containers
  import opened Tools
  import opened RegionProcessor
  import opened ConvCalculator

  // ---------------------------------------------------------------- closest

  /** `closest = lambda num, collection: min(collection, key=abs(x - num))`:
      an empty collection raises ValueError. */
  function MinByDistance(num: real, collection: seq<real>): (r: Result<real>)
    ensures r.Ok? <==> |collection| > 0
    ensures r.Err? ==> r.error == ValueError
  {
    if |collection| == 0 then Err(ValueError) else Ok(MinValue(num, collection))
  }

  /** `min` with a key: it scans left to right and replaces its candidate
      only by a strictly nearer value. */
  function MinValue(num: real, collection: seq<real>): real
    requires |collection| > 0
  {
    MinOfPrefix(num, collection, |collection|)
  }

  /** The candidate `min` holds after the first `n` values. */
  function MinOfPrefix(num: real, collection: seq<real>, n: nat): real
    requires 0 < n <= |collection|
  {
    if n == 1 then collection[0]
    else
      var best := MinOfPrefix(num, collection, n - 1);
      var x := collection[n - 1];
      if Abs(x - num) < Abs(best - num) then x else best
  }

  /** The script's `closest` is the package's `closest`: the first value at
      minimal distance. */
  lemma MinByDistanceIsClosest(num: real, collection: seq<real>)
    ensures MinByDistance(num, collection) == Closest(num, collection)
  {
    if |collection| > 0 {
      MinValueIsFirstClosest(num, collection);
    }
  }

  /** `min` with a key picks the value at the first index of minimal distance. */
  lemma MinValueIsFirstClosest(num: real, collection: seq<real>)
    requires |collection| > 0
    ensures MinValue(num, collection) == collection[ArgMinDistance(num, collection)]
  {
    MinOfPrefixIsFirstClosest(num, collection, |collection|);
    assert collection[..|collection|] == collection;
  }

  lemma {:induction false} MinOfPrefixIsFirstClosest(num: real, collection: seq<real>, n: nat)
    requires 0 < n <= |collection|
    ensures MinOfPrefix(num, collection, n) == collection[ArgMinDistance(num, collection[..n])]
  {
    if n > 1 {
      MinOfPrefixIsFirstClosest(num, collection, n - 1);
      assert collection[..n][..n - 1] == collection[..n - 1];
    }
  }

  // ---------------------------------------------------------------- indices

  /** `list.index(x)`: the first position holding `x`; ValueError when no
      position does. */
  function IndexOf(s: seq<real>, x: real): (r: Result<nat>)
    ensures r.Ok? <==> x in s
    ensures r.Err? ==> r.error == ValueError
    ensures r.Ok? ==> r.value < |s| && s[r.value] == x && forall j :: 0 <= j < r.value ==> s[j] != x
  {
    IndexFrom(s, x, 0)
  }

  /** The scan of `list.index` from position `i` on. */
  function IndexFrom(s: seq<real>, x: real, i: nat): (r: Result<nat>)
    requires i <= |s|
    ensures r.Ok? <==> exists j :: i <= j < |s| && s[j] == x
    ensures r.Err? ==> r.error == ValueError
    ensures r.Ok? ==> i <= r.value < |s| && s[r.value] == x && forall j :: i <= j < r.value ==> s[j] != x
    decreases |s| - i
  {
    if i == |s| then Err(ValueError)
    else if s[i] == x then Ok(i)
    else IndexFrom(s, x, i + 1)
  }

  /** In a list without repeated values, the index of the value at `k` is `k`. */
  lemma IndexOfDistinct(s: seq<real>, k: nat)
    requires k < |s|
    requires forall i, j :: 0 <= i < j < |s| ==> s[i] != s[j]
    ensures IndexOf(s, s[k]) == Ok(k)
  {
    var i := IndexOf(s, s[k]).value;
    assert s[i] == s[k];
  }

  /** The four lookups of `YuleId`, once each is known. */
  function PackIds(idDown: Result<nat>, idUp: Result<nat>, idRight: Result<nat>, idLeft: Result<nat>): (r: Result<Id>)
    ensures r.Ok? <==> idDown.Ok? && idUp.Ok? && idRight.Ok? && idLeft.Ok?
    ensures r.Ok? ==> r.value == Id(down := idDown.value, up := idUp.value, left := idLeft.value, right := idRight.value)
  {
    var d :- idDown;
    var u :- idUp;
    var rt :- idRight;
    var l :- idLeft;
    Ok(Id(down := d, up := u, left := l, right := rt))
  }

  /** The bounds snapped with `closest`, the longitudes moved
      one cell east, and each looked up with `list.index`. Snapping to an
      empty list raises ValueError before any lookup. */
  function YuleId(region: Region, lats: seq<real>, lons: seq<real>): (r: Result<Id>)
    ensures |lats| == 0 || |lons| == 0 ==> r == Err(ValueError)
  {
    if |lats| == 0 || |lons| == 0 then Err(ValueError)
    else
      var coorDown, coorUp := MinValue(region.Down(), lats), MinValue(region.Up(), lats);
      var coorRight, coorLeft := MinValue(region.Right(), lons), MinValue(region.Left(), lons);
      PackIds(IndexOf(lats, coorDown), IndexOf(lats, coorUp),
              IndexOf(lons, coorRight + CELL_STEP), IndexOf(lons, coorLeft + CELL_STEP))
  }

  /** The column east of column `k` on the standard grid, which wraps round
      at the antimeridian of the grid's ordering. */
  function NextColumn(k: nat): nat
  {
    if k == STD_WIDTH - 1 then 0 else k + 1
  }

  /** The index of the longitude one cell east of column `k`: the next
      column, or column 0 after the last one; east of 179.875 (column 639)
      there is no grid value and the lookup raises ValueError. */
  lemma NextLonIndex(k: nat)
    requires k < STD_WIDTH
    ensures k == 639 ==> IndexOf(Lons(), Lons()[k] + CELL_STEP) == Err(ValueError)
    ensures k != 639 ==> IndexOf(Lons(), Lons()[k] + CELL_STEP) == Ok(NextColumn(k))
  {
    LonsDistinct();
    if k == 639 {
      LonsRange();
      assert Lons()[k] + CELL_STEP == 180.125;
    } else if k == STD_WIDTH - 1 {
      assert Lons()[k] + CELL_STEP == Lons()[0];
      IndexOfDistinct(Lons(), 0);
    } else {
      LonSteps(k + 1);
      IndexOfDistinct(Lons(), k + 1);
    }
  }

  /** The index of a latitude of the grid is its row. */
  lemma LatIndex(k: nat)
    requires k < STD_HEIGTH
    ensures IndexOf(LatsTop0(), LatsTop0()[k]) == Ok(k)
  {
    LatsTop0Decreasing();
    IndexOfDistinct(LatsTop0(), k);
  }

  /** The script's snapped value is the value at the package's nearest index. */
  lemma SnappedIsAtClosestId(num: real, collection: seq<real>)
    requires |collection| > 0
    ensures MinValue(num, collection) == collection[ClosestId(num, collection).value]
  {
    MinValueIsFirstClosest(num, collection);
  }

  /** On a non-empty grid the lookups are those of the values at the
      indices where the snapped values sit. */
  lemma YuleIdLookups(region: Region, lats: seq<real>, lons: seq<real>, kd: nat, ku: nat, kr: nat, kl: nat)
    requires kd < |lats| && ku < |lats| && kr < |lons| && kl < |lons|
    requires lats[kd] == MinValue(region.Down(), lats) && lats[ku] == MinValue(region.Up(), lats)
    requires lons[kr] == MinValue(region.Right(), lons) && lons[kl] == MinValue(region.Left(), lons)
    ensures YuleId(region, lats, lons)
            == PackIds(IndexOf(lats, lats[kd]), IndexOf(lats, lats[ku]),
                       IndexOf(lons, lons[kr] + CELL_STEP), IndexOf(lons, lons[kl] + CELL_STEP))
  {
  }

  /** On any grid without repeated latitudes, the script's latitude indices
      are the nearest ones and its longitude indices are those of the values
      one cell east of the nearest ones. */
  lemma YuleIdFromIndices(region: Region, lats: seq<real>, lons: seq<real>)
    requires |lats| > 0 && |lons| > 0
    requires forall i, j :: 0 <= i < j < |lats| ==> lats[i] != lats[j]
    ensures var el := IndexOf(lons, lons[ClosestId(region.Left(), lons).value] + CELL_STEP);
            var er := IndexOf(lons, lons[ClosestId(region.Right(), lons).value] + CELL_STEP);
      && (YuleId(region, lats, lons).Ok? <==> el.Ok? && er.Ok?)
      && (YuleId(region, lats, lons).Ok? ==>
            YuleId(region, lats, lons).value
            == Id(down := ClosestId(region.Down(), lats).value, up := ClosestId(region.Up(), lats).value,
                  left := el.value, right := er.value))
  {
    var kd, ku := ClosestId(region.Down(), lats).value, ClosestId(region.Up(), lats).value;
    var kr, kl := ClosestId(region.Right(), lons).value, ClosestId(region.Left(), lons).value;
    SnappedIsAtClosestId(region.Down(), lats);
    SnappedIsAtClosestId(region.Up(), lats);
    SnappedIsAtClosestId(region.Right(), lons);
    SnappedIsAtClosestId(region.Left(), lons);
    YuleIdLookups(region, lats, lons, kd, ku, kr, kl);
    IndexOfDistinct(lats, kd);
    IndexOfDistinct(lats, ku);
    var er, el := IndexOf(lons, lons[kr] + CELL_STEP), IndexOf(lons, lons[kl] + CELL_STEP);
    assert YuleId(region, lats, lons) == PackIds(Ok(kd), Ok(ku), er, el);
  }

  /** On the standard grid, the script's indices are the package's latitude
      indices and the longitude index one column east, as `getId`'s +1 gives,
      except that the last column wraps to 0 and the column of 179.875 has no
      eastern neighbour, which raises ValueError. */
  lemma YuleIdOnStandardGrid(region: Region, g: Grid)
    requires g == CalcGrid()
    ensures var kl, kr := ClosestId(region.Left(), g.lon).value, ClosestId(region.Right(), g.lon).value;
      && (YuleId(region, g.lat, g.lon).Ok? <==> kl != 639 && kr != 639)
      && (YuleId(region, g.lat, g.lon).Ok? ==>
            YuleId(region, g.lat, g.lon).value
            == Id(down := GetId(region, g).value.down, up := GetId(region, g).value.up,
                  left := NextColumn(kl), right := NextColumn(kr)))
  {
    assert g.lon == Lons() && g.lat == LatsTop0();
    LatsTop0Decreasing();
    YuleIdFromIndices(region, g.lat, g.lon);
    NextLonIndex(ClosestId(region.Left(), g.lon).value);
    NextLonIndex(ClosestId(region.Right(), g.lon).value);
  }

  /** Away from the column of 179.875 and the last column, the script's
      indices are exactly `getId`'s. */
  lemma YuleIdIsGetId(region: Region, g: Grid)
    requires g == CalcGrid()
    requires ClosestId(region.Left(), g.lon).value !in {639, STD_WIDTH - 1}
    requires ClosestId(region.Right(), g.lon).value !in {639, STD_WIDTH - 1}
    ensures YuleId(region, g.lat, g.lon) == GetId(region, g)
  {
    var kl, kr := ClosestId(region.Left(), g.lon).value, ClosestId(region.Right(), g.lon).value;
    assert |g.lon| == STD_WIDTH && |g.lat| == STD_HEIGTH;
    var kd, ku := ClosestId(region.Down(), g.lat).value, ClosestId(region.Up(), g.lat).value;
    assert GetId(region, g) == Ok(Id(down := kd, up := ku, left := kl + 1, right := kr + 1));
    YuleIdOnStandardGrid(region, g);
  }

  // ---------------------------------------------------------------- edge lengths

  /** `area_lats`: a quarter of 111 km, in metres. */
  const AREA_LATS: real := 111.0 / 4.0 * 1000.0

  /** Meridian edges `area_lats` long, parallel edges shortened
      by the cosine of the snapped top and bottom latitudes. */
  function YuleEdgeLengths(cosDeg: real -> real, coorUp: real, coorDown: real): Cell
  {
    Cell(down := 111.0 / 4.0 * cosDeg(Abs(coorDown)) * 1000.0,
         up := 111.0 / 4.0 * cosDeg(Abs(coorUp)) * 1000.0,
         left := AREA_LATS, right := AREA_LATS)
  }

  /** The script's edge lengths are the package's `getCell`. */
  lemma YuleEdgeLengthsAreCell(cosDeg: real -> real, gr: Region)
    ensures YuleEdgeLengths(cosDeg, gr.Up(), gr.Down()) == GetCell(gr, cosDeg)
  {
    assert CELL_LENGTH_METERS == 27750.0;
  }

  // ---------------------------------------------------------------- area matrix

  /** `rows` holds `nRows` rows of `nCols` equal areas, row `i` being that of
      the latitude `i` cells below `coorUp`. */
  ghost predicate AreaRows(rows: seq<seq<real>>, cosDeg: real -> real, coorUp: real, nRows: nat, nCols: nat)
  {
    && |rows| == nRows
    && (forall i :: 0 <= i < nRows ==> |rows[i]| == nCols)
    && forall i, j :: 0 <= i < nRows && 0 <= j < nCols ==> rows[i][j] == RowArea(cosDeg, coorUp - CELL_STEP * i as real)
  }

  /** One list of `len(pwv_d[0])` equal areas appended per row
      of the right edge, the latitude dropping one cell after each. */
  method YuleAreaMatrix(cosDeg: real -> real, coorUp: real, nRows: nat, nCols: nat) returns (areaS: seq<seq<real>>)
    ensures AreaRows(areaS, cosDeg, coorUp, nRows, nCols)
  {
    areaS := [];
    var up := coorUp;
    for i := 0 to nRows
      invariant up == coorUp - CELL_STEP * i as real
      invariant AreaRows(areaS, cosDeg, coorUp, i, nCols)
    {
      var area := AREA_LATS * 111.0 / 4.0 * cosDeg(Abs(up)) * 1000.0;
      assert area == RowArea(cosDeg, up) by {
        assert CELL_LENGTH_METERS == 27750.0;
        LatCoefEven(cosDeg, up);
      }
      var rowAreas := seq(nCols, _ => area);
      areaS := areaS + [rowAreas];
      up := up - 0.25;
    }
  }

  /** For the snapped region, with one row per latitude index and one column
      per longitude index, the script's matrix is `calcAreasMatrix`'s. */
  lemma YuleAreasAreAreasMatrix(cosDeg: real -> real, gr: Region, areaS: seq<seq<real>>)
    requires AreaHeight(gr) >= 0 && AreaWidth(gr) >= 0
    requires AreaRows(areaS, cosDeg, gr.Up(), AreaHeight(gr), AreaWidth(gr))
    ensures AreasMatrix(gr, cosDeg) == Ok(Matrix(AreaHeight(gr), AreaWidth(gr), areaS))
  {
    var m := AreasMatrix(gr, cosDeg).value;
    CellsEqual(m.cells, areaS);
  }

  // ---------------------------------------------------------------- convergence

  /** The values of a two-dimensional array in iteration order: row after row. */
  function Flatten(q: seq<seq<real>>): (s: seq<real>)
    ensures |q| == 1 ==> s == q[0]
  {
    if q == [] then [] else Flatten(q[..|q| - 1]) + q[|q| - 1]
  }

  /** Selecting from a concatenation selects from each part. */
  lemma {:induction false} SelectConcat(a: seq<real>, b: seq<real>, t: Test)
    ensures Select(a + b, t) == Select(a, t) + Select(b, t)
    decreases |b|
  {
    if b == [] {
      assert a + b == a;
    } else {
      var init := b[..|b| - 1];
      assert (a + b)[..|a + b| - 1] == a + init;
      SelectConcat(a, init, t);
      SelectLast(a + b, t);
      SelectLast(b, t);
    }
  }

  /** Appending one value and then scaling appends its scaled value. */
  lemma ScaleAppend(a: seq<real>, x: real, c: real)
    ensures Scale(a + [x], c) == Scale(a, c) + [Times(x, c)]
  {
  }

  /** One more value seen: it joins the bucket its test picks, scaled, and
      the other bucket stays as it was. */
  lemma ClassifyStep(seen: seq<real>, x: real, t: Test, length: real)
    ensures t.Holds(x) ==> (&& Scale(Select(seen + [x], t), length) == Scale(Select(seen, t), length) + [Times(x, length)]
                            && Select(seen + [x], t.Complement()) == Select(seen, t.Complement()))
    ensures !t.Holds(x) ==> (&& Select(seen + [x], t) == Select(seen, t)
                             && Scale(Select(seen + [x], t.Complement()), length)
                                == Scale(Select(seen, t.Complement()), length) + [Times(x, length)])
  {
    SelectLast(seen + [x], t);
    SelectLast(seen + [x], t.Complement());
    assert (seen + [x])[..|seen|] == seen;
    if t.Holds(x) {
      ScaleAppend(Select(seen, t), x, length);
    } else {
      ScaleAppend(Select(seen, t.Complement()), x, length);
    }
  }

  lemma AppendAssoc(a: seq<real>, b: seq<real>, x: real)
    ensures a + b + [x] == a + (b + [x])
  {
  }

  /** The values of the first `i` rows, then the first `j` of row `i`. */
  lemma FlattenStep(q: seq<seq<real>>, i: nat)
    requires i < |q|
    ensures Flatten(q[..i + 1]) == Flatten(q[..i]) + q[i]
  {
    assert q[..i + 1][..i] == q[..i];
  }

  /** The nested loops over one edge: every value `x` of `q`, row after row,
      is appended as `x * length` to `inner` when `toInner` holds of it and to
      `out` otherwise. */
  method ClassifyEdge(q: seq<seq<real>>, toInner: Test, length: real, inner0: seq<real>, out0: seq<real>)
    returns (inner: seq<real>, out: seq<real>)
    ensures inner == inner0 + Scale(Select(Flatten(q), toInner), length)
    ensures out == out0 + Scale(Select(Flatten(q), toInner.Complement()), length)
  {
    inner, out := inner0, out0;
    ghost var seen: seq<real> := [];
    for i := 0 to |q|
      invariant seen == Flatten(q[..i])
      invariant inner == inner0 + Scale(Select(seen, toInner), length)
      invariant out == out0 + Scale(Select(seen, toInner.Complement()), length)
    {
      for j := 0 to |q[i]|
        invariant seen == Flatten(q[..i]) + q[i][..j]
        invariant inner == inner0 + Scale(Select(seen, toInner), length)
        invariant out == out0 + Scale(Select(seen, toInner.Complement()), length)
      {
        var x := q[i][j];
        ClassifyStep(seen, x, toInner, length);
        var value := x * length;
        assert value == Times(x, length);
        if toInner.Holds(x) {
          AppendAssoc(inner0, Scale(Select(seen, toInner), length), value);
          inner := inner + [value];
        } else {
          AppendAssoc(out0, Scale(Select(seen, toInner.Complement()), length), value);
          out := out + [value];
        }
        assert q[i][..j + 1] == q[i][..j] + [x];
        seen := seen + [x];
      }
      assert q[i][..|q[i]|] == q[i];
      FlattenStep(q, i);
    }
    assert q[..|q|] == q;
  }

  /** What the four loops put into `inner`, in their order: right, left, up
      and down edges. */
  function YuleInner(qr: seq<seq<real>>, ql: seq<seq<real>>, qu: seq<seq<real>>, qd: seq<seq<real>>,
                     areaLats: real, areaUp: real, areaDown: real): seq<real>
  {
    Scale(Select(Flatten(qr), Below0), areaLats) + Scale(Select(Flatten(ql), Above0), areaLats)
      + Scale(Select(Flatten(qu), Below0), areaUp) + Scale(Select(Flatten(qd), Above0), areaDown)
  }

  /** What the four loops put into `out`. */
  function YuleOut(qr: seq<seq<real>>, ql: seq<seq<real>>, qu: seq<seq<real>>, qd: seq<seq<real>>,
                   areaLats: real, areaUp: real, areaDown: real): seq<real>
  {
    Scale(Select(Flatten(qr), AtLeast0), areaLats) + Scale(Select(Flatten(ql), AtMost0), areaLats)
      + Scale(Select(Flatten(qu), AtLeast0), areaUp) + Scale(Select(Flatten(qd), AtMost0), areaDown)
  }

  /** `convergence`: the magnitudes of what came in less those of what went
      out, over three hours. With positive edge lengths this is income less
      outcome of the scaled values over 10800 seconds, which is the
      package's TOTAL transport with a three-hour step. */
  function Convergence(qr: seq<seq<real>>, ql: seq<seq<real>>, qu: seq<seq<real>>, qd: seq<seq<real>>,
                       areaLats: real, areaUp: real, areaDown: real): (r: real)
    ensures areaLats > 0.0 && areaUp > 0.0 && areaDown > 0.0 ==>
      var v := YuleValues(qr, ql, qu, qd, areaLats, areaUp, areaDown);
      r == OverStep(CalcIncome(v), 10800) - OverStep(CalcOutcome(v), 10800)
  {
    InnerIsIncome(qr, ql, qu, qd, areaLats, areaUp, areaDown);
    OutIsOutcome(qr, ql, qu, qd, areaLats, areaUp, areaDown);
    (SumAbs(YuleInner(qr, ql, qu, qd, areaLats, areaUp, areaDown))
      - SumAbs(YuleOut(qr, ql, qu, qd, areaLats, areaUp, areaDown))) * 3.0 * 3600.0
  }

  /** The four classification loops and the convergence. */
  method YuleConv(qr: seq<seq<real>>, ql: seq<seq<real>>, qu: seq<seq<real>>, qd: seq<seq<real>>,
                  areaLats: real, areaUp: real, areaDown: real) returns (convergence: real)
    ensures convergence == Convergence(qr, ql, qu, qd, areaLats, areaUp, areaDown)
  {
    var inner, out := [], [];
    inner, out := ClassifyEdge(qr, Below0, areaLats, inner, out);
    assert inner == Scale(Select(Flatten(qr), Below0), areaLats);
    assert out == Scale(Select(Flatten(qr), AtLeast0), areaLats);
    inner, out := ClassifyEdge(ql, Above0, areaLats, inner, out);
    inner, out := ClassifyEdge(qu, Below0, areaUp, inner, out);
    inner, out := ClassifyEdge(qd, Above0, areaDown, inner, out);
    var sumOut := SumAbs(out);
    var sumInner := SumAbs(inner);
    convergence := (sumInner - sumOut) * 3.0 * 3600.0;
  }

  /** Every boundary value goes to exactly one of `inner` and `out`. */
  lemma YulePartition(qr: seq<seq<real>>, ql: seq<seq<real>>, qu: seq<seq<real>>, qd: seq<seq<real>>,
                      areaLats: real, areaUp: real, areaDown: real)
    ensures |YuleInner(qr, ql, qu, qd, areaLats, areaUp, areaDown)| + |YuleOut(qr, ql, qu, qd, areaLats, areaUp, areaDown)|
            == |Flatten(qr)| + |Flatten(ql)| + |Flatten(qu)| + |Flatten(qd)|
  {
    SelectPartition(Flatten(qr), Below0);
    SelectPartition(Flatten(ql), Above0);
    SelectPartition(Flatten(qu), Below0);
    SelectPartition(Flatten(qd), Above0);
  }

  /** The transport values the script classifies, as the package's four edges. */
  function YuleValues(qr: seq<seq<real>>, ql: seq<seq<real>>, qu: seq<seq<real>>, qd: seq<seq<real>>,
                      areaLats: real, areaUp: real, areaDown: real): ConvValue
  {
    BorderValues(right := Scale(Flatten(qr), areaLats), left := Scale(Flatten(ql), areaLats),
                 down := Scale(Flatten(qd), areaDown), up := Scale(Flatten(qu), areaUp))
  }

  /** A positive length keeps every value's sign. */
  lemma TimesSign(x: real, c: real)
    requires c > 0.0
    ensures Times(x, c) < 0.0 <==> x < 0.0
    ensures Times(x, c) > 0.0 <==> x > 0.0
  {
    if x < 0.0 {
      assert Times(x, c) == -Times(-x, c);
    }
  }

  /** Scaling by a positive length and then selecting by sign is selecting
      and then scaling, so testing the unscaled values, as the loops do,
      classifies the scaled ones. */
  lemma {:induction false} SelectScale(s: seq<real>, t: Test, c: real)
    requires c > 0.0
    ensures Select(Scale(s, c), t) == Scale(Select(s, t), c)
    decreases |s|
  {
    if s != [] {
      var init := s[..|s| - 1];
      assert Scale(s, c)[..|s| - 1] == Scale(init, c);
      SelectScale(init, t, c);
      SelectLast(Scale(s, c), t);
      SelectLast(s, t);
      TimesSign(s[|s| - 1], c);
      if t.Holds(s[|s| - 1]) {
        ScaleAppend(Select(init, t), s[|s| - 1], c);
      }
    }
  }

  lemma InnerIsIncome(qr: seq<seq<real>>, ql: seq<seq<real>>, qu: seq<seq<real>>, qd: seq<seq<real>>,
                      areaLats: real, areaUp: real, areaDown: real)
    ensures areaLats > 0.0 && areaUp > 0.0 && areaDown > 0.0 ==>
            SumAbs(YuleInner(qr, ql, qu, qd, areaLats, areaUp, areaDown))
            == CalcIncome(YuleValues(qr, ql, qu, qd, areaLats, areaUp, areaDown))
  {
    if areaLats > 0.0 && areaUp > 0.0 && areaDown > 0.0 {
      var v := YuleValues(qr, ql, qu, qd, areaLats, areaUp, areaDown);
      var r, l, u, d := Select(v.right, Below0), Select(v.left, Above0), Select(v.up, Below0), Select(v.down, Above0);
      SelectScale(Flatten(qr), Below0, areaLats);
      SelectScale(Flatten(ql), Above0, areaLats);
      SelectScale(Flatten(qu), Below0, areaUp);
      SelectScale(Flatten(qd), Above0, areaDown);
      assert YuleInner(qr, ql, qu, qd, areaLats, areaUp, areaDown) == r + l + u + d;
      SumAbsConcat(r, l);
      SumAbsConcat(r + l, u);
      SumAbsConcat(r + l + u, d);
      SumAbsConcat(r + l, d);
      SumAbsConcat(r + l + d, u);
      IncomeIsSumAbs(v);
    }
  }

  lemma OutIsOutcome(qr: seq<seq<real>>, ql: seq<seq<real>>, qu: seq<seq<real>>, qd: seq<seq<real>>,
                     areaLats: real, areaUp: real, areaDown: real)
    ensures areaLats > 0.0 && areaUp > 0.0 && areaDown > 0.0 ==>
            SumAbs(YuleOut(qr, ql, qu, qd, areaLats, areaUp, areaDown))
            == CalcOutcome(YuleValues(qr, ql, qu, qd, areaLats, areaUp, areaDown))
  {
    if areaLats > 0.0 && areaUp > 0.0 && areaDown > 0.0 {
      var v := YuleValues(qr, ql, qu, qd, areaLats, areaUp, areaDown);
      var r, l, u, d := Select(v.right, AtLeast0), Select(v.left, AtMost0), Select(v.up, AtLeast0), Select(v.down, AtMost0);
      SelectScale(Flatten(qr), AtLeast0, areaLats);
      SelectScale(Flatten(ql), AtMost0, areaLats);
      SelectScale(Flatten(qu), AtLeast0, areaUp);
      SelectScale(Flatten(qd), AtMost0, areaDown);
      assert YuleOut(qr, ql, qu, qd, areaLats, areaUp, areaDown) == r + l + u + d;
      SumAbsConcat(r, l);
      SumAbsConcat(r + l, u);
      SumAbsConcat(r + l + u, d);
      SumAbsConcat(r + l, d);
      SumAbsConcat(r + l + d, u);
      OutcomeIsSumAbs(v);
    }
  }

  /** For one time step whose edges have one length per pair, with the
      package's edge lengths (meridian edges equal and every length
      positive), the script's convergence is `calcConv` in TOTAL mode with a
      three-hour step. */
  lemma YuleConvIsCalcConv(convdata: ConvDayData, regdata: RegionData,
                           qr: seq<real>, ql: seq<real>, qu: seq<real>, qd: seq<real>)
    requires var c, f := convdata.conc, convdata.flow;
      |c.right| == |f.right| && |c.left| == |f.left| && |c.down| == |f.down| && |c.up| == |f.up|
    requires qr == Mul(convdata.conc.right, convdata.flow.right).value
    requires ql == Mul(convdata.conc.left, convdata.flow.left).value
    requires qu == Mul(convdata.conc.up, convdata.flow.up).value
    requires qd == Mul(convdata.conc.down, convdata.flow.down).value
    requires var cell := regdata.cell; cell.left == cell.right > 0.0 && cell.up > 0.0 && cell.down > 0.0
    ensures CalcConv(convdata, regdata, 10800, Total)
            == Ok(Net(Convergence([qr], [ql], [qu], [qd], regdata.cell.right, regdata.cell.up, regdata.cell.down)))
  {
    var cell := regdata.cell;
    var v := YuleValues([qr], [ql], [qu], [qd], cell.right, cell.up, cell.down);
    var x := Convergence([qr], [ql], [qu], [qd], cell.right, cell.up, cell.down);
    assert GetConvValue(convdata.conc, convdata.flow, cell) == Ok(v) by {
      StepValues(convdata, cell, qr, ql, qu, qd);
    }
    assert x == OverStep(CalcIncome(v), 10800) - OverStep(CalcOutcome(v), 10800);
    CalcConvTotal(convdata, regdata, v, x);
  }

  /** TOTAL mode with a three-hour step gives income less outcome of the
      step's flux values. */
  lemma CalcConvTotal(convdata: ConvDayData, regdata: RegionData, v: ConvValue, x: real)
    requires GetConvValue(convdata.conc, convdata.flow, regdata.cell) == Ok(v)
    requires x == OverStep(CalcIncome(v), 10800) - OverStep(CalcOutcome(v), 10800)
    ensures CalcConv(convdata, regdata, 10800, Total) == Ok(Net(x))
  {
  }

  /** The package's flux values of one step are the script's values of that step. */
  lemma StepValues(convdata: ConvDayData, cell: Cell, qr: seq<real>, ql: seq<real>, qu: seq<real>, qd: seq<real>)
    requires var c, f := convdata.conc, convdata.flow;
      |c.right| == |f.right| && |c.left| == |f.left| && |c.down| == |f.down| && |c.up| == |f.up|
    requires qr == Mul(convdata.conc.right, convdata.flow.right).value
    requires ql == Mul(convdata.conc.left, convdata.flow.left).value
    requires qu == Mul(convdata.conc.up, convdata.flow.up).value
    requires qd == Mul(convdata.conc.down, convdata.flow.down).value
    requires cell.left == cell.right
    ensures GetConvValue(convdata.conc, convdata.flow, cell)
            == Ok(YuleValues([qr], [ql], [qu], [qd], cell.right, cell.up, cell.down))
  {
  }
}
