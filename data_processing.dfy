/** Region geometry: grid indices, snapped bounds, edge lengths and cell areas. */
module RegionProcessor {
  import opened PyArrays
  import opened Constants
  import opened Containers
  import opened Tools

  /** `getId`: the indices of the grid values nearest to the region's bounds;
      the longitude indices are shifted by one, the latitude indices are not. */
  function GetId(region: Region, grid: Grid): (r: Result<Id>)
    ensures r.Ok? <==> |grid.lon| > 0 && |grid.lat| > 0
    ensures r.Err? ==> r.error == ValueError
    ensures r.Ok? ==>
      && IsFirstClosest(grid.lon, region.Left(), r.value.left - 1)
      && IsFirstClosest(grid.lon, region.Right(), r.value.right - 1)
      && IsFirstClosest(grid.lat, region.Down(), r.value.down)
      && IsFirstClosest(grid.lat, region.Up(), r.value.up)
  {
    if |grid.lon| == 0 || |grid.lat| == 0 then Err(ValueError)
    else
      var left := ClosestId(region.Left(), grid.lon).value;
      var right := ClosestId(region.Right(), grid.lon).value;
      var down := ClosestId(region.Down(), grid.lat).value;
      var up := ClosestId(region.Up(), grid.lat).value;
      Ok(Id(down := down, up := up, left := left + 1, right := right + 1))
  }

  /** `getGridRegion`: each bound moved to the nearest grid value. */
  function GetGridRegion(region: Region, grid: Grid): (r: Result<Region>)
    ensures r.Ok? <==> |grid.lon| > 0 && |grid.lat| > 0
    ensures r.Err? ==> r.error == ValueError
    ensures r.Ok? ==>
      && r.value.Left() in grid.lon && r.value.Right() in grid.lon
      && r.value.Down() in grid.lat && r.value.Up() in grid.lat
  {
    if |grid.lon| == 0 || |grid.lat| == 0 then Err(ValueError)
    else
      var left := Closest(region.Left(), grid.lon).value;
      var right := Closest(region.Right(), grid.lon).value;
      var down := Closest(region.Down(), grid.lat).value;
      var up := Closest(region.Up(), grid.lat).value;
      Ok(Region.New(down, up, left, right))
  }

  /** The snapped bounds are the grid values at the index box: latitudes at
      `down` and `up`, longitudes one before `left` and `right`. */
  lemma GridRegionMatchesId(region: Region, grid: Grid)
    requires |grid.lon| > 0 && |grid.lat| > 0
    ensures var id, gr := GetId(region, grid).value, GetGridRegion(region, grid).value;
      && 0 <= id.down < |grid.lat| && 0 <= id.up < |grid.lat|
      && 1 <= id.left <= |grid.lon| && 1 <= id.right <= |grid.lon|
      && gr.Down() == grid.lat[id.down] && gr.Up() == grid.lat[id.up]
      && gr.Left() == grid.lon[id.left - 1] && gr.Right() == grid.lon[id.right - 1]
  {
    ClosestIsValueAtClosestId(region.Left(), grid.lon);
    ClosestIsValueAtClosestId(region.Right(), grid.lon);
    ClosestIsValueAtClosestId(region.Down(), grid.lat);
    ClosestIsValueAtClosestId(region.Up(), grid.lat);
  }

  /** `getCell`: meridian edges one cell long, parallel edges shortened by
      the latitude factor of the region's top and bottom. */
  function GetCell(gridRegion: Region, cosDeg: real -> real): (c: Cell)
    ensures c.left == CELL_LENGTH_METERS && c.right == CELL_LENGTH_METERS
    ensures c.up == CELL_LENGTH_METERS * CalcLatCoef(cosDeg, gridRegion.Up())
    ensures c.down == CELL_LENGTH_METERS * CalcLatCoef(cosDeg, gridRegion.Down())
  {
    Cell(down := ParallelLength(cosDeg, gridRegion.Down()), up := ParallelLength(cosDeg, gridRegion.Up()),
         left := CELL_LENGTH_METERS, right := CELL_LENGTH_METERS)
  }

  /** Mirroring a region across the equator swaps its top and bottom edge
      lengths and keeps the side lengths; in the northern hemisphere the
      top edge is the shorter one. */
  lemma CellMirror(gr: Region, cosDeg: real -> real)
    ensures var m := Region.New(-gr.Up(), -gr.Down(), gr.Left(), gr.Right());
      && GetCell(m, cosDeg).up == GetCell(gr, cosDeg).down
      && GetCell(m, cosDeg).down == GetCell(gr, cosDeg).up
      && GetCell(m, cosDeg).left == GetCell(gr, cosDeg).left
    ensures NonIncreasingTo90(cosDeg) && 0.0 <= gr.Down() <= gr.Up() <= 90.0 ==>
      GetCell(gr, cosDeg).up <= GetCell(gr, cosDeg).down
  {
    LatCoefEven(cosDeg, gr.Up());
    LatCoefEven(cosDeg, gr.Down());
    if NonIncreasingTo90(cosDeg) && 0.0 <= gr.Down() <= gr.Up() <= 90.0 {
      ParallelLengthPoleward(cosDeg, gr.Down(), gr.Up());
    }
  }

  /** The number of rows `calcAreasMatrix` allocates. */
  function AreaHeight(gr: Region): int
  {
    ((gr.Up() - gr.Down()) / CELL_STEP).Floor + 1
  }

  /** The number of columns `calcAreasMatrix` allocates. */
  function AreaWidth(gr: Region): int
  {
    ((gr.Right() - gr.Left()) / CELL_STEP).Floor + 1
  }

  /** The area of a cell whose row lies at latitude `lat`. */
  function RowArea(cosDeg: real -> real, lat: real): real
  {
    CELL_LENGTH_METERS * CELL_LENGTH_METERS * CalcLatCoef(cosDeg, lat)
  }

  /** The areas matrix: row `i` lies `i` cells below the region's top, and
      every cell in it has that row's area; `np.zeros` raises ValueError for
      a negative dimension. */
  function AreasMatrix(gr: Region, cosDeg: real -> real): (r: Result<Array2>)
    ensures r.Ok? <==> AreaHeight(gr) >= 0 && AreaWidth(gr) >= 0
    ensures r.Err? ==> r.error == ValueError
    ensures r.Ok? ==> r.value.rows == AreaHeight(gr) && r.value.cols == AreaWidth(gr)
    ensures r.Ok? ==> forall i, j :: 0 <= i < r.value.rows && 0 <= j < r.value.cols ==>
      r.value.cells[i][j] == RowArea(cosDeg, gr.Up() - CELL_STEP * i as real)
  {
    var height, width := AreaHeight(gr), AreaWidth(gr);
    if height < 0 || width < 0 then Err(ValueError)
    else
      var cells := seq(height, i requires 0 <= i < height =>
        seq(width, j requires 0 <= j < width => RowArea(cosDeg, gr.Up() - CELL_STEP * i as real)));
      assert forall i :: 0 <= i < height ==> |cells[i]| == width;
      Ok(Matrix(height, width, cells))
  }

  /** `calcAreasMatrix`: fills a zeroed buffer row by row, stepping the
      latitude down one cell per row. */
  method CalcAreasMatrix(gridRegion: Region, cosDeg: real -> real) returns (r: Result<Array2>)
    ensures r == AreasMatrix(gridRegion, cosDeg)
  {
    var height, width := AreaHeight(gridRegion), AreaWidth(gridRegion);
    if height < 0 || width < 0 {
      return Err(ValueError);
    }
    var up := gridRegion.Up();
    var areas := new real[height, width]((_, _) => 0.0);
    for row := 0 to height
      invariant up == gridRegion.Up() - CELL_STEP * row as real
      invariant forall i, j :: 0 <= i < row && 0 <= j < width ==>
        areas[i, j] == RowArea(cosDeg, gridRegion.Up() - CELL_STEP * i as real)
      invariant forall i, j :: row <= i < height && 0 <= j < width ==> areas[i, j] == 0.0
    {
      var cellArea := CELL_LENGTH_METERS * CELL_LENGTH_METERS * CalcLatCoef(cosDeg, Abs(up));
      forall j | 0 <= j < width {
        areas[row, j] := areas[row, j] + cellArea;
      }
      up := up - CELL_STEP;
    }
    r := Ok(Matrix(height, width, Rows(areas)));
    AreasBufferMatches(areas, gridRegion, cosDeg);
  }

  /** The rows of a two-dimensional buffer. */
  function Rows(a: array2<real>): (cells: seq<seq<real>>)
    reads a
    ensures |cells| == a.Length0 && forall i :: 0 <= i < a.Length0 ==> |cells[i]| == a.Length1
  {
    seq(a.Length0, i requires 0 <= i < a.Length0 reads a =>
      seq(a.Length1, j requires 0 <= j < a.Length1 reads a => a[i, j]))
  }

  /** A buffer holding the areas matrix's entries has its rows. */
  lemma AreasBufferMatches(a: array2<real>, gr: Region, cosDeg: real -> real)
    requires AreaHeight(gr) == a.Length0 && AreaWidth(gr) == a.Length1
    requires forall i, j :: 0 <= i < a.Length0 && 0 <= j < a.Length1 ==>
      a[i, j] == RowArea(cosDeg, gr.Up() - CELL_STEP * i as real)
    ensures AreasMatrix(gr, cosDeg).Ok? && Rows(a) == AreasMatrix(gr, cosDeg).value.cells
  {
    var cells, spec := Rows(a), AreasMatrix(gr, cosDeg).value.cells;
    forall i | 0 <= i < a.Length0
      ensures cells[i] == spec[i]
    {
      assert forall j :: 0 <= j < a.Length1 ==> cells[i][j] == spec[i][j];
    }
  }

  /** Every row of the areas matrix holds one value, and in the northern
      hemisphere rows do not shrink from the top row downwards. */
  lemma AreasRowsGrowTowardsEquator(gr: Region, cosDeg: real -> real, i: nat, j: nat, k: nat)
    requires AreasMatrix(gr, cosDeg).Ok?
    requires i < AreasMatrix(gr, cosDeg).value.rows
    requires j < k < AreasMatrix(gr, cosDeg).value.cols
    ensures var m := AreasMatrix(gr, cosDeg).value; m.cells[i][j] == m.cells[i][k]
    ensures var m := AreasMatrix(gr, cosDeg).value;
      NonIncreasingTo90(cosDeg) && 0.0 <= gr.Down() && gr.Up() <= 90.0 && i + 1 < m.rows ==>
        m.cells[i][j] <= m.cells[i + 1][j]
  {
    var m := AreasMatrix(gr, cosDeg).value;
    if NonIncreasingTo90(cosDeg) && 0.0 <= gr.Down() && gr.Up() <= 90.0 && i + 1 < m.rows {
      var a, b := gr.Up() - CELL_STEP * i as real, gr.Up() - CELL_STEP * (i + 1) as real;
      var q := (gr.Up() - gr.Down()) / CELL_STEP;
      assert (i + 1) as real <= q.Floor as real <= q;
      assert b >= gr.Down();
      assert cosDeg(Abs(a)) <= cosDeg(Abs(b));
      assert CELL_LENGTH_METERS == 27750.0;
    }
  }

  /** On the standard grid, a region whose box spans rows `up..down` and
      (shifted) columns `left-1 .. right-1` of one longitude segment gets an
      areas matrix of `down - up + 1` rows and `right - left + 1` columns. */
  lemma AreasShapeOnStandardGrid(gr: Region, id: Id)
    requires 0 <= id.up <= id.down < STD_HEIGTH && 1 <= id.left <= id.right <= STD_WIDTH
    requires id.right - 1 < 640 || 640 <= id.left - 1
    requires gr.Up() == CalcGrid().lat[id.up] && gr.Down() == CalcGrid().lat[id.down]
    requires gr.Left() == CalcGrid().lon[id.left - 1] && gr.Right() == CalcGrid().lon[id.right - 1]
    ensures AreaHeight(gr) == id.down - id.up + 1
    ensures AreaWidth(gr) == id.right - id.left + 1
  {
    assert (gr.Up() - gr.Down()) / CELL_STEP == (id.down - id.up) as real;
    assert (gr.Right() - gr.Left()) / CELL_STEP == (id.right - id.left) as real;
  }

  /** The record `getRegionData` returns for `RegionProcessor(region, grid)`;
      a missing grid is replaced by `calcGrid()`. */
  function RegionDataOf(region: Region, grid: Option<Grid>, cosDeg: real -> real): (r: Result<RegionData>)
    ensures var g := if grid.Some? then grid.value else CalcGrid();
      && (r.Ok? <==> (&& |g.lon| > 0 && |g.lat| > 0
                      && AreasMatrix(GetGridRegion(region, g).value, cosDeg).Ok?))
      && (r.Err? ==> r.error == ValueError)
      && (r.Ok? ==> (&& r.value.region == region
                     && r.value.id == GetId(region, g).value
                     && r.value.gridRegion == GetGridRegion(region, g).value
                     && r.value.cell == GetCell(r.value.gridRegion, cosDeg)
                     && r.value.cellareas == AreasMatrix(r.value.gridRegion, cosDeg).value))
  {
    var g := if grid.Some? then grid.value else CalcGrid();
    var id :- GetId(region, g);
    var gridRegion := GetGridRegion(region, g).value;
    var cell := GetCell(gridRegion, cosDeg);
    var areas :- AreasMatrix(gridRegion, cosDeg);
    Ok(RegionData(region, gridRegion, id, cell, areas))
  }

  /** `RegionProcessor(region, grid).getRegionData()`. */
  method GetRegionData(region: Region, grid: Option<Grid>, cosDeg: real -> real) returns (r: Result<RegionData>)
    ensures r == RegionDataOf(region, grid, cosDeg)
  {
    var g := if grid.Some? then grid.value else CalcGrid();
    var id :- GetId(region, g);
    var gridRegion := GetGridRegion(region, g).value;
    var cell := GetCell(gridRegion, cosDeg);
    var areas :- CalcAreasMatrix(gridRegion, cosDeg);
    r := Ok(RegionData(region, gridRegion, id, cell, areas));
  }

}

/** The mass integrator. */
module SumCalculator {
  import opened PyArrays
  import opened Constants
  import opened Containers
  import opened Tools
  import opened RegionProcessor

  /** The map window `calcSum` reads: rows `up..down` and columns
      `left..right`, both ends included. */
  function RegionWindow(dataMap: Array2, id: Id): (w: Array2)
    ensures w.rows == SliceLength(id.up, id.down + 1, dataMap.rows)
    ensures w.cols == SliceLength(id.left, id.right + 1, dataMap.cols)
  {
    Slice2(dataMap, id.up, id.down + 1, id.left, id.right + 1)
  }

  /** The areas matrix has the shape of the window it weights. */
  predicate Aligned(dataMap: Array2, regdata: RegionData)
  {
    var w := RegionWindow(dataMap, regdata.id);
    regdata.cellareas.rows == w.rows && regdata.cellareas.cols == w.cols
  }

  /** `calcSum`: after `verifyMap`, the cell areas times the map values of
      the region's window, summed; numpy raises ValueError when the two
      shapes do not broadcast. */
  function CalcSum(dataMap: Array2, regdata: RegionData): (r: Result<real>)
    ensures r.Ok? <==> (&& dataMap.rows == STD_HEIGTH && dataMap.cols == STD_WIDTH
                        && Mul2(regdata.cellareas, RegionWindow(dataMap, regdata.id)).Ok?)
    ensures r.Err? ==> r.error == ValueError
    ensures Aligned(dataMap, regdata) ==> (r.Ok? <==> dataMap.rows == STD_HEIGTH && dataMap.cols == STD_WIDTH)
  {
    var _ :- VerifyMap(ShapeOf(dataMap));
    var valuesInPoints := RegionWindow(dataMap, regdata.id);
    var product :- Mul2(regdata.cellareas, valuesInPoints);
    Ok(Sum2(product))
  }

  lemma CalcSumProduct(dataMap: Array2, regdata: RegionData)
    requires CalcSum(dataMap, regdata).Ok?
    ensures Mul2(regdata.cellareas, RegionWindow(dataMap, regdata.id)).Ok?
    ensures CalcSum(dataMap, regdata).value == Sum2(Mul2(regdata.cellareas, RegionWindow(dataMap, regdata.id)).value)
  {
  }

  /** The products of `a` with the window of `m` whose top-left corner is (r0, c0). */
  function WeightedWindow(a: Array2, m: Array2, r0: nat, c0: nat): seq<seq<real>>
    requires r0 + a.rows <= m.rows && c0 + a.cols <= m.cols
  {
    seq(a.rows, i requires 0 <= i < a.rows =>
      seq(a.cols, j requires 0 <= j < a.cols => a.cells[i][j] * m.cells[r0 + i][c0 + j]))
  }

  /** The mass is the sum over the window of area times value, the window's
      cell (i, j) being map cell (up + i, left + j). */
  lemma CalcSumIsWeightedWindow(dataMap: Array2, regdata: RegionData)
    requires CalcSum(dataMap, regdata).Ok? && Aligned(dataMap, regdata)
    ensures var id := regdata.id;
      CalcSum(dataMap, regdata).value
        == SumRows(WeightedWindow(regdata.cellareas, dataMap, SliceBound(id.up, dataMap.rows), SliceBound(id.left, dataMap.cols)))
  {
    CalcSumProduct(dataMap, regdata);
    WindowProduct(regdata.cellareas, dataMap, regdata.id);
  }

  lemma WindowProduct(a: Array2, m: Array2, id: Id)
    requires a.rows == RegionWindow(m, id).rows && a.cols == RegionWindow(m, id).cols
    ensures Mul2(a, RegionWindow(m, id)).Ok?
    ensures Mul2(a, RegionWindow(m, id)).value.cells
            == WeightedWindow(a, m, SliceBound(id.up, m.rows), SliceBound(id.left, m.cols))
  {
    var w := RegionWindow(m, id);
    var r0, c0 := SliceBound(id.up, m.rows), SliceBound(id.left, m.cols);
    var p := Mul2(a, w).value;
    var ww := WeightedWindow(a, m, r0, c0);
    assert |ww| == a.rows && forall i :: 0 <= i < a.rows ==> |ww[i]| == a.cols;
    forall i, j | 0 <= i < a.rows && 0 <= j < a.cols
      ensures p.cells[i][j] == ww[i][j]
    {
      WindowProductEntry(a, m, id, i, j);
    }
    CellsEqual(p.cells, ww);
  }

  lemma WindowProductEntry(a: Array2, m: Array2, id: Id, i: nat, j: nat)
    requires a.rows == RegionWindow(m, id).rows && a.cols == RegionWindow(m, id).cols
    requires i < a.rows && j < a.cols
    ensures Mul2(a, RegionWindow(m, id)).Ok?
    ensures Mul2(a, RegionWindow(m, id)).value.cells[i][j]
            == WeightedWindow(a, m, SliceBound(id.up, m.rows), SliceBound(id.left, m.cols))[i][j]
  {
    var r0, c0 := SliceBound(id.up, m.rows), SliceBound(id.left, m.cols);
    WindowEntry(m, id, i, j);
    ProductEntry(a, RegionWindow(m, id), m, r0, c0, i, j);
    WeightedWindowEntry(a, m, r0, c0, i, j);
  }

  /** An entry of `a * w` where the entry of `w` is one of `m`. */
  lemma ProductEntry(a: Array2, w: Array2, m: Array2, r0: nat, c0: nat, i: nat, j: nat)
    requires a.rows == w.rows && a.cols == w.cols && i < a.rows && j < a.cols
    requires r0 + i < m.rows && c0 + j < m.cols
    requires w.cells[i][j] == m.cells[r0 + i][c0 + j]
    ensures Mul2(a, w).Ok?
    ensures Mul2(a, w).value.cells[i][j] == a.cells[i][j] * m.cells[r0 + i][c0 + j]
  {
    Mul2Entry(a, w, i, j);
  }

  lemma WindowEntry(m: Array2, id: Id, i: nat, j: nat)
    requires i < RegionWindow(m, id).rows && j < RegionWindow(m, id).cols
    ensures RegionWindow(m, id).cells[i][j] == m.cells[SliceBound(id.up, m.rows) + i][SliceBound(id.left, m.cols) + j]
  {
    Slice2Entry(m, id.up, id.down + 1, id.left, id.right + 1, i, j);
  }

  lemma WeightedWindowEntry(a: Array2, m: Array2, r0: nat, c0: nat, i: nat, j: nat)
    requires r0 + a.rows <= m.rows && c0 + a.cols <= m.cols && i < a.rows && j < a.cols
    ensures WeightedWindow(a, m, r0, c0)[i][j] == a.cells[i][j] * m.cells[r0 + i][c0 + j]
  {
  }

  /** `w` is `a` with every entry multiplied by `c`. */
  ghost predicate ScaledRows(a: seq<seq<real>>, w: seq<seq<real>>, c: real)
  {
    |w| == |a| && forall i :: 0 <= i < |a| ==> w[i] == Scale(a[i], c)
  }

  lemma {:induction false} SumOfScaledRows(a: seq<seq<real>>, w: seq<seq<real>>, c: real)
    requires ScaledRows(a, w, c)
    ensures SumRows(w) == Times(SumRows(a), c)
    decreases |a|
  {
    if a != [] {
      var n := |a| - 1;
      assert ScaledRows(a[..n], w[..n], c);
      SumOfScaledRows(a[..n], w[..n], c);
      SumScale(a[n], c);
      TimesAdd(SumRows(a[..n]), Sum(a[n]), c);
    } else {
      assert Times(0.0, c) == 0.0;
    }
  }

  lemma ProductNonNegative(x: real, y: real)
    requires x >= 0.0 && y >= 0.0
    ensures x * y >= 0.0
  {
  }

  /** A map holding the same value `c` everywhere gives `c` times the total area. */
  lemma CalcSumOfUniformMap(dataMap: Array2, regdata: RegionData, c: real)
    requires forall i, j :: 0 <= i < dataMap.rows && 0 <= j < dataMap.cols ==> dataMap.cells[i][j] == c
    requires CalcSum(dataMap, regdata).Ok? && Aligned(dataMap, regdata)
    ensures CalcSum(dataMap, regdata).value == Times(Sum2(regdata.cellareas), c)
  {
    var a, id := regdata.cellareas, regdata.id;
    var r0, c0 := SliceBound(id.up, dataMap.rows), SliceBound(id.left, dataMap.cols);
    assert r0 + a.rows <= dataMap.rows && c0 + a.cols <= dataMap.cols;
    var ww := WeightedWindow(a, dataMap, r0, c0);
    assert CalcSum(dataMap, regdata).value == SumRows(ww) by {
      CalcSumIsWeightedWindow(dataMap, regdata);
    }
    assert SumRows(ww) == Times(Sum2(a), c) by {
      UniformWindowSum(a, dataMap, r0, c0, c);
    }
  }

  lemma UniformWindowSum(a: Array2, m: Array2, r0: nat, c0: nat, c: real)
    requires r0 + a.rows <= m.rows && c0 + a.cols <= m.cols
    requires forall i, j :: 0 <= i < m.rows && 0 <= j < m.cols ==> m.cells[i][j] == c
    ensures SumRows(WeightedWindow(a, m, r0, c0)) == Times(Sum2(a), c)
  {
    UniformWindow(a, m, r0, c0, c);
    SumOfScaledRows(a.cells, WeightedWindow(a, m, r0, c0), c);
  }

  /** Weighting a window of a uniform map scales the weights. */
  lemma UniformWindow(a: Array2, m: Array2, r0: nat, c0: nat, c: real)
    requires r0 + a.rows <= m.rows && c0 + a.cols <= m.cols
    requires forall i, j :: 0 <= i < m.rows && 0 <= j < m.cols ==> m.cells[i][j] == c
    ensures ScaledRows(a.cells, WeightedWindow(a, m, r0, c0), c)
  {
    var ww := WeightedWindow(a, m, r0, c0);
    forall i | 0 <= i < a.rows
      ensures ww[i] == Scale(a.cells[i], c)
    {
      forall j | 0 <= j < a.cols
        ensures ww[i][j] == Scale(a.cells[i], c)[j]
      {
        WeightedWindowEntry(a, m, r0, c0, i, j);
      }
    }
  }

  /** Non-negative weights on a non-negative map give non-negative products. */
  lemma WeightedWindowNonNegative(a: Array2, m: Array2, r0: nat, c0: nat)
    requires r0 + a.rows <= m.rows && c0 + a.cols <= m.cols
    requires forall i, j :: 0 <= i < m.rows && 0 <= j < m.cols ==> m.cells[i][j] >= 0.0
    requires forall i, j :: 0 <= i < a.rows && 0 <= j < a.cols ==> a.cells[i][j] >= 0.0
    ensures var ww := WeightedWindow(a, m, r0, c0);
      forall i, j :: 0 <= i < |ww| && 0 <= j < |ww[i]| ==> ww[i][j] >= 0.0
  {
    var ww := WeightedWindow(a, m, r0, c0);
    forall i, j | 0 <= i < |ww| && 0 <= j < |ww[i]|
      ensures ww[i][j] >= 0.0
    {
      WeightedWindowEntry(a, m, r0, c0, i, j);
      ProductNonNegative(a.cells[i][j], m.cells[r0 + i][c0 + j]);
    }
  }

  lemma {:induction false} SumNonNegative(s: seq<real>)
    requires forall j :: 0 <= j < |s| ==> s[j] >= 0.0
    ensures Sum(s) >= 0.0
    decreases |s|
  {
    if s != [] {
      SumNonNegative(s[..|s| - 1]);
    }
  }

  lemma {:induction false} SumRowsNonNegative(cells: seq<seq<real>>)
    requires forall i, j :: 0 <= i < |cells| && 0 <= j < |cells[i]| ==> cells[i][j] >= 0.0
    ensures SumRows(cells) >= 0.0
    decreases |cells|
  {
    if cells != [] {
      SumRowsNonNegative(cells[..|cells| - 1]);
      SumNonNegative(cells[|cells| - 1]);
    }
  }

  /** Non-negative areas and concentrations give a non-negative mass. */
  lemma CalcSumNonNegative(dataMap: Array2, regdata: RegionData)
    requires forall i, j :: 0 <= i < dataMap.rows && 0 <= j < dataMap.cols ==> dataMap.cells[i][j] >= 0.0
    requires forall i, j :: 0 <= i < regdata.cellareas.rows && 0 <= j < regdata.cellareas.cols ==>
      regdata.cellareas.cells[i][j] >= 0.0
    requires CalcSum(dataMap, regdata).Ok? && Aligned(dataMap, regdata)
    ensures CalcSum(dataMap, regdata).value >= 0.0
  {
    var a, id := regdata.cellareas, regdata.id;
    var r0, c0 := SliceBound(id.up, dataMap.rows), SliceBound(id.left, dataMap.cols);
    CalcSumIsWeightedWindow(dataMap, regdata);
    WeightedWindowNonNegative(a, dataMap, r0, c0);
    SumRowsNonNegative(WeightedWindow(a, dataMap, r0, c0));
  }

  /** On the standard grid, a region whose box lies in the grid (its right
      edge before the last column) and in one longitude segment has an areas
      matrix of exactly its window's shape, so `calcSum` succeeds on every
      (720, 1440) map. */
  lemma CalcSumDefinedOnStandardGrid(region: Region, cosDeg: real -> real, dataMap: Array2)
    requires dataMap.rows == STD_HEIGTH && dataMap.cols == STD_WIDTH
    requires var id := GetId(region, CalcGrid()).value;
      && id.up <= id.down && id.left <= id.right < STD_WIDTH
      && (id.right - 1 < 640 || 640 <= id.left - 1)
    ensures RegionDataOf(region, None, cosDeg).Ok?
    ensures CalcSum(dataMap, RegionDataOf(region, None, cosDeg).value).Ok?
  {
    var g := CalcGrid();
    assert RegionDataOf(region, None, cosDeg) == RegionDataOf(region, Some(g), cosDeg);
    StandardRegionData(region, g, GetId(region, g).value, cosDeg);
    CalcSumOfMatchingShape(dataMap, RegionDataOf(region, Some(g), cosDeg).value);
  }

  /** The region data of such a region on the standard grid. */
  lemma StandardRegionData(region: Region, g: Grid, id: Id, cosDeg: real -> real)
    requires g == CalcGrid() && id == GetId(region, g).value
    requires id.up <= id.down && id.left <= id.right < STD_WIDTH
    requires id.right - 1 < 640 || 640 <= id.left - 1
    ensures RegionDataOf(region, Some(g), cosDeg).Ok?
    ensures var rd := RegionDataOf(region, Some(g), cosDeg).value;
      && rd.id == id && 0 <= id.up && id.down < STD_HEIGTH && 0 <= id.left
      && rd.cellareas.rows == id.down - id.up + 1
      && rd.cellareas.cols == id.right - id.left + 1
  {
    GridRegionMatchesId(region, g);
    AreasShapeOnStandardGrid(GetGridRegion(region, g).value, id);
    RegionDataOfShape(region, g, id, cosDeg);
  }

  /** The region data once the grid indices and the shape of the areas
      matrix are known. */
  lemma RegionDataOfShape(region: Region, g: Grid, id: Id, cosDeg: real -> real)
    requires |g.lon| > 0 && |g.lat| > 0 && id == GetId(region, g).value
    requires AreaHeight(GetGridRegion(region, g).value) == id.down - id.up + 1 >= 1
    requires AreaWidth(GetGridRegion(region, g).value) == id.right - id.left + 1 >= 1
    ensures RegionDataOf(region, Some(g), cosDeg).Ok?
    ensures var rd := RegionDataOf(region, Some(g), cosDeg).value;
      && rd.id == id
      && rd.cellareas.rows == id.down - id.up + 1
      && rd.cellareas.cols == id.right - id.left + 1
  {
    RegionDataShape(region, g, cosDeg);
  }

  /** On any grid, a region whose areas matrix has a valid shape gets its
      record, with that shape and the grid indices. */
  lemma RegionDataShape(region: Region, g: Grid, cosDeg: real -> real)
    requires |g.lon| > 0 && |g.lat| > 0
    requires AreaHeight(GetGridRegion(region, g).value) >= 0 && AreaWidth(GetGridRegion(region, g).value) >= 0
    ensures RegionDataOf(region, Some(g), cosDeg).Ok?
    ensures var rd := RegionDataOf(region, Some(g), cosDeg).value;
      && rd.id == GetId(region, g).value
      && rd.cellareas.rows == AreaHeight(GetGridRegion(region, g).value)
      && rd.cellareas.cols == AreaWidth(GetGridRegion(region, g).value)
  {
  }

  /** An areas matrix with one row per index from `up` to `down` and one
      column per index from `left` to `right` fits the window of a standard map. */
  lemma CalcSumOfMatchingShape(dataMap: Array2, rd: RegionData)
    requires dataMap.rows == STD_HEIGTH && dataMap.cols == STD_WIDTH
    requires 0 <= rd.id.up <= rd.id.down < STD_HEIGTH && 0 <= rd.id.left <= rd.id.right < STD_WIDTH
    requires rd.cellareas.rows == rd.id.down - rd.id.up + 1
    requires rd.cellareas.cols == rd.id.right - rd.id.left + 1
    ensures Aligned(dataMap, rd) && CalcSum(dataMap, rd).Ok?
  {
  }

}

/** The boundary-flux classifier. */
module ConvCalculator {
  import opened PyArrays
  import opened Containers

  /** The modes of `calcConv` (TOTAL, SEP) and of `getBalanceSeries` (ARRAY, DF). */
  datatype Mode = Total | Sep | Array | Df

  /** What `calcConv` returns: the net transport, or the (income, outcome) pair. */
  datatype ConvResult = Net(value: real) | Separated(income: real, outcome: real)

  /** `getConvValue`: concentration times velocity times edge length, for
      each edge; numpy raises ValueError for edges that do not broadcast. */
  function GetConvValue(conc: ConvConc, flow: ConvFlow, cell: Cell): (r: Result<ConvValue>)
    ensures r.Ok? <==> (&& Broadcastable(|conc.right|, |flow.right|) && Broadcastable(|conc.left|, |flow.left|)
                        && Broadcastable(|conc.down|, |flow.down|) && Broadcastable(|conc.up|, |flow.up|))
    ensures r.Err? ==> r.error == ValueError
    ensures r.Ok? ==> (&& |r.value.right| == BroadcastLength(|conc.right|, |flow.right|)
                       && |r.value.left| == BroadcastLength(|conc.left|, |flow.left|)
                       && |r.value.down| == BroadcastLength(|conc.down|, |flow.down|)
                       && |r.value.up| == BroadcastLength(|conc.up|, |flow.up|))
  {
    var right :- Mul(conc.right, flow.right);
    var left :- Mul(conc.left, flow.left);
    var down :- Mul(conc.down, flow.down);
    var up :- Mul(conc.up, flow.up);
    Ok(BorderValues(Scale(right, cell.right), Scale(left, cell.left), Scale(down, cell.down), Scale(up, cell.up)))
  }

  /** On edges where concentration and velocity have one length, each value
      is concentration times velocity times the edge's cell length. */
  lemma ConvValueEntries(conc: ConvConc, flow: ConvFlow, cell: Cell)
    requires GetConvValue(conc, flow, cell).Ok?
    ensures var v := GetConvValue(conc, flow, cell).value;
      && (|conc.right| == |flow.right| ==>
            forall k :: 0 <= k < |conc.right| ==> v.right[k] == conc.right[k] * flow.right[k] * cell.right)
      && (|conc.left| == |flow.left| ==>
            forall k :: 0 <= k < |conc.left| ==> v.left[k] == conc.left[k] * flow.left[k] * cell.left)
      && (|conc.down| == |flow.down| ==>
            forall k :: 0 <= k < |conc.down| ==> v.down[k] == conc.down[k] * flow.down[k] * cell.down)
      && (|conc.up| == |flow.up| ==>
            forall k :: 0 <= k < |conc.up| ==> v.up[k] == conc.up[k] * flow.up[k] * cell.up)
  {
  }

  /** The sign conditions the classifier selects boundary values by. */
  datatype Test = Below0 | AtLeast0 | Above0 | AtMost0 {
    predicate Holds(x: real)
    {
      match this
      case Below0 => x < 0.0
      case AtLeast0 => x >= 0.0
      case Above0 => x > 0.0
      case AtMost0 => x <= 0.0
    }

    /** The condition that holds exactly where this one does not. */
    function Complement(): (t: Test)
      ensures forall x :: t.Holds(x) <==> !Holds(x)
    {
      match this
      case Below0 => AtLeast0
      case AtLeast0 => Below0
      case Above0 => AtMost0
      case AtMost0 => Above0
    }
  }

  /** `a[np.argwhere(test(a))]`: the values passing the test, in order. */
  function Select(s: seq<real>, t: Test): (r: seq<real>)
    ensures |r| <= |s|
    ensures forall k :: 0 <= k < |r| ==> t.Holds(r[k])
  {
    if s == [] then []
    else
      var init := Select(s[..|s| - 1], t);
      assert s == s[..|s| - 1] + [s[|s| - 1]];
      if t.Holds(s[|s| - 1]) then init + [s[|s| - 1]] else init
  }

  /** Selecting from a non-empty edge: the last value is kept exactly when it passes. */
  lemma SelectLast(s: seq<real>, t: Test)
    requires s != []
    ensures Select(s, t) == if t.Holds(s[|s| - 1]) then Select(s[..|s| - 1], t) + [s[|s| - 1]] else Select(s[..|s| - 1], t)
  {
  }

  /** Each value of an edge lands in exactly one of a test's two buckets:
      the counts, the sums and the multisets add up to the edge's. */
  lemma SelectPartition(s: seq<real>, t: Test)
    ensures |Select(s, t)| + |Select(s, t.Complement())| == |s|
    ensures Sum(Select(s, t)) + Sum(Select(s, t.Complement())) == Sum(s)
    ensures multiset(Select(s, t)) + multiset(Select(s, t.Complement())) == multiset(s)
  {
    SelectPartitionSum(s, t);
    SelectPartitionMultiset(s, t);
    assert |multiset(Select(s, t)) + multiset(Select(s, t.Complement()))| == |multiset(s)|;
  }

  lemma {:induction false} SelectPartitionSum(s: seq<real>, t: Test)
    ensures Sum(Select(s, t)) + Sum(Select(s, t.Complement())) == Sum(s)
    decreases |s|
  {
    if s != [] {
      var init, x := s[..|s| - 1], s[|s| - 1];
      SelectPartitionSum(init, t);
      SelectLast(s, t);
      SelectLast(s, t.Complement());
      if t.Holds(x) {
        SumConcat(Select(init, t), [x]);
      } else {
        SumConcat(Select(init, t.Complement()), [x]);
      }
      SumSingle(x);
    }
  }

  lemma {:induction false} SelectPartitionMultiset(s: seq<real>, t: Test)
    ensures multiset(Select(s, t)) + multiset(Select(s, t.Complement())) == multiset(s)
    decreases |s|
  {
    if s != [] {
      var init, x := s[..|s| - 1], s[|s| - 1];
      SelectPartitionMultiset(init, t);
      SelectLast(s, t);
      SelectLast(s, t.Complement());
      assert s == init + [x];
      assert multiset(s) == multiset(init) + multiset{x};
      if t.Holds(x) {
        assert multiset(Select(s, t)) == multiset(Select(init, t)) + multiset{x};
      } else {
        assert multiset(Select(s, t.Complement())) == multiset(Select(init, t.Complement())) + multiset{x};
      }
    }
  }

  lemma {:induction false} SumOfSelectSign(s: seq<real>, t: Test)
    ensures t == Below0 || t == AtMost0 ==> Sum(Select(s, t)) <= 0.0
    ensures t == Above0 || t == AtLeast0 ==> Sum(Select(s, t)) >= 0.0
    decreases |s|
  {
    if s != [] {
      SumOfSelectSign(s[..|s| - 1], t);
      if t.Holds(s[|s| - 1]) {
        SumConcat(Select(s[..|s| - 1], t), [s[|s| - 1]]);
        SumSingle(s[|s| - 1]);
      }
    }
  }

  /** `calcIncome`: what enters through each edge - negative values on the
      right and top edges, positive values on the left and bottom edges. */
  function CalcIncome(v: ConvValue): (r: real)
    ensures r >= 0.0
  {
    SumOfSelectSign(v.right, Below0);
    SumOfSelectSign(v.left, Above0);
    SumOfSelectSign(v.down, Above0);
    SumOfSelectSign(v.up, Below0);
    -Sum(Select(v.right, Below0)) + Sum(Select(v.left, Above0))
      + Sum(Select(v.down, Above0)) - Sum(Select(v.up, Below0))
  }

  /** `calcOutcome`: everything else, zeros included, with its sign turned outward. */
  function CalcOutcome(v: ConvValue): (r: real)
    ensures r >= 0.0
  {
    SumOfSelectSign(v.right, AtLeast0);
    SumOfSelectSign(v.left, AtMost0);
    SumOfSelectSign(v.down, AtMost0);
    SumOfSelectSign(v.up, AtLeast0);
    Sum(Select(v.right, AtLeast0)) - Sum(Select(v.left, AtMost0))
      - Sum(Select(v.down, AtMost0)) + Sum(Select(v.up, AtLeast0))
  }

  /** Income and outcome are never negative, and their difference is the net
      inflow: left plus bottom minus right minus top. */
  lemma IncomeOutcomeBalance(v: ConvValue)
    ensures CalcIncome(v) >= 0.0 && CalcOutcome(v) >= 0.0
    ensures CalcIncome(v) - CalcOutcome(v) == Sum(v.left) + Sum(v.down) - Sum(v.right) - Sum(v.up)
  {
    SumOfSelectSign(v.right, Below0);
    SumOfSelectSign(v.right, AtLeast0);
    SumOfSelectSign(v.left, Above0);
    SumOfSelectSign(v.left, AtMost0);
    SumOfSelectSign(v.down, Above0);
    SumOfSelectSign(v.down, AtMost0);
    SumOfSelectSign(v.up, Below0);
    SumOfSelectSign(v.up, AtLeast0);
    SelectPartition(v.right, Below0);
    SelectPartition(v.left, Above0);
    SelectPartition(v.down, Above0);
    SelectPartition(v.up, Below0);
  }

  /** The values counted as income, edge by edge. */
  function IncomeCells(v: ConvValue): seq<real>
  {
    Select(v.right, Below0) + Select(v.left, Above0) + Select(v.down, Above0) + Select(v.up, Below0)
  }

  /** The values counted as outcome, edge by edge. */
  function OutcomeCells(v: ConvValue): seq<real>
  {
    Select(v.right, AtLeast0) + Select(v.left, AtMost0) + Select(v.down, AtMost0) + Select(v.up, AtLeast0)
  }

  /** Python's `sum(map(abs, s))`. */
  function SumAbs(s: seq<real>): (r: real)
    ensures r >= 0.0
  {
    if s == [] then 0.0 else SumAbs(s[..|s| - 1]) + Abs(s[|s| - 1])
  }

  lemma {:induction false} SumAbsConcat(a: seq<real>, b: seq<real>)
    ensures SumAbs(a + b) == SumAbs(a) + SumAbs(b)
    decreases |b|
  {
    if b == [] {
      assert a + b == a;
    } else {
      assert (a + b)[..|a + b| - 1] == a + b[..|b| - 1];
      SumAbsConcat(a, b[..|b| - 1]);
    }
  }

  /** On values of one sign, the sum of magnitudes is the sum up to that sign. */
  lemma {:induction false} SumAbsOfSelect(s: seq<real>, t: Test)
    ensures t == Below0 || t == AtMost0 ==> SumAbs(Select(s, t)) == -Sum(Select(s, t))
    ensures t == Above0 || t == AtLeast0 ==> SumAbs(Select(s, t)) == Sum(Select(s, t))
    decreases |s|
  {
    if s != [] {
      SumAbsOfSelect(s[..|s| - 1], t);
      if t.Holds(s[|s| - 1]) {
        var init := Select(s[..|s| - 1], t);
        SumConcat(init, [s[|s| - 1]]);
        SumSingle(s[|s| - 1]);
        assert (init + [s[|s| - 1]])[..|init|] == init;
      }
    }
  }

  /** Every boundary value is income or outcome and not both; income and
      outcome are the magnitudes of their values added up. */
  lemma IncomeOutcomeCells(v: ConvValue)
    ensures |IncomeCells(v)| + |OutcomeCells(v)| == |v.right| + |v.left| + |v.down| + |v.up|
    ensures multiset(IncomeCells(v)) + multiset(OutcomeCells(v))
            == multiset(v.right) + multiset(v.left) + multiset(v.down) + multiset(v.up)
    ensures CalcIncome(v) == SumAbs(IncomeCells(v))
    ensures CalcOutcome(v) == SumAbs(OutcomeCells(v))
  {
    IncomeOutcomeMultiset(v);
    assert |multiset(IncomeCells(v)) + multiset(OutcomeCells(v))|
        == |multiset(v.right) + multiset(v.left) + multiset(v.down) + multiset(v.up)|;
    IncomeIsSumAbs(v);
    OutcomeIsSumAbs(v);
  }

  lemma IncomeOutcomeMultiset(v: ConvValue)
    ensures multiset(IncomeCells(v)) + multiset(OutcomeCells(v))
            == multiset(v.right) + multiset(v.left) + multiset(v.down) + multiset(v.up)
  {
    SelectPartitionMultiset(v.right, Below0);
    SelectPartitionMultiset(v.left, Above0);
    SelectPartitionMultiset(v.down, Above0);
    SelectPartitionMultiset(v.up, Below0);
    var r0, l0, d0, u0 := Select(v.right, Below0), Select(v.left, Above0), Select(v.down, Above0), Select(v.up, Below0);
    var r1, l1, d1, u1 := Select(v.right, AtLeast0), Select(v.left, AtMost0), Select(v.down, AtMost0), Select(v.up, AtLeast0);
    assert multiset(IncomeCells(v)) == multiset(r0) + multiset(l0) + multiset(d0) + multiset(u0);
    assert multiset(OutcomeCells(v)) == multiset(r1) + multiset(l1) + multiset(d1) + multiset(u1);
  }

  lemma IncomeIsSumAbs(v: ConvValue)
    ensures CalcIncome(v) == SumAbs(IncomeCells(v))
  {
    var r0, l0, d0, u0 := Select(v.right, Below0), Select(v.left, Above0), Select(v.down, Above0), Select(v.up, Below0);
    SumAbsConcat(r0, l0);
    SumAbsConcat(r0 + l0, d0);
    SumAbsConcat(r0 + l0 + d0, u0);
    SumAbsOfSelect(v.right, Below0);
    SumAbsOfSelect(v.left, Above0);
    SumAbsOfSelect(v.down, Above0);
    SumAbsOfSelect(v.up, Below0);
  }

  lemma OutcomeIsSumAbs(v: ConvValue)
    ensures CalcOutcome(v) == SumAbs(OutcomeCells(v))
  {
    var r1, l1, d1, u1 := Select(v.right, AtLeast0), Select(v.left, AtMost0), Select(v.down, AtMost0), Select(v.up, AtLeast0);
    SumAbsConcat(r1, l1);
    SumAbsConcat(r1 + l1, d1);
    SumAbsConcat(r1 + l1 + d1, u1);
    SumAbsOfSelect(v.right, AtLeast0);
    SumAbsOfSelect(v.left, AtMost0);
    SumAbsOfSelect(v.down, AtMost0);
    SumAbsOfSelect(v.up, AtLeast0);
  }

  /** A rate in kilograms per second accumulated over `seconds` seconds. */
  function OverStep(rate: real, seconds: int): real
  {
    rate * seconds as real
  }

  /** `calcConv`: income and outcome over `seconds`, as a pair for SEP or
      as their difference for TOTAL; any other mode raises ValueError. */
  function CalcConv(convdata: ConvDayData, regdata: RegionData, seconds: int, mode: Mode): (r: Result<ConvResult>)
    ensures r.Ok? <==> GetConvValue(convdata.conc, convdata.flow, regdata.cell).Ok? && (mode == Sep || mode == Total)
    ensures r.Err? ==> r.error == ValueError
    ensures r.Ok? && mode == Sep ==>
      var v := GetConvValue(convdata.conc, convdata.flow, regdata.cell).value;
      r.value == Separated(OverStep(CalcIncome(v), seconds), OverStep(CalcOutcome(v), seconds))
    ensures r.Ok? && mode == Total ==>
      var v := GetConvValue(convdata.conc, convdata.flow, regdata.cell).value;
      r.value == Net(OverStep(CalcIncome(v), seconds) - OverStep(CalcOutcome(v), seconds))
  {
    var values :- GetConvValue(convdata.conc, convdata.flow, regdata.cell);
    var income := OverStep(CalcIncome(values), seconds);
    var outcome := OverStep(CalcOutcome(values), seconds);
    if mode == Sep then Ok(Separated(income, outcome))
    else if mode == Total then Ok(Net(income - outcome))
    else Err(ValueError)
  }

  /** TOTAL is the net boundary inflow over the step: what comes in through
      the left and bottom edges minus what leaves through the right and top. */
  lemma ConvTotalIsNetInflow(convdata: ConvDayData, regdata: RegionData, seconds: int)
    requires CalcConv(convdata, regdata, seconds, Total).Ok?
    ensures var v := GetConvValue(convdata.conc, convdata.flow, regdata.cell).value;
      CalcConv(convdata, regdata, seconds, Total).value.value
        == OverStep(Sum(v.left) + Sum(v.down) - Sum(v.right) - Sum(v.up), seconds)
  {
    ScaledNetInflow(GetConvValue(convdata.conc, convdata.flow, regdata.cell).value, seconds);
  }

  /** Income less outcome, both over `seconds`, is the net inflow over `seconds`. */
  lemma ScaledNetInflow(v: ConvValue, seconds: int)
    ensures OverStep(CalcIncome(v), seconds) - OverStep(CalcOutcome(v), seconds)
            == OverStep(Sum(v.left) + Sum(v.down) - Sum(v.right) - Sum(v.up), seconds)
  {
    IncomeOutcomeBalance(v);
    OverStepDifference(CalcIncome(v), CalcOutcome(v), Sum(v.left) + Sum(v.down) - Sum(v.right) - Sum(v.up), seconds);
  }

  lemma OverStepDifference(i: real, o: real, d: real, seconds: int)
    requires i - o == d
    ensures OverStep(i, seconds) - OverStep(o, seconds) == OverStep(d, seconds)
  {
    var sec := seconds as real;
    assert i * sec - o * sec == (i - o) * sec;
  }
}

/** The assembly of the balance series. */
module BalanceCalculator {
  import opened PyArrays
  import opened Containers
  import opened DataLoading
  import opened RegionProcessor
  import opened SumCalculator
  import opened ConvCalculator

  /** The region and the loader a balance is computed for. */
  datatype BalanceData = BalanceData(regData: RegionData, data: DataLoader)

  /** What `getBalanceSeries` returns, with the region. */
  datatype RegionBalance = RegionBalance(region: Region, balance: seq<real>)

  /** The mass in the region at each time step: the map read at that step,
      summed over the region; a step off the time axis raises IndexError. */
  function MassAt(bd: BalanceData): (mass: int -> Result<real>)
    ensures forall t :: AxisIndex(t, bd.data.db.target.n2).Err? ==> mass(t) == Err(IndexError)
  {
    t => (var concmap :- GetTargetMap(bd.data, t); CalcSum(concmap, bd.regData))
  }

  /** The net boundary transport (TOTAL mode) at each time step; a step off
      the time axis of the stored quantity raises IndexError. */
  function ConvAt(bd: BalanceData): (conv: int -> Result<real>)
    ensures forall t :: AxisIndex(t, bd.data.db.target.n2).Err? ==> conv(t) == Err(IndexError)
  {
    t => (var convdata :- GetConvData(bd.data, t, bd.regData.id);
          var c :- CalcConv(convdata, bd.regData, bd.data.dateData.seconds, Total);
          Ok(c.value))
  }

  /** `calcSumSeries`: the masses at time ids `start_id .. end_id + 1`, one
      more than the range holds, so that the differences cover every step. */
  method CalcSumSeries(bd: BalanceData) returns (r: Result<seq<real>>)
    ensures FilledFrom(r, bd.data.dateData.startId, bd.data.dateData.Timesize() + 1, MassAt(bd))
  {
    var dateRange := bd.data.dateData;
    r := FillFrom(dateRange.startId, dateRange.Timesize() + 1, MassAt(bd));
  }

  /** `calcSumsDiffSeries`: each mass minus the one before it; `np.zeros(-1)`
      raises ValueError for an empty series. */
  method CalcSumsDiffSeries(sums: seq<real>) returns (r: Result<seq<real>>)
    ensures r.Ok? <==> |sums| > 0
    ensures r.Err? ==> r.error == ValueError
    ensures r.Ok? ==> |r.value| == |sums| - 1 && forall i :: 0 <= i < |r.value| ==> r.value[i] == sums[i + 1] - sums[i]
  {
    var diffSumsLen := |sums| - 1;
    if diffSumsLen < 0 {
      return Err(ValueError);
    }
    var diffSums := new real[diffSumsLen](_ => 0.0);
    for timeId := 0 to diffSumsLen
      invariant forall i :: 0 <= i < timeId ==> diffSums[i] == sums[i + 1] - sums[i]
    {
      diffSums[timeId] := sums[timeId + 1] - sums[timeId];
    }
    r := Ok(diffSums[..]);
  }

  /** The differences telescope: they add up to the last mass minus the first. */
  lemma {:induction false} DiffsTelescope(sums: seq<real>, diffs: seq<real>)
    requires |sums| > 0 && |diffs| == |sums| - 1
    requires forall i :: 0 <= i < |diffs| ==> diffs[i] == sums[i + 1] - sums[i]
    ensures Sum(diffs) == sums[|sums| - 1] - sums[0]
    decreases |diffs|
  {
    if diffs != [] {
      DiffsTelescope(sums[..|sums| - 1], diffs[..|diffs| - 1]);
    }
  }

  /** `calcConvSeries`: the net transport at every time id of the range. */
  method CalcConvSeries(bd: BalanceData) returns (r: Result<seq<real>>)
    ensures FilledFrom(r, bd.data.dateData.startId, bd.data.dateData.endId - bd.data.dateData.startId + 1,
                       ConvAt(bd))
  {
    var dateRange := bd.data.dateData;
    r := FillFrom(dateRange.startId, dateRange.endId - dateRange.startId + 1, ConvAt(bd));
  }

  /** `calcBalanceSeries`: mass change minus transport, step by step;
      series of different sizes raise ValueError. */
  function CalcBalanceSeries(diffSums: seq<real>, convs: seq<real>): (r: Result<seq<real>>)
    ensures r.Ok? <==> |diffSums| == |convs|
    ensures r.Err? ==> r.error == ValueError
    ensures r.Ok? ==> |r.value| == |convs| && forall k :: 0 <= k < |convs| ==> r.value[k] == diffSums[k] - convs[k]
  {
    if |diffSums| != |convs| then Err(ValueError)
    else Ok(seq(|convs|, k requires 0 <= k < |convs| => diffSums[k] - convs[k]))
  }

  lemma {:induction false} SumOfDifference(a: seq<real>, b: seq<real>, d: seq<real>)
    requires |a| == |b| == |d| && forall k :: 0 <= k < |d| ==> d[k] == a[k] - b[k]
    ensures Sum(d) == Sum(a) - Sum(b)
    decreases |d|
  {
    if d != [] {
      SumOfDifference(a[..|a| - 1], b[..|b| - 1], d[..|d| - 1]);
    }
  }

  /** Over the whole series the residuals add up to the change of mass from
      the first map to the last, less the total transport. */
  lemma BalanceTotal(sums: seq<real>, convs: seq<real>, diffs: seq<real>)
    requires |sums| > 0 && |diffs| == |sums| - 1
    requires forall i :: 0 <= i < |diffs| ==> diffs[i] == sums[i + 1] - sums[i]
    requires CalcBalanceSeries(diffs, convs).Ok?
    ensures Sum(CalcBalanceSeries(diffs, convs).value) == sums[|sums| - 1] - sums[0] - Sum(convs)
  {
    DiffsTelescope(sums, diffs);
    SumOfDifference(diffs, convs, CalcBalanceSeries(diffs, convs).value);
  }

  /** Every mass from time id `s` to `s + n` and every transport from `s`
      to `s + n - 1` is defined, and `n` is not negative. */
  ghost predicate SeriesDefined(s: int, n: int, mass: int -> Result<real>, conv: int -> Result<real>)
  {
    && n >= 0
    && (forall t :: s <= t <= s + n ==> mass(t).Ok?)
    && (forall t :: s <= t < s + n ==> conv(t).Ok?)
  }

  /** `b` is the balance of the `n` steps from time id `s`: at step `k`, the
      change of mass from time id `s + k` to the next, less the transport at
      `s + k`. */
  ghost predicate IsBalanceSeries(s: int, n: int, mass: int -> Result<real>, conv: int -> Result<real>, b: seq<real>)
    requires SeriesDefined(s, n, mass, conv)
  {
    && |b| == n
    && forall k :: 0 <= k < n ==> b[k] == mass(s + k + 1).value - mass(s + k).value - conv(s + k).value
  }

  /** The three series of a range combine into its balance. */
  lemma BalanceOfSeries(s: int, n: int, mass: int -> Result<real>, conv: int -> Result<real>,
                        sums: seq<real>, diffs: seq<real>, convs: seq<real>, balance: seq<real>)
    requires FilledFrom(Ok(sums), s, n + 1, mass) && FilledFrom(Ok(convs), s, n, conv)
    requires |diffs| == |sums| - 1 && forall i :: 0 <= i < |diffs| ==> diffs[i] == sums[i + 1] - sums[i]
    requires |balance| == |convs| && forall k :: 0 <= k < |convs| ==> balance[k] == diffs[k] - convs[k]
    ensures SeriesDefined(s, n, mass, conv) && IsBalanceSeries(s, n, mass, conv, balance)
  {
    forall k | 0 <= k < n
      ensures balance[k] == mass(s + k + 1).value - mass(s + k).value - conv(s + k).value
    {
      assert sums[k] == mass(s + k).value && sums[k + 1] == mass(s + k + 1).value;
      assert convs[k] == conv(s + k).value;
    }
  }

  /** A failing sum or transport series means the balance is not defined. */
  lemma UndefinedSeries(s: int, n: int, mass: int -> Result<real>, conv: int -> Result<real>,
                        rs: Result<seq<real>>, rc: Result<seq<real>>)
    requires FilledFrom(rs, s, n + 1, mass) && FilledFrom(rc, s, n, conv)
    requires rs.Err? || rc.Err?
    ensures !SeriesDefined(s, n, mass, conv)
  {
  }

  /** The balance of the loader's date range. */
  ghost predicate BalanceDefined(bd: BalanceData)
  {
    SeriesDefined(bd.data.dateData.startId, bd.data.dateData.Timesize(), MassAt(bd), ConvAt(bd))
  }

  /** The ARRAY result of `getBalanceSeries`: the sum series, its
      differences, the transport series and their residual, in that order. */
  method CalcBalanceArray(bd: BalanceData) returns (r: Result<seq<real>>)
    ensures r.Ok? <==> BalanceDefined(bd)
    ensures r.Ok? ==> (
      && BalanceDefined(bd)
      && IsBalanceSeries(bd.data.dateData.startId, bd.data.dateData.Timesize(), MassAt(bd), ConvAt(bd), r.value))
  {
    var sums := CalcSumSeries(bd);
    var convs := CalcConvSeries(bd);
    r := CombineSeries(bd.data.dateData.startId, bd.data.dateData.Timesize(), MassAt(bd), ConvAt(bd), sums, convs);
  }

  /** The rest of the ARRAY result once the sum and transport series of the
      `n` steps from time id `s` are known: an exception of the sums first,
      then one of the differences, then one of the transports. */
  method CombineSeries(ghost s: int, ghost n: int, ghost mass: int -> Result<real>, ghost conv: int -> Result<real>,
                       sums: Result<seq<real>>, convs: Result<seq<real>>) returns (r: Result<seq<real>>)
    requires FilledFrom(sums, s, n + 1, mass) && FilledFrom(convs, s, n, conv)
    ensures r.Ok? <==> SeriesDefined(s, n, mass, conv)
    ensures r.Ok? ==> SeriesDefined(s, n, mass, conv) && IsBalanceSeries(s, n, mass, conv, r.value)
  {
    if sums.Err? || convs.Err? {
      UndefinedSeries(s, n, mass, conv, sums, convs);
    }
    var sumSeries :- sums;
    var diffSums :- CalcSumsDiffSeries(sumSeries);
    var convSeries :- convs;
    r := CalcBalanceSeries(diffSums, convSeries);
    BalanceOfSeries(s, n, mass, conv, sumSeries, diffSums, convSeries, r.value);
  }

  /** `getBalanceSeries`: the residual of every step of the range, as an
      array for ARRAY; DF fails on the date range `BalanceCalculator` never
      sets (AttributeError), and TOTAL and SEP return None. */
  method GetBalanceSeries(bd: BalanceData, mode: Mode) returns (r: Result<Option<seq<real>>>)
    ensures mode != Df ==> (r.Ok? <==> BalanceDefined(bd))
    ensures r.Ok? && mode == Array ==> (
      && r.value.Some? && BalanceDefined(bd)
      && IsBalanceSeries(bd.data.dateData.startId, bd.data.dateData.Timesize(), MassAt(bd), ConvAt(bd), r.value.value))
    ensures r.Ok? && mode != Array ==> r.value == None
    ensures mode == Df ==> r.Err?
  {
    var balance :- CalcBalanceArray(bd);
    if mode == Array {
      r := Ok(Some(balance));
    } else if mode == Df {
      r := Err(AttributeError);
    } else {
      r := Ok(None);
    }
  }

  /** With the loader's default date range, the extra map the sum series
      reads lies past the end of the time axis. */
  lemma DefaultRangeReadsPastEnd(db: Store, seconds: int, regData: RegionData)
    requires NewDataLoader(db, seconds).Ok?
    ensures var bd := BalanceData(regData, NewDataLoader(db, seconds).value);
      MassAt(bd)(bd.data.dateData.endId + 1) == Err(IndexError)
  {
  }

  /** `calcRegionBalance`: the region's data on the loader's grid, then the
      ARRAY balance series. */
  method CalcRegionBalance(region: Region, data: DataLoader, grid: Grid, cosDeg: real -> real)
    returns (r: Result<RegionBalance>)
    ensures r.Ok? <==> (&& RegionDataOf(region, Some(grid), cosDeg).Ok?
                        && BalanceDefined(BalanceData(RegionDataOf(region, Some(grid), cosDeg).value, data)))
    ensures r.Ok? ==> (
      && RegionDataOf(region, Some(grid), cosDeg).Ok?
      && var bd := BalanceData(RegionDataOf(region, Some(grid), cosDeg).value, data);
      && BalanceDefined(bd) && r.value.region == region
      && IsBalanceSeries(data.dateData.startId, data.dateData.Timesize(), MassAt(bd), ConvAt(bd), r.value.balance))
  {
    var regdata :- GetRegionData(region, Some(grid), cosDeg);
    var balance :- GetBalanceSeries(BalanceData(regdata, data), Array);
    r := Ok(RegionBalance(region, balance.value));
  }
}
