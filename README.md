# ErmakovBalance core in Dafny

ErmakovBalance works out the moisture balance of a rectangular
latitude/longitude region from gridded reanalysis data. A region in degrees
is snapped to a 0.25-degree grid of 720 latitudes by 1440 longitudes. Each
boundary cell gets its length in metres and each interior cell its area.
At every time step the code then computes:

- the region's mass: cell areas times the map of the target quantity, summed;
- the transport through the four edges: concentration times wind times edge
  length, split into what comes in ("income") and what goes out ("outcome").

The balance series is the step-to-step change of mass less the transport.

The model, module by module:

- `PyArrays` (pyarrays.dfy) covers the Python and numpy behaviour the core
  depends on:
  - the exceptions it raises (`Result` with `TypeError`, `ValueError`,
    `IndexError`, `AttributeError`);
  - subscripts with negative indices, and clamped slices;
  - broadcasting products of one- and two-dimensional arrays;
  - `.sum()`;
  - the "fill a zeroed buffer in a loop" pattern (`FillFrom`, an imperative
    method over an array).
- `Constants` (constants.dfy) holds the grid and length constants.
- `Containers` (containers.dfy) holds the records of src/containers.py. A
  `Region` is kept as its two coordinate pairs.
- `Tools` (tools.dfy) covers `verifyMap`, `calcGrid`, `closestId`,
  `closest`, `calcLatCoef` and `caclParralelLength`.
- `DataLoading` (data_loading.dfy) covers the loader:
  - the netCDF cube is an element function `at(x, y, t)` with its shape;
  - the per-step maps, the four boundary edges cut out of the cube, the
    default index ranges, and the parsing of the stored timestamps.
- src/data_processing.py is modelled in four modules of
  data_processing.dfy:
  - `RegionProcessor`: grid indices, snapped bounds, edge lengths, and the
    areas matrix, whose row loop `calcAreasMatrix` is kept as a method over
    a two-dimensional array;
  - `SumCalculator`: the mass integral;
  - `ConvCalculator`: the income/outcome classifier;
  - `BalanceCalculator`: the three series loops and their combination.
- `LegacyProcessing` (data_processing_legacy.dfy) covers the older
  data_processing.py at the root:
  - its `RegionProcessor` and `calcSum` are the same code as the newer
    ones, so they are modelled once;
  - this module keeps only what differs: a flux calculator holding its step
    length and taking its mode as a string, and a balance calculator that
    reads one flux more and drops it;
  - its `getBalanceSeries` runs the same three steps as its member methods,
    through the shared method `BalanceOfSteps`;
  - lemmas tie its results to the newer revision.
- `Yule` (yule.dfy) covers the stand-alone script yule.py:
  - its nearest-value lookups, the area-matrix loop, and the four
    classification loops;
  - the script's grid lists follow the same formulas as `calcGrid`;
  - lemmas say where the script agrees with the package (cell lengths, the
    areas matrix, the TOTAL transport over three hours) and where it does
    not (the longitude index at the wrap).

Floating point is modelled by `real`. The cosine of an angle in degrees is
an uninterpreted parameter `cosDeg`. Properties that need its shape (even,
non-increasing from 0 to 90 degrees) assume it explicitly.

Where the code and its documentation disagree, the model follows the code:

- `getDefaultRegionRange` claims the whole area but swaps the axes
  (see Findings); a new loader stores that range as written, and
  `NewLoaderBorderFails` shows its border cannot be read on the standard
  cube;
- the DF mode of `getBalanceSeries` reads `self.date_range`, which
  `BalanceCalculator` never sets, so it raises AttributeError;
- TOTAL and SEP passed to `getBalanceSeries` fall through both branches
  and return None;
- `calcSumSeries` reads one map past `end_id`, so with the loader's
  default date range, which ends at the last stored step, that read raises
  IndexError, and so does every balance series over that whole range
  (`DefaultRangeReadsPastEnd`).

The newer processors read the loader's date range as `data_loader.date_range`.
The loader in data_loading.py stores this as `date_data` on the object it
builds. The model's `DataLoader.dateData` is that record.

## Model

| member | source | states |
|---|---|---|
| PyArrays.Mul | src/data_processing.py:187-190 | a product of two edges exists exactly when numpy can broadcast their lengths (otherwise ValueError); it has the broadcast length, and equal lengths multiply element by element |
| PyArrays.Mul2 | src/data_processing.py:174 | the product of two 2-D arrays exists exactly when both axes broadcast, and has the broadcast shape |
| PyArrays.Mul2Entry | src/data_processing.py:174 | for arrays of one shape the product is entry by entry |
| PyArrays.AxisIndex | data_loading.py:66 | an integer subscript on an axis of length n succeeds exactly for -n <= i < n (otherwise IndexError) and selects i, or i + n when negative |
| PyArrays.SliceLength | src/data_processing.py:169-172 | a slice never selects more than the axis holds; within bounds it selects j - i elements |
| PyArrays.Slice | src/data_processing.py:169-172 | `s[i:j]` clamps its bounds and is never an error; in bounds it is the ordinary subsequence |
| PyArrays.Slice2 | src/data_processing.py:169-172 | a 2-D slice has the clamped length on each axis |
| PyArrays.Slice2Entry | src/data_processing.py:169-172 | entry (i, j) of a 2-D slice is the entry of the original offset by the normalised start bounds |
| PyArrays.Scale | src/data_processing.py:187-190 | an edge times a scalar keeps its length and scales every value |
| PyArrays.SumScale | src/data_processing.py:241-242 | scaling every value scales the sum |
| PyArrays.SumConcat | src/data_processing.py:204-209 | the sum of a concatenation is the sum of the sums |
| PyArrays.FillFrom | src/data_processing.py:341-345 | the loop over a zeroed buffer gives the n step values from `start` in order, or the exception of the first step that fails (a negative size raises ValueError) |
| Containers.Region.New | src/containers.py:14-17 | the constructor stores the four bounds as given |
| Containers.Region.Height | src/containers.py:48-50 | the height is non-negative and is the latitude extent whichever way round the bounds are |
| Containers.Region.Width | src/containers.py:52-54 | the width is non-negative and is the longitude extent whichever way round the bounds are |
| Containers.Region.Center | src/containers.py:64-66 | the centre is equidistant from both bounds of each axis and lies between them |
| Containers.Region.FromNumpy | src/containers.py:68-73 | unpacking succeeds exactly for two values per array (otherwise ValueError) and keeps them as (down, up) and (left, right) |
| Containers.FromNumpyToNumpy | src/containers.py:68-76 | `fromNumpy(*toNumpy())` gives back the same region |
| Containers.Region.AddCoords | src/containers.py:78-81 | shifting moves every bound by the offsets and keeps height and width; the centre moves by the offsets |
| Containers.Region.RegionAroundCenter | src/containers.py:83-93 | the new region has the given centre and the given extents, with the bounds in order for non-negative extents |
| Containers.Region.CentralizeRegion | src/containers.py:95-100 | the new region keeps this region's centre and has the requested extents |
| Containers.DateRange.Timesize | src/containers.py:222-225 | the time size counts the ids from start to end, both included |
| Tools.VerifyMap | tools.py:7-17 | TypeError exactly for a non-array or an array that is not 2-D; ValueError exactly for a 2-D array of another shape; success exactly for shape (720, 1440) |
| Tools.VerifyMapOfArray | tools.py:13-17 | a 2-D map passes exactly when it is 720 x 1440; otherwise ValueError |
| Tools.CalcGrid | tools.py:24-39 | 720 latitudes and 1440 longitudes; longitudes from 20.125 in quarter degrees, wrapping to negative values from column 640; latitudes from 89.875 down (the top-origin list, chosen because OPT_IMAGE_TOP0 is set) |
| Tools.LonSteps | tools.py:26-28 | neighbouring longitudes are one cell apart, except at column 640 where the list wraps by -359.75 |
| Tools.LonsDistinct | tools.py:26-28 | no longitude occurs twice |
| Tools.LonsRange | tools.py:26-28 | every longitude is strictly between -180 and 180 |
| Tools.LatsTop0Decreasing | tools.py:31 | the top-origin latitudes fall strictly from 89.875 to -89.875 in quarter-degree steps |
| Tools.LatsBtm0Reversed | tools.py:30-31 | the bottom-origin list is the top-origin list reversed |
| Tools.ArgMinDistance | tools.py:47 | `argmin` of the distances gives the first index at minimal distance |
| Tools.ClosestId | tools.py:42-47 | the first index of a nearest value; an empty array raises ValueError |
| Tools.Closest | tools.py:50-54 | a value of the array at least as close to the coordinate as every other |
| Tools.ClosestIsValueAtClosestId | tools.py:42-54 | `closest` is the value at `closestId` |
| Tools.ClosestIdOfGridValue | tools.py:42-54 | on a grid of distinct values, a grid value snaps to its own index and to itself |
| Tools.LatCoefEven | tools.py:57-64 | the latitude factor depends only on the latitude's magnitude |
| Tools.ParallelLengthPoleward | tools.py:67-74 | parallels get shorter towards the poles, and a latitude and its mirror image have the same length |
| DataLoading.GetTargetMap | data_loading.py:65-67 | the target's map at step t exists exactly when t indexes the time axis (otherwise IndexError), has shape (latitudes, longitudes), and its entry (y, x) is the cube's (x, y, t) |
| DataLoading.GetUMap | data_loading.py:69-70 | the same for the U wind: defined exactly on the time axis, transposed, entry (y, x) is U at (x, y, t) |
| DataLoading.GetVMap | data_loading.py:72-73 | the same for the V wind: defined exactly on the time axis, transposed, entry (y, x) is V at (x, y, t) |
| DataLoading.MapAt | data_loading.py:65-73 | the map at step t exists exactly when t indexes the time axis (otherwise IndexError), has shape (latitudes, longitudes), and its entry (y, x) is the cube's (x, y, t) |
| DataLoading.Meridian | data_loading.py:153-157 | a side edge needs valid longitude and time subscripts (otherwise IndexError), has the clamped latitude slice's length, and holds the cube values along it |
| DataLoading.Parallel | data_loading.py:163-167 | a top or bottom edge needs valid latitude and time subscripts (otherwise IndexError), has the clamped longitude slice's length, and holds the cube values along it |
| DataLoading.GetBorderConc | data_loading.py:151-181 | the four concentration edges exist exactly when their subscripts are in range; the side edges are as long as the latitude slice and the top and bottom edges as long as the longitude slice |
| DataLoading.GetBorderFlow | data_loading.py:183-214 | the same for the wind edges: U on the sides, V on the top and bottom |
| DataLoading.GetConvData | data_loading.py:216-224 | the day's data exists exactly when both edge sets do, and holds them |
| DataLoading.FlowEdgesMatchConcEdges | data_loading.py:151-214 | on a store whose three variables share a shape, the wind edges are read exactly when the concentration edges are, and have the same lengths |
| DataLoading.BorderConcInsideGrid | data_loading.py:151-181 | for an index box inside the grid, the edges are read and span exactly the box |
| DataLoading.RightEdgeIsMapColumn | data_loading.py:65-67 | the right edge is the region's part of the right column of the transposed map |
| DataLoading.Timedim | data_loading.py:33-36 | the loader's time dimension counts the ids of its date range |
| DataLoading.DefaultRegionRangeAsWritten | data_loading.py:127-135 | the default region as written: left and up 0; right and down are the first and second extents of the shape, with the axes swapped and one past the end |
| DataLoading.DefaultRegionRangeAsWrittenFails | data_loading.py:127-135 | on the standard 1440 x 720 cube, reading the border of that region raises IndexError, and its right edge is column 720 |
| DataLoading.DefaultRegionRange | data_loading.py:127-135 | the whole area its documentation promises: longitude indices 0 to n0 - 1, latitude indices 0 to n1 - 1 |
| DataLoading.DefaultRegionRangeCoversArea | data_loading.py:127-135 | at every stored step the corrected range is read, with side edges over every latitude and top and bottom edges over every longitude |
| DataLoading.StimeAt | data_loading.py:113-116 | a timestamp subscript follows the integer subscript rule and raises IndexError out of range |
| DataLoading.GetDefaultDateRange | data_loading.py:108-125 | ids 0 to n2 - 1, whose parsed timestamps are the start and end; an empty timestamp list raises IndexError, and success needs at least two timestamps |
| DataLoading.NewDataLoader | data_loading.py:12-26 | the loader exists exactly when the default date range does, and carries the store, that date range and the region range as `getDefaultRegionRange` writes it (right = n1, down = n0) |
| DataLoading.NewLoaderBorderFails | data_loading.py:25 | on a 1440 x 720 cube, reading the border of the region a new loader holds raises IndexError at every time step |
| DataLoading.DefaultTimedim | data_loading.py:17-18 | a loader built with the defaults spans every stored step |
| DataLoading.ParseInt | data_loading.py:140-142 | `int` of text succeeds exactly for an optionally signed run of digits (otherwise ValueError) and gives its value |
| DataLoading.ParseAll | data_loading.py:140 | `list(map(int, parts))` succeeds exactly when every part parses, and gives each part's value |
| DataLoading.Split | data_loading.py:140 | `split` gives at least one piece; the pieces contain no separator and joined with it give back the text |
| DataLoading.SplitCons | data_loading.py:140 | text starting with a separator-free piece and a separator splits into that piece and the split of the rest |
| DataLoading.BytesStr | data_loading.py:139 | `str` of a bytes value wraps the content in `b'...'` |
| DataLoading.MakeDateTime | data_loading.py:143 | `datetime` succeeds exactly on a calendar date and hour (otherwise ValueError) |
| DataLoading.StimeToDate | data_loading.py:137-145 | a parsed timestamp is a valid date whose fields come from the dash-separated pieces of characters 2 to 11 and from characters 13 to 14; failures raise ValueError |
| DataLoading.DigitsValueOfDigits | data_loading.py:140-142 | a number written with enough zero-padded digits reads back as itself |
| DataLoading.StimeRoundTrip | data_loading.py:137-145 | parsing the stored text `YYYY-MM-DD HH:00:00` gives back every valid timestamp from year 1000 on |
| DataLoading.StimeWithoutDateFails | data_loading.py:140-141 | text with no dashes cannot be unpacked into year, month and day |
| RegionProcessor.GetId | src/data_processing.py:67-78 | the indices of the nearest grid values, the longitude indices shifted by one; an empty grid axis raises ValueError |
| RegionProcessor.GetGridRegion | src/data_processing.py:80-91 | every bound moved to its nearest grid value; an empty grid axis raises ValueError |
| RegionProcessor.GridRegionMatchesId | src/data_processing.py:67-91 | the snapped bounds are the grid values at the index box, the longitudes one index west of `getId`'s |
| RegionProcessor.GetCell | src/data_processing.py:93-102 | side edges one cell long; the top and bottom edges shortened by their latitude's factor |
| RegionProcessor.CellMirror | src/data_processing.py:93-102 | mirroring a region across the equator swaps its top and bottom lengths; in the northern hemisphere the top edge is the shorter |
| RegionProcessor.AreasMatrix | src/data_processing.py:117-136 | the matrix has a row per cell step of the height (plus one) and a column per cell step of the width (plus one); in every cell, row i holds the area of the latitude i cells below the top; a negative dimension raises ValueError |
| RegionProcessor.CalcAreasMatrix | src/data_processing.py:117-136 | the row-by-row loop over the zeroed two-dimensional buffer gives exactly that matrix |
| RegionProcessor.AreasRowsGrowTowardsEquator | src/data_processing.py:117-136 | every row of the matrix holds one value, and in the northern hemisphere lower rows are at least as large |
| RegionProcessor.AreasShapeOnStandardGrid | src/data_processing.py:117-125 | on the standard grid, a box within one longitude segment gets one row per latitude index and one column per longitude index |
| RegionProcessor.RegionDataOf | src/data_processing.py:22-40 | the record holds the region, its indices, snapped bounds, edge lengths and areas; a missing grid means `calcGrid()` |
| RegionProcessor.GetRegionData | src/data_processing.py:104-115 | `RegionProcessor(region, grid).getRegionData()` is that record |
| SumCalculator.RegionWindow | src/data_processing.py:169-172 | the window has the clamped number of rows and columns of the index box |
| SumCalculator.CalcSum | src/data_processing.py:149-175 | the mass exists exactly when the map is 720 x 1440 and the areas broadcast against the window; otherwise ValueError; shapes that match only need the map check |
| SumCalculator.CalcSumIsWeightedWindow | src/data_processing.py:169-175 | the mass is the sum over the window of area (i, j) times map value (up + i, left + j) |
| SumCalculator.CalcSumOfUniformMap | src/data_processing.py:149-175 | a map holding one value everywhere gives that value times the region's total area |
| SumCalculator.CalcSumNonNegative | src/data_processing.py:149-175 | non-negative areas and values give a non-negative mass |
| SumCalculator.CalcSumDefinedOnStandardGrid | src/data_processing.py:149-175 | for a region in one longitude segment of the default grid, whose right edge lies before the last column, the record exists and the mass of every standard map is defined |
| ConvCalculator.GetConvValue | src/data_processing.py:183-199 | the four flux edges exist exactly when concentration and wind broadcast on each edge (otherwise ValueError), with the broadcast lengths |
| ConvCalculator.ConvValueEntries | src/data_processing.py:187-190 | each flux value is concentration times wind times the edge's cell length |
| ConvCalculator.Test.Complement | src/data_processing.py:204-219 | each sign condition of `calcOutcome` holds exactly where the matching one of `calcIncome` does not |
| ConvCalculator.Select | src/data_processing.py:205-208 | `a[np.argwhere(test(a))]` keeps only values passing the test, never more than the edge holds |
| ConvCalculator.SelectPartition | src/data_processing.py:201-221 | a test and its complement split an edge: counts, sums and multisets add up to the edge's |
| ConvCalculator.CalcIncome | src/data_processing.py:201-210 | the income is never negative; `IncomeOutcomeCells` shows it is the sum of the magnitudes of the inflowing values |
| ConvCalculator.CalcOutcome | src/data_processing.py:212-221 | the outcome is never negative; `IncomeOutcomeCells` shows it is the sum of the magnitudes of the other values, zeros included |
| ConvCalculator.IncomeOutcomeBalance | src/data_processing.py:201-221 | income and outcome are never negative, and income less outcome is the net inflow (left + bottom - right - top) |
| ConvCalculator.IncomeOutcomeCells | src/data_processing.py:201-221 | every flux value counts as income or outcome and never both; each is the sum of the magnitudes of its values |
| ConvCalculator.CalcConv | src/data_processing.py:223-251 | SEP gives income and outcome over the step, TOTAL their difference, any other mode ValueError; a flux error propagates |
| ConvCalculator.ConvTotalIsNetInflow | src/data_processing.py:223-251 | TOTAL is the net inflow through the edges times the step length |
| BalanceCalculator.MassAt | src/data_processing.py:344-345 | the mass at a step off the time axis raises IndexError; `CalcSumIsWeightedWindow` states its value |
| BalanceCalculator.ConvAt | src/data_processing.py:376-377 | the transport at a step off the time axis raises IndexError; `ConvTotalIsNetInflow` states its value |
| BalanceCalculator.CalcSumSeries | src/data_processing.py:329-347 | the masses at the `timesize + 1` ids from the start, one more than the range, or the first failure |
| BalanceCalculator.CalcSumsDiffSeries | src/data_processing.py:349-361 | each mass less the one before it; an empty series raises ValueError (`np.zeros(-1)`) |
| BalanceCalculator.DiffsTelescope | src/data_processing.py:349-361 | the differences add up to the last mass less the first |
| BalanceCalculator.CalcConvSeries | src/data_processing.py:363-379 | the TOTAL transport at every id of the range, or the first failure |
| BalanceCalculator.CalcBalanceSeries | src/data_processing.py:381-399 | series of different sizes raise ValueError; otherwise step k is the change of mass less the transport |
| BalanceCalculator.BalanceTotal | src/data_processing.py:381-399 | the whole series adds up to the last mass less the first, less the total transport |
| BalanceCalculator.BalanceOfSeries | src/data_processing.py:429-436 | the three series of a range combine into its balance: step k's mass change less step k's transport |
| BalanceCalculator.CalcBalanceArray | src/data_processing.py:429-436 | the balance array exists exactly when every mass and transport it reads is defined, and is the balance of every step of the range |
| BalanceCalculator.GetBalanceSeries | src/data_processing.py:417-442 | ARRAY gives the balance series; DF raises AttributeError; TOTAL and SEP give None; only reading the data can fail otherwise |
| BalanceCalculator.DefaultRangeReadsPastEnd | src/data_processing.py:340-344 | with the loader's default range, the extra map the sum series reads lies past the time axis and raises IndexError |
| BalanceCalculator.CalcRegionBalance | src/data_processing.py:444-454 | the region's record on the loader's grid, then its ARRAY balance, paired with the region; defined exactly when both are |
| LegacyProcessing.LegacyIdOffset | data_processing.py:67-78 | this revision's `getId` shifts the longitude indices by one and the latitude indices by nothing |
| LegacyProcessing.ConvCalc.New | data_processing.py:187-191 | the calculator keeps the region data and the step length, three hours by default |
| LegacyProcessing.ConvCalc.CalcConv | data_processing.py:234-257 | "diff" gives income and outcome over the stored step, "total" their difference, any other string ValueError |
| LegacyProcessing.DefaultConvIsNetInflow | data_processing.py:187-257 | with the default step and mode, the flux is the net inflow over 10800 seconds |
| LegacyProcessing.DeleteLast | data_processing.py:346 | `np.delete(a, -1)` drops the last entry; an empty array raises IndexError |
| LegacyProcessing.DiffsOfSums | data_processing.py:296-307 | differencing the masses of `start .. start + n` gives the n changes, or fails as the masses do |
| LegacyProcessing.TrimmedBalance | data_processing.py:343-349 | with the last of the n + 1 fluxes dropped, the balance exists exactly when every mass and flux read is defined, and is the balance of the n steps |
| LegacyProcessing.BalanceOfSteps | data_processing.py:340-349 | the masses and fluxes of `start .. start + n` read, differenced, trimmed and combined give the trimmed balance |
| LegacyProcessing.LegacyBalance.CalcSumSeries | data_processing.py:286-294 | the masses at every day from `start_day` to `end_day`, or the first failure |
| LegacyProcessing.LegacyBalance.CalcSumsDiffSeries | data_processing.py:296-307 | the `end_day - start_day` mass changes, or the failure of the masses |
| LegacyProcessing.LegacyBalance.CalcConvSeries | data_processing.py:309-318 | the default-mode flux at every day from `start_day` to `end_day`, or the first failure |
| LegacyProcessing.LegacyBalance.GetBalanceSeries | data_processing.py:340-349 | the balance exists exactly when every mass and flux it reads (including the dropped last flux) is defined, and is the balance of the `end_day - start_day` steps |
| LegacyProcessing.ConvIsDefaultTotal | data_processing.py:309-318 | the flux this revision reads per day is `ConvCalculator(regdata).calcConv(convdata, "total")` |
| LegacyProcessing.LegacyConvMatchesSrc | data_processing.py:234-257 | with a three-hour loader step, this revision's flux equals the newer revision's at every step |
| LegacyProcessing.LegacyBalanceMatchesSrc | data_processing.py:340-349 | this revision's series over `start_day .. end_day` is the newer revision's series for the range ending one day earlier |
| LegacyProcessing.SameSteps | data_processing.py:340-349 | a balance series stays one when the masses and fluxes are replaced by equal ones |
| Yule.MinByDistance | yule.py:22 | `min(collection, key=distance)` of an empty collection raises ValueError |
| Yule.MinByDistanceIsClosest | yule.py:22 | the script's `closest` is the package's `closest` |
| Yule.MinValueIsFirstClosest | yule.py:22 | `min` keeps the first of the nearest values, the one at `closestId` |
| Yule.IndexOf | yule.py:29-32 | `list.index` gives the first position of the value and raises ValueError when it is absent |
| Yule.IndexOfDistinct | yule.py:29-32 | in a list without repeats, a value's index is its position |
| Yule.PackIds | yule.py:29-32 | the index box exists exactly when all four lookups succeed |
| Yule.YuleId | yule.py:24-32 | snapping to an empty list raises ValueError before any lookup |
| Yule.NextLonIndex | yule.py:26-32 | one cell east of column k is the next column, column 0 after the last, and at 179.875 (column 639) no grid value, so ValueError |
| Yule.LatIndex | yule.py:29-30 | the index of a grid latitude is its row |
| Yule.YuleIdFromIndices | yule.py:24-32 | on a grid without repeated latitudes, the latitude indices are the nearest ones, and the longitude indices are those of the values one cell east of the nearest ones |
| Yule.YuleIdOnStandardGrid | yule.py:12-32 | on the standard grid the script's box is `getId`'s latitudes with the next longitude columns, and it fails exactly when a bound snaps to column 639 |
| Yule.YuleIdIsGetId | yule.py:12-32 | away from column 639 and the last column, the script's box is `getId`'s |
| Yule.YuleEdgeLengthsAreCell | yule.py:36-39 | the script's edge lengths are `getCell`'s |
| Yule.YuleAreaMatrix | yule.py:48-54 | the row loop builds one row of equal areas per edge row, the latitude dropping a cell per row |
| Yule.YuleAreasAreAreasMatrix | yule.py:48-54 | the script's matrix is `calcAreasMatrix`'s for the same snapped region and shape |
| Yule.ClassifyEdge | yule.py:87-113 | each nested loop appends every value, scaled by the edge length, to `inner` when it passes the edge's test and to `out` otherwise, in order |
| Yule.YuleConv | yule.py:85-118 | the four loops and the final line give income magnitudes less outcome magnitudes over three hours |
| Yule.YulePartition | yule.py:85-113 | every boundary value goes to exactly one of `inner` and `out` |
| Yule.SelectScale | yule.py:87-113 | testing unscaled values and scaling afterwards classifies like testing the scaled values |
| Yule.Convergence | yule.py:115-117 | with positive edge lengths, the convergence is income less outcome of the scaled values over 10800 seconds |
| Yule.YuleConvIsCalcConv | yule.py:80-117 | for products of the same concentration and wind edges, the script's convergence is the package's TOTAL transport with a three-hour step |

## Left out

- netCDF I/O (`h5netcdf.File`, `close`): the store is a value holding each variable's shape and an element function. Opening files and `target_name` lookup are not modelled.
- Floating point: all arithmetic is on `real`. `float32` storage in `Region`, rounding, and `float()` conversions are not modelled.
- `math.cos` and `math.radians` are not interpreted: the cosine in degrees is the parameter `cosDeg`.
- The step length computed from two timestamps (data_loading.py:116-117) is a parameter `seconds`; `datetime` subtraction is not modelled.
- `DataLoading.ParseInt`: Python's `int` also accepts surrounding whitespace and `_` digit separators; the model accepts only an optionally signed digit run.
- `makeBalanceDF`, the pandas DataFrame, and `DateRange.time_series` are left out (pandas is not modelled). DF mode is modelled only by its AttributeError.
- `__call__` wrappers, the read-only properties, and `__repr__` are left out; the modelled methods are what those wrappers call.
- `BalanceCalculator._verifyParams`: the `isinstance` checks are left out; Dafny's types already guarantee them.
- `data.getGrid()` is not defined by the loader in data_loading.py, so `CalcRegionBalance` takes the grid as a parameter.
- The older revision reads `RegionData.cellareas`, which the root containers.py record lacks. The model uses the src/containers.py record with areas for both revisions.
- yule.py: the script `pwv()` (yule.py:41-61) is the same window-times-areas sum as `calcSum` and is not modelled again.
- yule.py: the per-file extraction of the edge arrays (yule.py:64-83) is left out. `YuleConv` takes the products `q_*` as inputs; `YuleConvIsCalcConv` ties them to the packaged edges.
- yule.py: the timing and `print` lines are left out.
- Commented-out code in data_loading.py is not modelled.
- The `ndim` check of `calcBalanceSeries` is not modelled: the series are one-dimensional by type.

## Findings

| source | as written | input that shows it | evidently intended | confidence | as-written member | corrected member |
|---|---|---|---|---|---|---|
| data_loading.py:127-135 | the "whole area" range takes `right` from the shape's second extent and `down` from its first: the axes are swapped and each bound is one past the last index | a cube of shape (1440, 720, T): `down` = 1440 on a latitude axis of 720, so reading the border raises IndexError, and `right` = 720 stops at the middle longitude | `right` = n0 - 1 and `down` = n1 - 1, so the range covers every longitude and latitude | not executed | DataLoading.DefaultRegionRangeAsWritten, DataLoading.DefaultRegionRangeAsWrittenFails, DataLoading.NewLoaderBorderFails | DataLoading.DefaultRegionRange, DataLoading.DefaultRegionRangeCoversArea |
