/** The data loader: maps and boundary edges cut out of the (longitude,
    latitude, time) data cube, the default index ranges, and the parsing of
    the stored timestamps. */
module DataLoading {
  import opened PyArrays
  import opened Containers

  // ---------------------------------------------------------------- the store

  /** A netCDF variable of shape (n0, n1, n2): longitude, latitude, time.
      `at(x, y, t)` is the stored value at a position inside that shape. */
  datatype Variable = Variable(n0: nat, n1: nat, n2: nat, at: (nat, nat, nat) -> real)

  /** The opened store: the target quantity, the two wind components and
      the `stime` timestamps, each the text inside its bytes value. */
  datatype Store = Store(target: Variable, u: Variable, v: Variable, stime: seq<string>)

  /** A loader: the store plus the region and date range fixed by `__init__`. */
  datatype DataLoader = DataLoader(db: Store, regionId: Id, dateData: DateRange)

  /** `np.transpose(var[..., t])`: the (latitude, longitude) map at time `t`. */
  function MapAt(v: Variable, t: int): (r: Result<Array2>)
    ensures r.Ok? <==> AxisIndex(t, v.n2).Ok?
    ensures r.Err? ==> r.error == IndexError
    ensures r.Ok? ==> r.value.rows == v.n1 && r.value.cols == v.n0
    ensures r.Ok? ==> forall y, x :: 0 <= y < v.n1 && 0 <= x < v.n0 ==>
      r.value.cells[y][x] == v.at(x, y, AxisIndex(t, v.n2).value)
  {
    var ti :- AxisIndex(t, v.n2);
    Ok(Matrix(v.n1, v.n0, seq(v.n1, y requires 0 <= y < v.n1 =>
      seq(v.n0, x requires 0 <= x < v.n0 => v.at(x, y, ti)))))
  }

  /** `getTargetMap`: the transposed map of `target` at step `t`, so rows are
      latitudes and columns longitudes; IndexError off the time axis. */
  function GetTargetMap(loader: DataLoader, t: int): (r: Result<Array2>)
    ensures r.Ok? <==> AxisIndex(t, loader.db.target.n2).Ok?
    ensures r.Err? ==> r.error == IndexError
    ensures r.Ok? ==> r.value.rows == loader.db.target.n1 && r.value.cols == loader.db.target.n0
    ensures r.Ok? ==> forall y, x :: 0 <= y < loader.db.target.n1 && 0 <= x < loader.db.target.n0 ==>
      r.value.cells[y][x] == loader.db.target.at(x, y, AxisIndex(t, loader.db.target.n2).value)
  {
    MapAt(loader.db.target, t)
  }

  /** `getUMap`: the transposed map of `u` at step `t`, so rows are
      latitudes and columns longitudes; IndexError off the time axis. */
  function GetUMap(loader: DataLoader, t: int): (r: Result<Array2>)
    ensures r.Ok? <==> AxisIndex(t, loader.db.u.n2).Ok?
    ensures r.Err? ==> r.error == IndexError
    ensures r.Ok? ==> r.value.rows == loader.db.u.n1 && r.value.cols == loader.db.u.n0
    ensures r.Ok? ==> forall y, x :: 0 <= y < loader.db.u.n1 && 0 <= x < loader.db.u.n0 ==>
      r.value.cells[y][x] == loader.db.u.at(x, y, AxisIndex(t, loader.db.u.n2).value)
  {
    MapAt(loader.db.u, t)
  }

  /** `getVMap`: the transposed map of `v` at step `t`, so rows are
      latitudes and columns longitudes; IndexError off the time axis. */
  function GetVMap(loader: DataLoader, t: int): (r: Result<Array2>)
    ensures r.Ok? <==> AxisIndex(t, loader.db.v.n2).Ok?
    ensures r.Err? ==> r.error == IndexError
    ensures r.Ok? ==> r.value.rows == loader.db.v.n1 && r.value.cols == loader.db.v.n0
    ensures r.Ok? ==> forall y, x :: 0 <= y < loader.db.v.n1 && 0 <= x < loader.db.v.n0 ==>
      r.value.cells[y][x] == loader.db.v.at(x, y, AxisIndex(t, loader.db.v.n2).value)
  {
    MapAt(loader.db.v, t)
  }

  /** `var[x, y0:y1, t]`: part of the meridian at longitude index `x`.
      Integer subscripts out of range raise IndexError; the slice is clamped. */
  function Meridian(v: Variable, x: int, y0: int, y1: int, t: int): (r: Result<seq<real>>)
    ensures r.Ok? <==> AxisIndex(x, v.n0).Ok? && AxisIndex(t, v.n2).Ok?
    ensures r.Err? ==> r.error == IndexError
    ensures r.Ok? ==> |r.value| == SliceLength(y0, y1, v.n1)
    ensures r.Ok? ==> forall k :: 0 <= k < |r.value| ==>
      r.value[k] == v.at(AxisIndex(x, v.n0).value, SliceBound(y0, v.n1) + k, AxisIndex(t, v.n2).value)
  {
    var xi :- AxisIndex(x, v.n0);
    var ti :- AxisIndex(t, v.n2);
    var y := SliceBound(y0, v.n1);
    Ok(seq(SliceLength(y0, y1, v.n1), k requires 0 <= k < SliceLength(y0, y1, v.n1) => v.at(xi, y + k, ti)))
  }

  /** `var[x0:x1, y, t]`: part of the parallel at latitude index `y`. */
  function Parallel(v: Variable, x0: int, x1: int, y: int, t: int): (r: Result<seq<real>>)
    ensures r.Ok? <==> AxisIndex(y, v.n1).Ok? && AxisIndex(t, v.n2).Ok?
    ensures r.Err? ==> r.error == IndexError
    ensures r.Ok? ==> |r.value| == SliceLength(x0, x1, v.n0)
    ensures r.Ok? ==> forall k :: 0 <= k < |r.value| ==>
      r.value[k] == v.at(SliceBound(x0, v.n0) + k, AxisIndex(y, v.n1).value, AxisIndex(t, v.n2).value)
  {
    var yi :- AxisIndex(y, v.n1);
    var ti :- AxisIndex(t, v.n2);
    var x := SliceBound(x0, v.n0);
    Ok(seq(SliceLength(x0, x1, v.n0), k requires 0 <= k < SliceLength(x0, x1, v.n0) => v.at(x + k, yi, ti)))
  }

  /** The four inclusive edges of region `id` in one variable (`right`/`left`
      from `a`, `down`/`up` from `b`), as `getBorderConc` and `getBorderFlow` cut them. */
  function Edges(a: Variable, b: Variable, t: int, id: Id): Result<BorderValues>
  {
    var right :- Meridian(a, id.right, id.up, id.down + 1, t);
    var left :- Meridian(a, id.left, id.up, id.down + 1, t);
    var down :- Parallel(b, id.left, id.right + 1, id.down, t);
    var up :- Parallel(b, id.left, id.right + 1, id.up, t);
    Ok(BorderValues(right, left, down, up))
  }

  /** The subscripts `Edges` uses are all in range. */
  predicate EdgesInRange(a: Variable, b: Variable, t: int, id: Id)
  {
    && AxisIndex(t, a.n2).Ok? && AxisIndex(id.right, a.n0).Ok? && AxisIndex(id.left, a.n0).Ok?
    && AxisIndex(t, b.n2).Ok? && AxisIndex(id.down, b.n1).Ok? && AxisIndex(id.up, b.n1).Ok?
  }

  /** `getBorderConc`: the target's values along the region's four edges;
      the side edges run over rows `up..down` and the top and bottom edges
      over columns `left..right`, both ends included. */
  function GetBorderConc(loader: DataLoader, t: int, id: Id): (r: Result<ConvConc>)
    ensures r.Ok? <==> EdgesInRange(loader.db.target, loader.db.target, t, id)
    ensures r.Err? ==> r.error == IndexError
    ensures r.Ok? ==> var v := loader.db.target;
      && |r.value.right| == |r.value.left| == SliceLength(id.up, id.down + 1, v.n1)
      && |r.value.down| == |r.value.up| == SliceLength(id.left, id.right + 1, v.n0)
  {
    Edges(loader.db.target, loader.db.target, t, id)
  }

  /** `getBorderFlow`: U along the side edges and V along the top and bottom. */
  function GetBorderFlow(loader: DataLoader, t: int, id: Id): (r: Result<ConvFlow>)
    ensures r.Ok? <==> EdgesInRange(loader.db.u, loader.db.v, t, id)
    ensures r.Err? ==> r.error == IndexError
    ensures r.Ok? ==>
      && |r.value.right| == |r.value.left| == SliceLength(id.up, id.down + 1, loader.db.u.n1)
      && |r.value.down| == |r.value.up| == SliceLength(id.left, id.right + 1, loader.db.v.n0)
  {
    Edges(loader.db.u, loader.db.v, t, id)
  }

  /** `getConvData`: both bundles of one time step; the concentrations are
      read first, so their exception is the one raised. */
  function GetConvData(loader: DataLoader, t: int, id: Id): (r: Result<ConvDayData>)
    ensures r.Ok? <==> GetBorderConc(loader, t, id).Ok? && GetBorderFlow(loader, t, id).Ok?
    ensures GetBorderConc(loader, t, id).Err? ==> r == Err(GetBorderConc(loader, t, id).error)
    ensures r.Ok? ==> r.value.conc == GetBorderConc(loader, t, id).value
                      && r.value.flow == GetBorderFlow(loader, t, id).value
  {
    var conc :- GetBorderConc(loader, t, id);
    var flow :- GetBorderFlow(loader, t, id);
    Ok(ConvDayData(conc, flow))
  }

  /** Three variables on one grid. */
  predicate SameGrid(db: Store)
  {
    && db.u.n0 == db.target.n0 && db.u.n1 == db.target.n1 && db.u.n2 == db.target.n2
    && db.v.n0 == db.target.n0 && db.v.n1 == db.target.n1 && db.v.n2 == db.target.n2
  }

  /** On one grid, the flow edges exist exactly when the concentration edges
      do, and each has the length of its concentration edge. */
  lemma FlowEdgesMatchConcEdges(loader: DataLoader, t: int, id: Id)
    requires SameGrid(loader.db)
    ensures GetBorderFlow(loader, t, id).Ok? <==> GetBorderConc(loader, t, id).Ok?
    ensures GetConvData(loader, t, id).Ok? <==> GetBorderConc(loader, t, id).Ok?
    ensures GetConvData(loader, t, id).Ok? ==>
      var d := GetConvData(loader, t, id).value;
      && |d.conc.right| == |d.flow.right| && |d.conc.left| == |d.flow.left|
      && |d.conc.down| == |d.flow.down| && |d.conc.up| == |d.flow.up|
  {
  }

  /** For a region inside the grid the edges have `down - up + 1` and
      `right - left + 1` entries, the side edges being the columns of the
      region's bounding rows and the top and bottom edges its bounding rows. */
  lemma BorderConcInsideGrid(loader: DataLoader, t: nat, id: Id)
    requires t < loader.db.target.n2
    requires 0 <= id.up <= id.down < loader.db.target.n1
    requires 0 <= id.left <= id.right < loader.db.target.n0
    ensures GetBorderConc(loader, t, id).Ok?
    ensures var c := GetBorderConc(loader, t, id).value; var v := loader.db.target;
      && |c.right| == |c.left| == id.down - id.up + 1
      && |c.down| == |c.up| == id.right - id.left + 1
      && (forall k :: 0 <= k < |c.right| ==> c.right[k] == v.at(id.right, id.up + k, t) && c.left[k] == v.at(id.left, id.up + k, t))
      && (forall k :: 0 <= k < |c.down| ==> c.down[k] == v.at(id.left + k, id.down, t) && c.up[k] == v.at(id.left + k, id.up, t))
  {
  }

  /** The right-edge concentration is column `id.right` of `getTargetMap`,
      over rows `id.up .. id.down`. */
  lemma RightEdgeIsMapColumn(loader: DataLoader, t: int, id: Id)
    requires GetBorderConc(loader, t, id).Ok?
    ensures GetTargetMap(loader, t).Ok?
    ensures var c := GetBorderConc(loader, t, id).value; var m := GetTargetMap(loader, t).value;
      var v := loader.db.target;
      forall k :: 0 <= k < |c.right| ==>
        c.right[k] == m.cells[SliceBound(id.up, v.n1) + k][AxisIndex(id.right, v.n0).value]
  {
  }

  // ---------------------------------------------------------------- timedim

  /** `timedim`: the number of time steps in the loader's date range. */
  function Timedim(loader: DataLoader): (n: int)
    ensures loader.dateData.startId + n == loader.dateData.endId + 1
  {
    loader.dateData.endId - loader.dateData.startId + 1
  }

  // ---------------------------------------------------------------- default ranges

  /** `getDefaultRegionRange` as written: for a cube of shape (n0, n1, n2)
      it takes `right` from n1 and `down` from n0, one past the last index
      and with the two spatial axes swapped. */
  function DefaultRegionRangeAsWritten(target: Variable): (id: Id)
    ensures id.left == 0 && id.up == 0 && id.right == target.n1 && id.down == target.n0
  {
    Id(down := target.n0, up := 0, left := 0, right := target.n1)
  }

  /** The whole area its documentation promises: longitude indices
      0 .. n0-1 and latitude indices 0 .. n1-1. */
  function DefaultRegionRange(target: Variable): (id: Id)
    ensures id.left == 0 && id.right == target.n0 - 1
    ensures id.up == 0 && id.down == target.n1 - 1
  {
    Id(down := target.n1 - 1, up := 0, left := 0, right := target.n0 - 1)
  }

  /** On the standard cube, the region range as written has a bottom edge at
      latitude index 1440 of 720, so reading its border raises IndexError;
      its right edge sits at column 720, the middle of the longitudes. */
  lemma DefaultRegionRangeAsWrittenFails(loader: DataLoader, t: int)
    requires loader.db.target.n0 == 1440 && loader.db.target.n1 == 720
    ensures GetBorderConc(loader, t, DefaultRegionRangeAsWritten(loader.db.target)) == Err(IndexError)
    ensures DefaultRegionRangeAsWritten(loader.db.target).right == 720
  {
  }

  /** The corrected range reads, at any stored time step, side edges that
      run over every latitude and a top and bottom edge over every longitude. */
  lemma DefaultRegionRangeCoversArea(loader: DataLoader, t: nat)
    requires t < loader.db.target.n2 && loader.db.target.n0 > 0 && loader.db.target.n1 > 0
    ensures var c := GetBorderConc(loader, t, DefaultRegionRange(loader.db.target));
      && c.Ok?
      && |c.value.right| == |c.value.left| == loader.db.target.n1
      && |c.value.down| == |c.value.up| == loader.db.target.n0
  {
    BorderConcInsideGrid(loader, t, DefaultRegionRange(loader.db.target));
  }

  /** `_db["stime"][i]`: a subscript of the one-dimensional timestamp variable. */
  function StimeAt(db: Store, i: int): (r: Result<string>)
    ensures r.Ok? <==> AxisIndex(i, |db.stime|).Ok?
    ensures r.Err? ==> r.error == IndexError
    ensures r.Ok? ==> r.value == db.stime[AxisIndex(i, |db.stime|).value]
  {
    var k :- AxisIndex(i, |db.stime|);
    Ok(db.stime[k])
  }

  /** `getDefaultDateRange`: the whole time axis, ids 0 .. n2-1 with their
      parsed timestamps. The timestamp at index 1 is parsed too (and may
      fail), but the step length arrives as `seconds`. */
  function GetDefaultDateRange(db: Store, seconds: int): (r: Result<DateRange>)
    ensures r.Ok? ==> r.value.startId == 0 && r.value.endId == db.target.n2 - 1 && r.value.seconds == seconds
    ensures r.Ok? ==> r.value.Timesize() == db.target.n2
    ensures r.Ok? ==> (StimeAt(db, 0).Ok? && StimeToDate(StimeAt(db, 0).value) == Ok(r.value.start))
    ensures r.Ok? ==> (StimeAt(db, db.target.n2 - 1).Ok?
                       && StimeToDate(StimeAt(db, db.target.n2 - 1).value) == Ok(r.value.end))
    ensures |db.stime| == 0 ==> r == Err(IndexError)
    ensures r.Ok? ==> |db.stime| >= 2
  {
    var startId, endId := 0, db.target.n2 - 1;
    var startRaw :- StimeAt(db, startId);
    var startDay :- StimeToDate(startRaw);
    var endRaw :- StimeAt(db, endId);
    var endDay :- StimeToDate(endRaw);
    var nextRaw :- StimeAt(db, startId + 1);
    var _ :- StimeToDate(nextRaw);
    Ok(DateRange(startDay, endDay, startId, endId, seconds))
  }

  /** The loader `__init__` builds: the region range `getDefaultRegionRange`
      returns as written, and the default date range. */
  function NewDataLoader(db: Store, seconds: int): (r: Result<DataLoader>)
    ensures r.Ok? <==> GetDefaultDateRange(db, seconds).Ok?
    ensures r.Ok? ==> r.value.db == db && r.value.dateData == GetDefaultDateRange(db, seconds).value
    ensures r.Ok? ==> r.value.regionId == Id(down := db.target.n0, up := 0, left := 0, right := db.target.n1)
  {
    var dateData :- GetDefaultDateRange(db, seconds);
    Ok(DataLoader(db, DefaultRegionRangeAsWritten(db.target), dateData))
  }

  /** On the standard cube, the border of the region a new loader holds
      cannot be read at any time step. */
  lemma NewLoaderBorderFails(db: Store, seconds: int, t: int)
    requires db.target.n0 == 1440 && db.target.n1 == 720
    requires NewDataLoader(db, seconds).Ok?
    ensures var loader := NewDataLoader(db, seconds).value;
      GetBorderConc(loader, t, loader.regionId) == Err(IndexError)
  {
    DefaultRegionRangeAsWrittenFails(NewDataLoader(db, seconds).value, t);
  }

  /** A loader built with the defaults spans every stored time step. */
  lemma DefaultTimedim(db: Store, seconds: int)
    requires NewDataLoader(db, seconds).Ok?
    ensures Timedim(NewDataLoader(db, seconds).value) == db.target.n2
  {
  }

  // ---------------------------------------------------------------- _stimeToDate

  predicate IsDigit(c: char)
  {
    '0' <= c <= '9'
  }

  predicate AllDigits(s: string)
  {
    forall k :: 0 <= k < |s| ==> IsDigit(s[k])
  }

  function DigitValue(c: char): nat
    requires IsDigit(c)
  {
    c as int - '0' as int
  }

  /** The number a string of decimal digits spells. */
  function DigitsValue(s: string): nat
    requires AllDigits(s)
  {
    if s == [] then 0 else DigitsValue(s[..|s| - 1]) * 10 + DigitValue(s[|s| - 1])
  }

  /** The forms of integer text the model accepts: an optional sign and one
      or more decimal digits. */
  predicate IsIntText(s: string)
  {
    || (|s| > 0 && AllDigits(s))
    || (|s| > 1 && (s[0] == '+' || s[0] == '-') && AllDigits(s[1..]))
  }

  /** Python's `int(s)` on text: ValueError for anything but an integer. */
  function ParseInt(s: string): (r: Result<int>)
    ensures r.Ok? <==> IsIntText(s)
    ensures r.Err? ==> r.error == ValueError
    ensures r.Ok? && AllDigits(s) ==> r.value == DigitsValue(s)
    ensures r.Ok? && s[0] == '-' ==> r.value == -(DigitsValue(s[1..]) as int)
    ensures r.Ok? && s[0] == '+' ==> r.value == DigitsValue(s[1..])
  {
    if |s| > 0 && AllDigits(s) then Ok(DigitsValue(s))
    else if |s| > 1 && s[0] == '-' && AllDigits(s[1..]) then Ok(-(DigitsValue(s[1..]) as int))
    else if |s| > 1 && s[0] == '+' && AllDigits(s[1..]) then Ok(DigitsValue(s[1..]))
    else Err(ValueError)
  }

  /** The parts joined back with the separator between them. */
  function Join(parts: seq<string>, sep: char): string
  {
    if parts == [] then "" else if |parts| == 1 then parts[0] else parts[0] + [sep] + Join(parts[1..], sep)
  }

  /** The first position of `c` in `s`. */
  function FirstIndex(s: string, c: char): (i: nat)
    requires c in s
    ensures i < |s| && s[i] == c && c !in s[..i]
  {
    if s[0] == c then 0 else FirstIndex(s[1..], c) + 1
  }

  /** `s.split(sep)`: the pieces between the separators, in order. */
  function Split(s: string, sep: char): (parts: seq<string>)
    ensures |parts| > 0
    ensures Join(parts, sep) == s
    ensures forall k :: 0 <= k < |parts| ==> sep !in parts[k]
    decreases |s|
  {
    if sep !in s then [s]
    else
      var i := FirstIndex(s, sep);
      assert s == s[..i] + [sep] + s[i + 1..];
      [s[..i]] + Split(s[i + 1..], sep)
  }

  /** Splitting text that starts with a separator-free piece and a separator. */
  lemma SplitCons(a: string, sep: char, rest: string)
    requires sep !in a
    ensures Split(a + [sep] + rest, sep) == [a] + Split(rest, sep)
  {
    var s := a + [sep] + rest;
    var i := FirstIndex(s, sep);
    assert s[|a|] == sep;
    assert s[..i] == a;
    assert s[i + 1..] == rest;
  }

  /** Python's `str` of a bytes value whose bytes are printable and free of quotes. */
  function BytesStr(content: string): (s: string)
    ensures |s| == |content| + 3
    ensures forall k :: 0 <= k < |content| ==> s[k + 2] == content[k]
  {
    "b'" + content + "'"
  }

  /** The calendar rules `datetime` enforces. */
  predicate IsLeapYear(y: int)
  {
    y % 4 == 0 && (y % 100 != 0 || y % 400 == 0)
  }

  function DaysInMonth(y: int, m: int): int
    requires 1 <= m <= 12
  {
    if m == 2 then (if IsLeapYear(y) then 29 else 28)
    else if m == 4 || m == 6 || m == 9 || m == 11 then 30
    else 31
  }

  predicate ValidDateTime(d: DateTime)
  {
    && 1 <= d.year <= 9999 && 1 <= d.month <= 12
    && 1 <= d.day <= DaysInMonth(d.year, d.month) && 0 <= d.hour <= 23
  }

  /** `datetime(year, month, day, hour)`: ValueError outside the calendar. */
  function MakeDateTime(year: int, month: int, day: int, hour: int): (r: Result<DateTime>)
    ensures r.Ok? <==> ValidDateTime(DateTime(year, month, day, hour))
    ensures r.Err? ==> r.error == ValueError
    ensures r.Ok? ==> r.value == DateTime(year, month, day, hour)
  {
    var d := DateTime(year, month, day, hour);
    if ValidDateTime(d) then Ok(d) else Err(ValueError)
  }

  /** `_stimeToDate`: characters 2..11 of `str(stime)` split on '-' give
      year, month and day; characters 13..14 give the hour. */
  function StimeToDate(content: string): (r: Result<DateTime>)
    ensures r.Ok? ==> ValidDateTime(r.value)
    ensures r.Err? ==> r.error == ValueError
    ensures r.Ok? ==> var parts := Split(Slice(BytesStr(content), 2, 12), '-');
      && |parts| == 3
      && ParseInt(parts[0]) == Ok(r.value.year) && ParseInt(parts[1]) == Ok(r.value.month)
      && ParseInt(parts[2]) == Ok(r.value.day)
      && ParseInt(Slice(BytesStr(content), 13, 15)) == Ok(r.value.hour)
  {
    var s := BytesStr(content);
    var parts := Split(Slice(s, 2, 12), '-');
    var values :- ParseAll(parts);
    if |values| != 3 then Err(ValueError)
    else
      var hour :- ParseInt(Slice(s, 13, 15));
      MakeDateTime(values[0], values[1], values[2], hour)
  }

  /** `list(map(int, parts))`: the first part that is not an integer raises. */
  function ParseAll(parts: seq<string>): (r: Result<seq<int>>)
    ensures r.Ok? <==> forall k :: 0 <= k < |parts| ==> ParseInt(parts[k]).Ok?
    ensures r.Err? ==> r.error == ValueError
    ensures r.Ok? ==> |r.value| == |parts| && forall k :: 0 <= k < |parts| ==> ParseInt(parts[k]) == Ok(r.value[k])
  {
    if parts == [] then Ok([])
    else
      var first :- ParseInt(parts[0]);
      var rest :- ParseAll(parts[1..]);
      Ok([first] + rest)
  }

  // ---------------------------------------------------------------- formatting, for the round trip

  function DigitChar(d: nat): (c: char)
    requires d < 10
    ensures IsDigit(c) && DigitValue(c) == d
  {
    ('0' as int + d) as char
  }

  function Pow10(n: nat): (p: nat)
    ensures p >= 1
  {
    if n == 0 then 1 else 10 * Pow10(n - 1)
  }

  /** `v` written with exactly `n` decimal digits, zero-padded. */
  function Digits(v: nat, n: nat): (s: string)
    ensures |s| == n && AllDigits(s)
  {
    if n == 0 then "" else Digits(v / 10, n - 1) + [DigitChar(v % 10)]
  }

  lemma {:induction false} DigitsValueOfDigits(v: nat, n: nat)
    requires v < Pow10(n)
    ensures DigitsValue(Digits(v, n)) == v
  {
    if n > 0 {
      var s := Digits(v, n);
      assert s[..|s| - 1] == Digits(v / 10, n - 1);
      DigitsValueOfDigits(v / 10, n - 1);
    }
  }

  /** The stored text of a timestamp: `YYYY-MM-DD HH:00:00`. */
  function FormatStime(d: DateTime): string
    requires 0 <= d.year && 0 <= d.month && 0 <= d.day && 0 <= d.hour
  {
    Digits(d.year, 4) + "-" + Digits(d.month, 2) + "-" + Digits(d.day, 2) + " " + Digits(d.hour, 2) + ":00:00"
  }

  /** The date and hour fields sit at characters 2..11 and 13..14 of `str(bytes)`. */
  lemma StimeFields(d: DateTime)
    requires 0 <= d.year && 0 <= d.month && 0 <= d.day && 0 <= d.hour
    ensures var s := BytesStr(FormatStime(d));
      && Slice(s, 2, 12) == Digits(d.year, 4) + ['-'] + (Digits(d.month, 2) + ['-'] + Digits(d.day, 2))
      && Slice(s, 13, 15) == Digits(d.hour, 2)
  {
    var y, mo, da, h := Digits(d.year, 4), Digits(d.month, 2), Digits(d.day, 2), Digits(d.hour, 2);
    var f := FormatStime(d);
    var s := BytesStr(f);
    assert f == y + ['-'] + mo + ['-'] + da + [' '] + h + ":00:00";
    assert s[2..12] == f[..10];
    assert f[..10] == y + ['-'] + (mo + ['-'] + da);
    assert s[13..15] == f[11..13];
    assert f[11..13] == h;
  }

  /** The date field splits into its three digit groups. */
  lemma SplitDateField(d: DateTime)
    requires 0 <= d.year && 0 <= d.month && 0 <= d.day
    ensures Split(Digits(d.year, 4) + ['-'] + (Digits(d.month, 2) + ['-'] + Digits(d.day, 2)), '-')
            == [Digits(d.year, 4), Digits(d.month, 2), Digits(d.day, 2)]
  {
    var y, mo, da := Digits(d.year, 4), Digits(d.month, 2), Digits(d.day, 2);
    NoSeparatorInDigits(y);
    NoSeparatorInDigits(mo);
    NoSeparatorInDigits(da);
    SplitCons(y, '-', mo + ['-'] + da);
    SplitCons(mo, '-', da);
  }

  /** The three digit groups parse to year, month and day. */
  lemma ParseDateParts(d: DateTime)
    requires 0 <= d.year < 10000 && 0 <= d.month < 100 && 0 <= d.day < 100
    ensures ParseAll([Digits(d.year, 4), Digits(d.month, 2), Digits(d.day, 2)]) == Ok([d.year, d.month, d.day])
  {
    var y, mo, da := Digits(d.year, 4), Digits(d.month, 2), Digits(d.day, 2);
    DigitsValueOfDigits(d.year, 4);
    DigitsValueOfDigits(d.month, 2);
    DigitsValueOfDigits(d.day, 2);
    assert ParseInt(y) == Ok(d.year) && ParseInt(mo) == Ok(d.month) && ParseInt(da) == Ok(d.day);
    assert [y, mo, da][1..] == [mo, da];
    assert [mo, da][1..] == [da];
    assert [da][1..] == [];
    assert ParseAll([]) == Ok([]);
    assert [d.day] + [] == [d.day];
    assert ParseAll([da]) == Ok([d.day]);
    assert [d.month] + [d.day] == [d.month, d.day];
    assert ParseAll([mo, da]) == Ok([d.month, d.day]);
    assert [d.year] + [d.month, d.day] == [d.year, d.month, d.day];
  }

  /** Parsing gives back every valid timestamp from year 1000 on. */
  lemma StimeRoundTrip(d: DateTime)
    requires ValidDateTime(d) && d.year >= 1000
    ensures StimeToDate(FormatStime(d)) == Ok(d)
  {
    var s := BytesStr(FormatStime(d));
    StimeFields(d);
    SplitDateField(d);
    ParseDateParts(d);
    DigitsValueOfDigits(d.hour, 2);
    var parts := Split(Slice(s, 2, 12), '-');
    assert parts == [Digits(d.year, 4), Digits(d.month, 2), Digits(d.day, 2)];
    assert ParseAll(parts) == Ok([d.year, d.month, d.day]);
    assert ParseInt(Slice(s, 13, 15)) == Ok(d.hour);
  }

  lemma NoSeparatorInDigits(s: string)
    requires AllDigits(s)
    ensures '-' !in s
  {
  }

  /** Text without the dashes between its parts cannot be parsed. */
  lemma StimeWithoutDateFails(content: string)
    requires '-' !in content
    ensures StimeToDate(content).Err?
  {
  }
}
