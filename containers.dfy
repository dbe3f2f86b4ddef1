/** The records shared by the grid tools, the data loader and the processors. */
module Containers {
  import opened PyArrays

  /** A rectangular region in degrees: `lat` holds (down, up) and `lon`
      holds (left, right), as the two two-element arrays of the original. */
  datatype Region = Region(lat: (real, real), lon: (real, real)) {

    /** `Region(down, up, left, right)`. */
    static function New(down: real, up: real, left: real, right: real): (r: Region)
      ensures r.Down() == down && r.Up() == up && r.Left() == left && r.Right() == right
    {
      Region((down, up), (left, right))
    }

    function Down(): real { lat.0 }
    function Up(): real { lat.1 }
    function Left(): real { lon.0 }
    function Right(): real { lon.1 }

    /** The latitude extent, whichever way round the bounds are. */
    function Height(): (h: real)
      ensures h >= 0.0 && (h == Up() - Down() || h == Down() - Up())
    {
      Abs(Up() - Down())
    }

    /** The longitude extent, whichever way round the bounds are. */
    function Width(): (w: real)
      ensures w >= 0.0 && (w == Left() - Right() || w == Right() - Left())
    {
      Abs(Left() - Right())
    }

    /** The mean of each coordinate pair: (latitude, longitude) of the middle. */
    function Center(): (c: (real, real))
      ensures c.0 - Down() == Up() - c.0 && c.1 - Left() == Right() - c.1
      ensures Down() <= Up() ==> Down() <= c.0 <= Up()
      ensures Left() <= Right() ==> Left() <= c.1 <= Right()
    {
      ((lat.0 + lat.1) / 2.0, (lon.0 + lon.1) / 2.0)
    }

    /** `fromNumpy(lat, lon)`: unpacking anything but two values per array
        raises ValueError. */
    static function FromNumpy(lat: seq<real>, lon: seq<real>): (r: Result<Region>)
      ensures r.Ok? <==> |lat| == 2 && |lon| == 2
      ensures r.Err? ==> r.error == ValueError
      ensures r.Ok? ==> (r.value.Down() == lat[0] && r.value.Up() == lat[1]
                         && r.value.Left() == lon[0] && r.value.Right() == lon[1])
    {
      if |lat| != 2 || |lon| != 2 then Err(ValueError)
      else Ok(New(lat[0], lat[1], lon[0], lon[1]))
    }

    /** `toNumpy()`: the ([down, up], [left, right]) arrays. */
    function ToNumpy(): (seq<real>, seq<real>)
    {
      ([lat.0, lat.1], [lon.0, lon.1])
    }

    /** The region moved by `dlat` degrees north and `dlon` degrees east. */
    function AddCoords(dlat: real, dlon: real): (r: Region)
      ensures r.Down() == Down() + dlat && r.Up() == Up() + dlat
      ensures r.Left() == Left() + dlon && r.Right() == Right() + dlon
      ensures r.Height() == Height() && r.Width() == Width()
      ensures r.Center() == (Center().0 + dlat, Center().1 + dlon)
    {
      FromNumpy([lat.0 + dlat, lat.1 + dlat], [lon.0 + dlon, lon.1 + dlon]).value
    }

    /** The region of the given height and width centred on `center`
        (a (latitude, longitude) pair). */
    static function RegionAroundCenter(center: (real, real), height: real, width: real): (r: Region)
      ensures r.Center() == center
      ensures r.Height() == Abs(height) && r.Width() == Abs(width)
      ensures height >= 0.0 ==> r.Down() <= r.Up()
      ensures width >= 0.0 ==> r.Left() <= r.Right()
    {
      var halfHeight, halfWidth := height / 2.0, width / 2.0;
      var (centralLat, centralLon) := center;
      FromNumpy([centralLat - halfHeight, centralLat + halfHeight],
                [centralLon - halfWidth, centralLon + halfWidth]).value
    }

    /** A region of the given height and width with the same centre as this one. */
    function CentralizeRegion(height: real, width: real): (r: Region)
      ensures r.Center() == Center()
      ensures r.Height() == Abs(height) && r.Width() == Abs(width)
    {
      RegionAroundCenter(Center(), height, width)
    }
  }

  /** `Region.fromNumpy(*region.toNumpy())` gives back the same region. */
  lemma FromNumpyToNumpy(r: Region)
    ensures Region.FromNumpy(r.ToNumpy().0, r.ToNumpy().1) == Ok(r)
  {
  }

  /** Indices of a region's bounds in the grid's coordinate arrays, inclusive. */
  datatype Id = Id(down: int, up: int, left: int, right: int)

  /** The grid's latitude and longitude values. */
  datatype Grid = Grid(lat: seq<real>, lon: seq<real>)

  /** Lengths in metres of the boundary segments of the outermost cells. */
  datatype Cell = Cell(down: real, up: real, left: real, right: real)

  /** Everything about a region that the integrators need. */
  datatype RegionData = RegionData(region: Region, gridRegion: Region, id: Id, cell: Cell, cellareas: Array2)

  /** One-dimensional arrays along the right, left, down and up edges of a
      region: concentrations (ConvConc), velocities (ConvFlow) or their
      products (ConvValue). */
  datatype BorderValues = BorderValues(right: seq<real>, left: seq<real>, down: seq<real>, up: seq<real>)

  type ConvConc = BorderValues
  type ConvFlow = BorderValues
  type ConvValue = BorderValues

  /** The boundary data of one time step (ConvOriginalDayData). */
  datatype ConvDayData = ConvDayData(conc: ConvConc, flow: ConvFlow)

  /** A calendar time to the hour. */
  datatype DateTime = DateTime(year: int, month: int, day: int, hour: int)

  /** A span of the time axis: its end timestamps, their indices and the step length. */
  datatype DateRange = DateRange(start: DateTime, end: DateTime, startId: int, endId: int, seconds: int) {

    /** The number of time steps from `startId` to `endId`, both included. */
    function Timesize(): (n: int)
      ensures startId + n == endId + 1
    {
      endId - startId + 1
    }
  }
}
