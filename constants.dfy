/** The fixed configuration of the 0.25-degree global grid. */
module Constants {

  /** Metres in one degree of latitude. */
  const LAT_DEGREE_LENGTH_METERS: real := 111.0 * 1000.0

  /** Grid cells per degree. */
  const COEF: real := 4.0

  /** The side of a grid cell, in degrees. */
  const CELL_STEP: real := 0.25

  /** The meridian-aligned side of a grid cell, in metres (27750). */
  const CELL_LENGTH_METERS: real := LAT_DEGREE_LENGTH_METERS / COEF

  const STD_WIDTH: nat := 1440
  const STD_HEIGTH: nat := 720

  /** Latitude index 0 is the northernmost row. */
  const OPT_IMAGE_TOP0: bool := true

  /** The shape (rows, columns) every concentration map must have. */
  const MAP_SIZE: seq<int> := [STD_HEIGTH, STD_WIDTH]
}
