/** Two-dimensional points (finch-core geometry.Point64), with exact real coordinates. */
module Geometry {

  /** A point or vector in the plane; float64 coordinates are modelled as reals. */
  datatype Point = Point(x: real, y: real)
}
