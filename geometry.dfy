/** Points shared by the calibration state machine and the screen-corner detector. */
module Geometry {

  /** A 2-D point: image pixels, or normalised screen coordinates, depending on context. */
  datatype Point = Point(x: real, y: real)

  const Origin: Point := Point(0.0, 0.0)
}
