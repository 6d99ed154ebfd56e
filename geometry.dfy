/** Image-plane positions shared by the zone tester and the energy
    estimator. */
module Geometry {

  /** A position in processing-resolution pixels: an ankle, or a hip
      centre. */
  datatype Point = Point(x: real, y: real)
}
