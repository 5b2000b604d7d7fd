/** Value types of the geometry and graphics libraries the modelled code uses.
    Their single-precision floats are modelled as reals. */
module Geometry {

  /** `Geometry::Vec3` */
  datatype Vec3 = Vec3(x: real, y: real, z: real)

  /** `Util::Color4f` */
  datatype Color4 = Color4(r: real, g: real, b: real, a: real)
}
