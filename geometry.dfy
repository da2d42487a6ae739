/** Three-component vectors over an abstract coordinate type. Nothing in the
    guide computation does arithmetic on coordinates: it only selects them. */
module Geometry {

  datatype Vec3<C> = Vec3(x: C, y: C, z: C)

  datatype Axis = X | Y | Z

  /** An axis-aligned range, as returned by the world-bound query. */
  datatype Range3<C> = Range3(min: Vec3<C>, max: Vec3<C>)

  function Coord<C>(v: Vec3<C>, a: Axis): C
  {
    match a
    case X => v.x
    case Y => v.y
    case Z => v.z
  }
}
