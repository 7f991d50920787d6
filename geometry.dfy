/** Points and offsets in the simulator's plane, in metres. */
module Geometry {

  /** A 2-D position or offset: a position tuple `(x, y)` of the simulator. */
  datatype Vec = Vec(x: real, y: real) {

    /** Component-wise sum: what `pos + [dx, dy]` and `(x + dx, y + dy)` compute. */
    function Plus(d: Vec): Vec {
      Vec(x + d.x, y + d.y)
    }
  }
}
