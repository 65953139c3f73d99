/**
 * Points and the numeric conventions shared by the CAM front end and the
 * topography engine. Coordinates are exact reals: the source's doubles,
 * Float32 storage and rounding are not modelled.
 */
module Geometry {

  /** A 3D point (the source's `newPoint(x, y, z)`). */
  datatype Point = Point(x: real, y: real, z: real)

  /** The operation a slice belongs to (the source's `PRO.*` modes). */
  datatype CamMode = LEVEL | ROUGH | OUTLINE | CONTOUR_X | CONTOUR_Y | DRILL

  /** An output slice: its height, its mode and its toolpath polylines (`camLines`). */
  datatype Slice = Slice(z: real, mode: CamMode, lines: seq<seq<Point>>)

  /** A point with its z replaced (the source's `point.clone().setZ(z)`). */
  function WithZ(p: Point, z: real): Point
  {
    Point(p.x, p.y, z)
  }

  function Max(a: real, b: real): real { if a >= b then a else b }

  function Min(a: real, b: real): real { if a <= b then a else b }

  function Abs(a: real): real { if a >= 0.0 then a else -a }
}
