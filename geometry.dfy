/**
 * Geometry primitives shared by every part of the floor-plan drawer:
 * world points (millimetres), the orientation, thickness and door-type
 * enumerations, and an Option type for the optional fields of a
 * partial context update and for the measurement anchor.
 */
module Geometry {

  /** A point in world (or, after projection, scene) coordinates. */
  datatype Point = Point(x: real, y: real)

  /** A straight segment between two points. */
  datatype Segment = Segment(start: Point, end: Point)

  datatype Orientation = North | East | South | West

  datatype LineThickness = Thin | Thick

  /** The door type is recorded in the command but never read by a renderer. */
  datatype DoorType = Left | Right

  datatype Option<+T> = None | Some(value: T) {
    function GetOr(default: T): T {
      match this
      case Some(v) => v
      case None => default
    }
  }

  /** `Math.abs` over reals. */
  function Abs(r: real): (a: real)
    ensures a >= 0.0
    ensures a == r || a == -r
  {
    if r < 0.0 then -r else r
  }
}
