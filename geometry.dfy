/** Integer pixel geometry shared by the region and marker models (QPoint, QRect, a drawn line). */
module Geometry {

  datatype Point = Point(x: int, y: int)

  /** An axis-aligned rectangle given by its top-left corner and its extent. */
  datatype Rect = Rect(left: int, top: int, width: int, height: int)

  /** A straight line drawn between two points. */
  datatype Segment = Segment(a: Point, b: Point)
}
