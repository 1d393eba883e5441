/** Terminal-cell geometry shared by the two chart widgets (Go's
    `image.Point` and `image.Rectangle`). */
module Geometry {
  datatype Point = Point(x: int, y: int)

  /** An `image.Rectangle`: columns `minX..maxX-1`, rows `minY..maxY-1`. */
  datatype Rect = Rect(minX: int, minY: int, maxX: int, maxY: int)
  {
    function Dx(): int { maxX - minX }
    function Dy(): int { maxY - minY }
  }
}
