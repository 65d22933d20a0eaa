/** Screen points and the rectangles drawn by dragging the mouse, shared by the
    seat editor (src/roi_manager.py) and the channel-button editor (channel_setup.py). */
module Geometry {

  /** A pixel position `(x, y)` reported by an OpenCV mouse event. */
  datatype Point = Point(x: int, y: int)

  /** The OpenCV mouse events the editors react to; any other event is ignored. */
  datatype MouseEvent = LeftButtonDown | MouseMove | LeftButtonUp | OtherEvent

  /** `(x, y, width, height)`: top-left corner and size. */
  datatype Rect = Rect(x: int, y: int, width: int, height: int)

  function Abs(a: int): nat {
    if a < 0 then -a else a
  }

  function Min(a: int, b: int): int {
    if a <= b then a else b
  }

  /** The rectangle spanned by a drag from `p` to `q`: top-left corner by `min`,
      size by `abs`. Its two x edges are exactly the two points' x coordinates
      (likewise y), so the drag direction does not matter. */
  function DragRect(p: Point, q: Point): (r: Rect)
    ensures r.width >= 0 && r.height >= 0
    ensures {r.x, r.x + r.width} == {p.x, q.x}
    ensures {r.y, r.y + r.height} == {p.y, q.y}
    ensures r.width == Abs(q.x - p.x) && r.height == Abs(q.y - p.y)
  {
    Rect(Min(p.x, q.x), Min(p.y, q.y), Abs(q.x - p.x), Abs(q.y - p.y))
  }

  /** Dragging from `q` back to `p` gives the same rectangle as from `p` to `q`. */
  lemma DragDirectionIrrelevant(p: Point, q: Point)
    ensures DragRect(p, q) == DragRect(q, p)
  {
  }
}
