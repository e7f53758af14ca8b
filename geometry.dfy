/**
 * Window geometry as Qt keeps it. A `QRect` stores its four edges; its width is
 * `x2 - x1 + 1`. The setters used by the resize code therefore move one edge and
 * leave the opposite one where it was; `QRect` itself clamps nothing. The size
 * limits a widget applies when its geometry is set are not part of this model.
 */
module Geometry {

  datatype Point = Point(x: int, y: int) {
    /** `QPoint` subtraction: the vector from `o` to this point. */
    function Minus(o: Point): (d: Point)
      ensures o.x + d.x == x && o.y + d.y == y
    {
      Point(x - o.x, y - o.y)
    }
  }

  datatype Rect = Rect(x1: int, y1: int, x2: int, y2: int) {

    function Left(): int { x1 }
    function Top(): int { y1 }
    function Right(): int { x2 }
    function Bottom(): int { y2 }
    function Width(): int { x2 - x1 + 1 }
    function Height(): int { y2 - y1 + 1 }

    /** `QRect::setWidth`: the left edge stays, the right edge follows. */
    function SetWidth(w: int): (r: Rect)
      ensures r.Width() == w && r.Left() == Left()
      ensures r.Top() == Top() && r.Bottom() == Bottom()
    {
      Rect(x1, y1, x1 + w - 1, y2)
    }

    /** `QRect::setHeight`: the top edge stays, the bottom edge follows. */
    function SetHeight(h: int): (r: Rect)
      ensures r.Height() == h && r.Top() == Top()
      ensures r.Left() == Left() && r.Right() == Right()
    {
      Rect(x1, y1, x2, y1 + h - 1)
    }

    /** `QRect::setLeft`: the right edge stays, so the width absorbs the change. */
    function SetLeft(l: int): (r: Rect)
      ensures r.Left() == l && r.Right() == Right()
      ensures r.Width() == Width() + (Left() - l)
      ensures r.Top() == Top() && r.Bottom() == Bottom()
    {
      Rect(l, y1, x2, y2)
    }

    /** `QRect::setTop`: the bottom edge stays, so the height absorbs the change. */
    function SetTop(t: int): (r: Rect)
      ensures r.Top() == t && r.Bottom() == Bottom()
      ensures r.Height() == Height() + (Top() - t)
      ensures r.Left() == Left() && r.Right() == Right()
    {
      Rect(x1, t, x2, y2)
    }

    /** `QWidget::move`: a new top-left corner, the same size. */
    function MoveTo(x: int, y: int): (r: Rect)
      ensures r.Left() == x && r.Top() == y
      ensures r.Width() == Width() && r.Height() == Height()
    {
      Rect(x, y, x + (x2 - x1), y + (y2 - y1))
    }
  }

  /** `QRect(left, top, width, height)`. */
  function RectOfSize(left: int, top: int, width: int, height: int): (r: Rect)
    ensures r.Left() == left && r.Top() == top
    ensures r.Width() == width && r.Height() == height
  {
    Rect(left, top, left + width - 1, top + height - 1)
  }
}
