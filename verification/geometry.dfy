/**
 * The Core Graphics and UIKit value types the layout engine works on. `CGFloat` is
 * modelled as `real`: the engine only adds, subtracts and takes minima and maxima.
 */
module Geometry {

  function Min(a: real, b: real): (m: real)
    ensures m <= a && m <= b
    ensures m == a || m == b
  {
    if a <= b then a else b
  }

  function Max(a: real, b: real): (m: real)
    ensures a <= m && b <= m
    ensures m == a || m == b
  {
    if a <= b then b else a
  }

  function Abs(a: real): (r: real)
    ensures 0.0 <= r
    ensures r == a || r == -a
  {
    if a < 0.0 then -a else a
  }

  /** `CGPoint`. */
  datatype Point = Point(x: real, y: real)

  const Origin := Point(0.0, 0.0)

  /** `CGSize`. */
  datatype Size = Size(width: real, height: real) {

    /** Componentwise addition: how a container extends its content size by `delta`. */
    function Plus(delta: Size): Size {
      Size(width + delta.width, height + delta.height)
    }

    /** Neither dimension of `this` exceeds that of `other`. */
    predicate Within(other: Size) {
      width <= other.width && height <= other.height
    }
  }

  /** `CGSize.zero`. */
  const Zero := Size(0.0, 0.0)

  /**
   * `CGRect`. Like Core Graphics, the derived edges and lengths are those of the
   * standardised rectangle, so a negative size extends towards smaller coordinates.
   */
  datatype Rect = Rect(origin: Point, size: Size) {

    function Width(): real { Abs(size.width) }

    function Height(): real { Abs(size.height) }

    function MinX(): real { Min(origin.x, origin.x + size.width) }

    function MaxX(): real { Max(origin.x, origin.x + size.width) }

    function MinY(): real { Min(origin.y, origin.y + size.height) }

    function MaxY(): real { Max(origin.y, origin.y + size.height) }

    /** The same rectangle with its origin moved to `p`; its size is untouched. */
    function MovedTo(p: Point): Rect { Rect(p, size) }

    /** Width and height are not negative: the usual case for a view's frame. */
    predicate Upright() { 0.0 <= size.width && 0.0 <= size.height }
  }

  /** `UIEdgeInsets`: the margins around a component. */
  datatype EdgeInsets = EdgeInsets(top: real, left: real, bottom: real, right: real) {

    /** `UIEdgeInsets.width`: the horizontal length of the insets. */
    function Width(): (w: real)
      ensures 0.0 <= left && 0.0 <= right ==> 0.0 <= w
    {
      left + right
    }

    /** `UIEdgeInsets.height`: the vertical length of the insets. */
    function Height(): (h: real)
      ensures 0.0 <= top && 0.0 <= bottom ==> 0.0 <= h
    {
      top + bottom
    }

    predicate NonNegative() {
      0.0 <= top && 0.0 <= left && 0.0 <= bottom && 0.0 <= right
    }
  }

  /** The same margin on all four sides. */
  function Uniform(margin: real): (insets: EdgeInsets)
    ensures insets.top == insets.left == insets.bottom == insets.right == margin
  {
    EdgeInsets(margin, margin, margin, margin)
  }

  /** The horizontal length reads only the left and right margins, the vertical one only the top and bottom. */
  lemma InsetLengthsIndependent(a: EdgeInsets, b: EdgeInsets)
    ensures a.left == b.left && a.right == b.right ==> a.Width() == b.Width()
    ensures a.top == b.top && a.bottom == b.bottom ==> a.Height() == b.Height()
  {
  }
}

/** Colours, as the colour state of components stores and rotates them. */
module Colors {

  /** A colour by hue, saturation, brightness and alpha (`UIColor(hue:saturation:brightness:alpha:)`). */
  datatype Color = Hsba(hue: real, saturation: real, brightness: real, alpha: real)

  /** `UIColor.clear`. */
  const Clear := Hsba(0.0, 0.0, 0.0, 0.0)
}
