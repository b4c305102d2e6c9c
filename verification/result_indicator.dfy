/**
 * The result indicator component: a tick or a cross whose size follows from its `width` and
 * style alone, and which resizes itself whenever the width changes or it is laid out.
 */
module ResultIndicators {
  import opened Geometry

  /** `ResultIndicator.Style`. */
  datatype ResultStyle = Error | Success

  /** `_sizeThatFits(_:)`: as wide as `w`; a tick is two thirds as tall as wide, a cross square. */
  function SizeThatFitsWidth(style: ResultStyle, w: real): (s: Size)
    ensures s.width == w
    ensures style == Success ==> 3.0 * s.height == 2.0 * s.width
    ensures style == Error ==> s.height == s.width
  {
    match style
    case Success => Size(w, w * 2.0 / 3.0)
    case Error => Size(w, w)
  }

  /** For the same width, a tick never needs more room than a cross, and a positive width gives a positive area. */
  lemma TickWithinCross(w: real)
    requires 0.0 <= w
    ensures SizeThatFitsWidth(Success, w).Within(SizeThatFitsWidth(Error, w))
    ensures 0.0 < w ==> 0.0 < SizeThatFitsWidth(Success, w).height && 0.0 < SizeThatFitsWidth(Error, w).height
  {
  }

  class ResultIndicator {
    const style: ResultStyle
    var lineWidth: real
    var width: real
    /** `bounds.size`. */
    var size: Size

    /** `sizeThatFits(_:)`: ignores the proposed size and answers for the current width. */
    function SizeThatFits(proposed: Size): (s: Size)
      reads this
      ensures s.width == width
      ensures style == Success ==> 3.0 * s.height == 2.0 * s.width
      ensures style == Error ==> s.height == s.width
    {
      SizeThatFitsWidth(style, width)
    }

    /** `sizeToFit()`: the view takes the size it says fits. */
    method SizeToFit()
      modifies this`size
      ensures size == SizeThatFitsWidth(style, width)
    {
      size := SizeThatFits(size);
    }

    /** `init(style:)`: width 37, line width 3, and already sized to fit. */
    constructor (style: ResultStyle)
      ensures this.style == style && width == 37.0 && lineWidth == 3.0
      ensures size == SizeThatFitsWidth(style, 37.0)
    {
      this.style := style;
      lineWidth := 3.0;
      width := 37.0;
      size := Zero;
      new;
      SizeToFit();
    }

    /** Assigning `width`: its observer resizes the view to fit the new width. */
    method SetWidth(newValue: real)
      modifies this`width, this`size
      ensures width == newValue && size == SizeThatFitsWidth(style, newValue)
    {
      width := newValue;
      SizeToFit();
    }

    /** `layoutSubviews`: sizes the view to fit; on a view already fitted this changes nothing. */
    method LayoutSubviews()
      modifies this`size
      ensures size == SizeThatFitsWidth(style, width)
      ensures old(size) == SizeThatFitsWidth(style, width) ==> size == old(size)
    {
      SizeToFit();
    }

    /** `success`: a tick 32 wide, hence 64/3 tall. */
    static method MakeSuccess() returns (indicator: ResultIndicator)
      ensures fresh(indicator) && indicator.style == Success && indicator.width == 32.0
      ensures indicator.size == Size(32.0, 64.0 / 3.0)
    {
      indicator := new ResultIndicator(Success);
      indicator.SetWidth(32.0);
    }

    /** The `success` of the other copy of the component: a tick 28 wide, hence 56/3 tall. */
    static method MakeCompactSuccess() returns (indicator: ResultIndicator)
      ensures fresh(indicator) && indicator.style == Success && indicator.width == 28.0
      ensures indicator.size == Size(28.0, 56.0 / 3.0)
    {
      indicator := new ResultIndicator(Success);
      indicator.SetWidth(28.0);
    }

    /** `error`: a cross 20 wide, hence 20 tall. */
    static method MakeError() returns (indicator: ResultIndicator)
      ensures fresh(indicator) && indicator.style == Error && indicator.width == 20.0
      ensures indicator.size == Size(20.0, 20.0)
    {
      indicator := new ResultIndicator(Error);
      indicator.SetWidth(20.0);
    }
  }

  /** The proposed size never matters: any two proposals get the same answer. */
  lemma SizeThatFitsIgnoresProposal(indicator: ResultIndicator, p: Size, q: Size)
    ensures indicator.SizeThatFits(p) == indicator.SizeThatFits(q)
  {
  }
}
