/**
 * The toast's content view: the auto-growing container the components are laid out in.
 * Its `size` is its bounds size; `Extends` grows it componentwise.
 */
module Content {
  import opened Geometry
  import opened Colors
  import opened Wrappers

  /** `UIBlurEffectStyle`. */
  datatype BlurEffectStyle = ExtraLight | Light | Dark | Regular | Prominent

  /** `ContentView.Style`. */
  datatype Style = Normal(opacity: real) | Coloured(colors: seq<Color>) | Translucent(effect: BlurEffectStyle)

  /** The gradient layer of the coloured style, by the colours it shows. */
  datatype GradientLayer = GradientLayer(colors: seq<Color>)

  class ContentView {
    /** `bounds.size`, the content size the container reports. */
    var size: Size
    /** `frame.origin`, where the toast view puts the content view. */
    var origin: Point
    var style: Style
    var backgroundColor: Option<Color>

    constructor ()
      ensures size == Zero && origin == Origin
      ensures style == Normal(0.3)
      ensures backgroundColor == Some(Clear)
    {
      size := Zero;
      origin := Origin;
      style := Normal(0.3);
      backgroundColor := Some(Clear);
    }

    /** The `size` setter: writes the bounds size. */
    method SetSize(newValue: Size)
      modifies this`size
      ensures size == newValue
    {
      size := newValue;
    }

    /** `update(size:)`: afterwards the container reports exactly `newSize`. */
    method Update(newSize: Size)
      modifies this`size
      ensures size == newSize
    {
      SetSize(newSize);
    }

    /** `extends(size:)`: grows the content size by `delta` in each dimension. */
    method Extends(delta: Size)
      modifies this`size
      ensures size == old(size).Plus(delta)
    {
      size := size.Plus(delta);
    }

    /** Assigning `style`; the subviews and layers it rebuilds are not modelled. */
    method SetStyle(newValue: Style)
      modifies this`style
      ensures style == newValue
    {
      style := newValue;
    }

    /** `gradientLayer`: there is one exactly when the style is coloured, showing that style's colours. */
    function Gradient(): (layer: Option<GradientLayer>)
      reads this
      ensures layer.Some? <==> style.Coloured?
      ensures layer.Some? ==> layer.value.colors == style.colors
    {
      if style.Coloured? then Some(GradientLayer(style.colors)) else None
    }

    /** The `backgroundColor` setter ignores the value it is given. */
    method SetBackgroundColor(newValue: Option<Color>)
      ensures backgroundColor == old(backgroundColor)
    {
    }
  }
}
