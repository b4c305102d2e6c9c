/**
 * The label component: its default layout spec, the rule that ties its text colour to its
 * tint colour, and the sizing step of its layout, which skips a label without text.
 */
module Labels {
  import opened Geometry
  import opened Colors
  import opened LayoutSpec
  import opened Wrappers

  /** The default spec of the `View` and `Label` components: 15 on every side, below the predecessor, centred. */
  function DefaultLayout(): (l: Layout)
    ensures l.insets == Uniform(15.0)
    ensures l.distribution == VerticalAt(Bottom) && l.alignment == Center
  {
    Layout(Uniform(15.0), VerticalAt(Bottom), Center)
  }

  /** `ceil`: the least integer that is not below `r`. */
  function Ceil(r: real): (c: int)
    ensures r <= c as real < r + 1.0
  {
    if r.Floor as real == r then r.Floor else r.Floor + 1
  }

  /** `ceil` applied to both dimensions of a measured size. */
  function CeilSize(measured: Size): (s: Size)
    ensures measured.Within(s)
    ensures s.width < measured.width + 1.0 && s.height < measured.height + 1.0
  {
    Size(Ceil(measured.width) as real, Ceil(measured.height) as real)
  }

  class Label {
    var shouldTreatTintColorAsTextColor: bool
    var textColor: Color
    /** The tint colour the label shows, as inherited from its superview or assigned. */
    var tintColor: Color
    /** `text`, which may be nil. */
    var text: Option<string>
    /** `bounds.size`. */
    var size: Size
    var layout: Layout

    /** With the flag set, the text colour is the tint colour. */
    predicate TintFollowed()
      reads this
    {
      shouldTreatTintColorAsTextColor ==> textColor == tintColor
    }

    /** `init(frame:)` on a zero frame: no text, and the text colour taken from the inherited tint. */
    constructor (inheritedTint: Color)
      ensures shouldTreatTintColorAsTextColor && textColor == inheritedTint && tintColor == inheritedTint
      ensures text == None && size == Zero && layout == DefaultLayout()
      ensures TintFollowed()
    {
      shouldTreatTintColorAsTextColor := true;
      tintColor := inheritedTint;
      text := None;
      size := Zero;
      layout := DefaultLayout();
      textColor := inheritedTint;
    }

    /** `title(_:)` and `detail(_:)`: a fresh label showing `s`; they differ only in font. */
    static method WithText(s: string, inheritedTint: Color) returns (made: Label)
      ensures fresh(made) && made.text == Some(s) && made.textColor == inheritedTint
      ensures made.size == Zero && made.layout == DefaultLayout() && made.TintFollowed()
    {
      made := new Label(inheritedTint);
      made.text := Some(s);
    }

    /** The `textColor` setter: ignored while the tint colour is treated as the text colour. */
    method SetTextColor(newValue: Color)
      modifies this`textColor
      ensures textColor == if shouldTreatTintColorAsTextColor then old(textColor) else newValue
      ensures old(TintFollowed()) ==> TintFollowed()
    {
      if shouldTreatTintColorAsTextColor {
        return;
      }
      textColor := newValue;
    }

    /** The `tintColor` setter with its observer: with the flag set, the new tint also becomes the text colour. */
    method SetTintColor(newValue: Color)
      modifies this`tintColor, this`textColor
      ensures tintColor == newValue
      ensures textColor == if shouldTreatTintColorAsTextColor then newValue else old(textColor)
      ensures TintFollowed()
    {
      tintColor := newValue;
      if shouldTreatTintColorAsTextColor {
        textColor := tintColor;
      }
    }

    /** `tintColorDidChange`: with the flag set, the text colour catches up with the current tint. */
    method TintColorDidChange()
      modifies this`textColor
      ensures textColor == if shouldTreatTintColorAsTextColor then tintColor else old(textColor)
      ensures TintFollowed()
    {
      if shouldTreatTintColorAsTextColor {
        textColor := tintColor;
      }
    }

    /**
     * The sizing half of `layout(in:provider:)`. A label with no text or empty text is left
     * alone; otherwise its text is measured against the container's allowed width less the
     * label's horizontal insets, and its size becomes the measured size rounded up.
     */
    method LayoutIn(maxAllowedLayoutWidth: real, measure: (string, real) -> Size)
      modifies this`size
      ensures text.None? || text.value == [] ==> size == old(size)
      ensures text.Some? && text.value != [] ==>
        var measured := measure(text.value, maxAllowedLayoutWidth - layout.insets.Width());
        measured.Within(size) && size.width < measured.width + 1.0 && size.height < measured.height + 1.0 &&
        size == CeilSize(measured)
    {
      if text.None? || text.value == [] {
        return;
      }
      var measured := measure(text.value, maxAllowedLayoutWidth - layout.insets.Width());
      size := Size(Ceil(measured.width) as real, Ceil(measured.height) as real);
    }
  }
}
