/**
 * The progress indicator component: a progress value kept in [0, 1] by its setter, the
 * preset sizes of its four styles, the width of its gradient, and the colour wheel that the
 * coloured-bar style rotates by one colour on every display-link tick.
 */
module ProgressIndicators {
  import opened Geometry
  import opened Colors

  /** `ProgressIndicator.Style`. */
  datatype ProgressStyle = HorizontalBar | Pie | Ring | ColouredBar

  /** `min(max(v, 0), 1)`. */
  function Clamp(v: real): (c: real)
    ensures 0.0 <= c <= 1.0
    ensures 0.0 <= v <= 1.0 ==> c == v
    ensures v < 0.0 ==> c == 0.0
    ensures 1.0 < v ==> c == 1.0
  {
    Min(Max(v, 0.0), 1.0)
  }

  /** Clamping twice is clamping once. */
  lemma ClampIdempotent(v: real)
    ensures Clamp(Clamp(v)) == Clamp(v)
  {
  }

  /** One display-link tick on a colour list: the last colour moves to the front. */
  function RotatedRight<T>(s: seq<T>): (r: seq<T>)
    ensures |r| == |s|
  {
    if s == [] then s else [s[|s| - 1]] + s[..|s| - 1]
  }

  /**
   * A tick keeps the length and the colours: the old last colour is the new first, every
   * other colour moves one place on, and an empty list stays empty.
   */
  lemma RotatedRightMoves<T>(s: seq<T>)
    ensures |RotatedRight(s)| == |s| && multiset(RotatedRight(s)) == multiset(s)
    ensures s == [] ==> RotatedRight(s) == []
    ensures s != [] ==> RotatedRight(s)[0] == s[|s| - 1]
    ensures forall j :: 1 <= j < |s| ==> RotatedRight(s)[j] == s[j - 1]
  {
    if s != [] {
      assert s == s[..|s| - 1] + [s[|s| - 1]];
    }
  }

  /** `k` ticks in a row. */
  function Rotations<T>(s: seq<T>, k: nat): (r: seq<T>)
    ensures |r| == |s|
  {
    if k == 0 then s else RotatedRight(Rotations(s, k - 1))
  }

  /** A tick on a list ending in a non-empty `y` brings the last colour of `y` to the front. */
  lemma RotatedConcat<T>(x: seq<T>, y: seq<T>)
    requires y != []
    ensures RotatedRight(x + y) == [y[|y| - 1]] + x + y[..|y| - 1]
  {
    assert (x + y)[..|x + y| - 1] == x + y[..|y| - 1];
  }

  /** After `k` ticks, no more than the list is long, the last `k` colours lead in their old order. */
  lemma {:induction false} RotationsAt<T>(s: seq<T>, k: nat)
    requires k <= |s|
    ensures Rotations(s, k) == s[|s| - k..] + s[..|s| - k]
  {
    if k > 0 {
      var n := |s|;
      RotationsAt(s, k - 1);
      RotatedConcat(s[n - k + 1..], s[..n - k + 1]);
      assert s[..n - k + 1][..n - k] == s[..n - k];
      assert [s[n - k]] + s[n - k + 1..] == s[n - k..];
    }
  }

  /** As many ticks as there are colours bring the list back to where it started. */
  lemma FullTurn<T>(s: seq<T>)
    ensures Rotations(s, |s|) == s
  {
    RotationsAt(s, |s|);
    assert s[..0] == [];
  }

  /** The colours the gradient layer starts with: 360 fully saturated, opaque hues `i / 360`, in order. */
  function HueWheel(): (wheel: seq<Color>)
    ensures |wheel| == 360
    ensures forall i :: 0 <= i < 360 ==> wheel[i] == Hsba(i as real / 360.0, 1.0, 1.0, 1.0)
  {
    seq(360, i requires 0 <= i < 360 => Hsba(i as real / 360.0, 1.0, 1.0, 1.0))
  }

  /** Every hue of the wheel is in [0, 1), and the hues strictly increase around it. */
  lemma HueWheelOrdered(i: nat, j: nat)
    requires i < j < 360
    ensures 0.0 <= HueWheel()[i].hue < HueWheel()[j].hue < 1.0
  {
  }

  class ProgressIndicator {
    const style: ProgressStyle
    /** `_progress`, the storage behind the `progress` property. */
    var progress: real
    /** The colours of the gradient layer. */
    var colors: seq<Color>
    var frame: Rect
    var lineWidth: real

    /** The progress is a fraction. */
    predicate Valid()
      reads this
    {
      0.0 <= progress <= 1.0
    }

    /** `init(style:)`: zero frame, zero progress, line width 1 and the full hue wheel. */
    constructor (style: ProgressStyle)
      ensures this.style == style && progress == 0.0 && frame == Rect(Origin, Zero) && lineWidth == 1.0
      ensures colors == HueWheel()
      ensures Valid()
    {
      this.style := style;
      progress := 0.0;
      colors := HueWheel();
      frame := Rect(Origin, Zero);
      lineWidth := 1.0;
    }

    /** The `progress` setter: stores the value clamped to [0, 1]; assigning the current value back changes nothing. */
    method SetProgress(newValue: real)
      modifies this`progress
      ensures progress == Clamp(newValue)
      ensures Valid()
      ensures old(Valid()) && newValue == old(progress) ==> progress == old(progress)
    {
      progress := Clamp(newValue);
    }

    /** `_handleDisplayLink`: pops the last colour and inserts it at the front; an empty list stays empty. */
    method HandleDisplayLink()
      modifies this`colors
      ensures colors == RotatedRight(old(colors))
    {
      var rotated := colors;
      if |rotated| > 0 {
        var last := rotated[|rotated| - 1];
        rotated := rotated[..|rotated| - 1];
        rotated := [last] + rotated;
      }
      colors := rotated;
    }

    /** The frame `layoutSublayers` gives the gradient layer: the leading `progress` fraction of the bounds. */
    function GradientFrame(): (r: Rect)
      reads this
      ensures r.origin == Origin && r.size.height == frame.Height()
      ensures Valid() ==> 0.0 <= r.size.width <= frame.Width()
      ensures Valid() && progress == 1.0 ==> r.size.width == frame.Width()
    {
      var w := frame.Width();
      assert Valid() ==> 0.0 <= w * progress <= w * 1.0;
      Rect(Origin, Size(w * progress, frame.Height()))
    }

    /** `horizontalBar`: a 180 x 12 bar at the origin. */
    static method MakeHorizontalBar() returns (indicator: ProgressIndicator)
      ensures fresh(indicator) && indicator.style == HorizontalBar && indicator.progress == 0.0
      ensures indicator.frame == Rect(Origin, Size(180.0, 12.0))
    {
      indicator := new ProgressIndicator(HorizontalBar);
      indicator.frame := Rect(Origin, Size(180.0, 12.0));
    }

    /** `pie`: a 37 x 37 square at the origin. */
    static method MakePie() returns (indicator: ProgressIndicator)
      ensures fresh(indicator) && indicator.style == Pie && indicator.progress == 0.0
      ensures indicator.frame == Rect(Origin, Size(37.0, 37.0))
    {
      indicator := new ProgressIndicator(Pie);
      indicator.frame := Rect(Origin, Size(37.0, 37.0));
    }

    /** `ring`: a 37 x 37 square at the origin. */
    static method MakeRing() returns (indicator: ProgressIndicator)
      ensures fresh(indicator) && indicator.style == Ring && indicator.progress == 0.0
      ensures indicator.frame == Rect(Origin, Size(37.0, 37.0))
    {
      indicator := new ProgressIndicator(Ring);
      indicator.frame := Rect(Origin, Size(37.0, 37.0));
    }

    /** `colourredBar`: a 180 x 1 line at the origin. */
    static method MakeColouredBar() returns (indicator: ProgressIndicator)
      ensures fresh(indicator) && indicator.style == ColouredBar && indicator.progress == 0.0
      ensures indicator.frame == Rect(Origin, Size(180.0, 1.0))
    {
      indicator := new ProgressIndicator(ColouredBar);
      indicator.frame := Rect(Origin, Size(180.0, 1.0));
    }
  }

  /** 360 display-link ticks turn the fresh gradient once round the wheel, back to the colours it started with. */
  lemma WheelReturns()
    ensures Rotations(HueWheel(), 360) == HueWheel()
  {
    FullTurn(HueWheel());
  }
}
