/**
 * The placement of one component view (`View.layout(in:provider:)`): the start component is
 * anchored at its own insets; every later component is put beside its immediate predecessor
 * on the axis and edge it prefers, copying the predecessor's origin on the other axis, and the
 * container grows to take it in.
 */
module ComponentLayout {
  import opened Geometry
  import opened LayoutSpec
  import opened Wrappers
  import opened ToastComponent
  import opened Content

  /** The default spec of a component view: 10 on every side, below its predecessor. */
  function ViewDefaultLayout(): (l: Layout)
    ensures l.insets == Uniform(10.0)
    ensures l.distribution == VerticalAt(Bottom)
  {
    Layout(Uniform(10.0), VerticalAt(Bottom), Center)
  }

  /** What one placement does: nothing, or a new origin for the component and a growth of the container. */
  datatype Placement = Skipped | Placed(origin: Point, growth: Size)

  /** `_layoutOnLeft`: left of the predecessor, separated by the component's own horizontal insets. */
  function LeftOf(previous: Component, c: Component): (p: Point)
    ensures c.frame.Upright() ==>
      c.frame.MovedTo(p).MaxX() + c.layout.insets.Width() == previous.frame.origin.x && p.y == previous.frame.origin.y
  {
    Point(previous.frame.origin.x - c.layout.insets.Width() - c.frame.Width(), previous.frame.origin.y)
  }

  /** `_layoutOnRight`: right of the predecessor, after its right inset and the component's left inset. */
  function RightOf(previous: Component, c: Component): (p: Point)
    ensures c.frame.Upright() ==>
      c.frame.MovedTo(p).MinX() == previous.frame.MaxX() + previous.layout.insets.right + c.layout.insets.left &&
      p.y == previous.frame.origin.y
  {
    Point(previous.frame.MaxX() + previous.layout.insets.right + c.layout.insets.left, previous.frame.origin.y)
  }

  /** `_layoutOnTop`: above the predecessor, separated by the component's own vertical insets. */
  function Above(previous: Component, c: Component): (p: Point)
    ensures c.frame.Upright() ==>
      c.frame.MovedTo(p).MaxY() + c.layout.insets.Height() == previous.frame.origin.y && p.x == previous.frame.origin.x
  {
    Point(previous.frame.origin.x, previous.frame.origin.y - c.layout.insets.Height() - c.frame.Height())
  }

  /** `_layoutOnBottom`: below the predecessor, after its bottom inset and the component's top inset. */
  function Below(previous: Component, c: Component): (p: Point)
    ensures c.frame.Upright() ==>
      c.frame.MovedTo(p).MinY() == previous.frame.MaxY() + previous.layout.insets.bottom + c.layout.insets.top &&
      p.x == previous.frame.origin.x
  {
    Point(previous.frame.origin.x, previous.frame.MaxY() + previous.layout.insets.bottom + c.layout.insets.top)
  }

  /**
   * What `layout(in:provider:)` does to `c`, given the provider's list and the container's
   * current size, stated directly on the first occurrence of `c`: the first entry is anchored,
   * any later one goes beside the entry just before it.
   */
  function Placing(c: Component, provider: seq<Component>, container: Size): (r: Placement)
    ensures r.Placed? && c.layout.insets.NonNegative() ==> 0.0 <= r.growth.width && 0.0 <= r.growth.height
  {
    var insets := c.layout.insets;
    match FirstIndex(provider, c.id)
    case None => Skipped
    case Some(i) =>
      if i == 0 then
        Placed(Point(insets.left, insets.top), Size(c.frame.Width() + insets.Width(), c.frame.Height() + insets.Height()))
      else
        var prev := provider[i - 1];
        match c.layout.distribution
        case HorizontalAt(position) =>
          Placed(if position == Left then LeftOf(prev, c) else RightOf(prev, c),
                 Size(c.frame.Width() + insets.Width(), Max(c.frame.Height() - prev.frame.Height(), 0.0)))
        case VerticalAt(position) =>
          Placed(if position == Top then Above(prev, c) else Below(prev, c),
                 Size(Max(c.frame.Width() + insets.Width() - container.width, 0.0), c.frame.Height() + insets.Height()))
  }

  /** The component after a placement: only the origin of its frame is written. */
  function Applied(c: Component, p: Placement): (r: Component)
    ensures r.id == c.id && r.frame.size == c.frame.size && r.layout == c.layout
    ensures p.Skipped? ==> r == c
  {
    if p.Placed? then c.(frame := c.frame.MovedTo(p.origin)) else c
  }

  /** The container size after a placement. */
  function Grown(container: Size, p: Placement): (r: Size)
    ensures p.Skipped? ==> r == container
    ensures p.Placed? && 0.0 <= p.growth.width && 0.0 <= p.growth.height ==> container.Within(r)
  {
    if p.Placed? then container.Plus(p.growth) else container
  }

  /**
   * The only component a placement skips is one the provider does not hold, and with insets
   * that are not negative a placement never shrinks the container.
   */
  lemma PlacingOutcome(c: Component, provider: seq<Component>, container: Size)
    ensures Placing(c, provider, container).Skipped? <==> !Contains(provider, c.id)
    ensures var p := Placing(c, provider, container);
      p.Placed? && c.layout.insets.NonNegative() ==> 0.0 <= p.growth.width && 0.0 <= p.growth.height
    ensures !Contains(provider, c.id) ==>
      Applied(c, Placing(c, provider, container)) == c && Grown(container, Placing(c, provider, container)) == container
  {
    FirstIndexFinds(provider, c.id);
  }

  /**
   * `View.layout(in:provider:)`, step by step as written, including the conditional "flip"
   * calls that the unconditional call on the next line always overrides. Returns the
   * component with its new frame and extends `container`.
   */
  method LayoutIn(c: Component, container: ContentView, provider: seq<Component>) returns (laidOut: Component)
    modifies container`size
    ensures laidOut == Applied(c, Placing(c, provider, old(container.size)))
    ensures container.size == Grown(old(container.size), Placing(c, provider, old(container.size)))
  {
    var order := OrderFor(provider, c);
    if order.Failure? {
      return c;
    }
    var insets := c.layout.insets;
    match order.value {
      case Start =>
        laidOut := c.(frame := c.frame.MovedTo(Point(insets.left, insets.top)));
        container.Extends(Size(c.frame.Width() + insets.Width(), c.frame.Height() + insets.Height()));
      case _ =>
        var previous := PreviousComponents(provider, c);
        if previous == [] {
          return c;
        }
        var prev := previous[|previous| - 1];
        var hasPrePrevious := PreviousComponents(provider, prev) != [];
        var origin := c.frame.origin;
        match c.layout.distribution {
          case HorizontalAt(position) =>
            if position == Left {
              if prev.layout.distribution == HorizontalAt(Right) && hasPrePrevious {
                origin := RightOf(prev, c);
              }
              origin := LeftOf(prev, c);
            } else {
              if prev.layout.distribution == HorizontalAt(Left) && hasPrePrevious {
                origin := LeftOf(prev, c);
              }
              origin := RightOf(prev, c);
            }
            laidOut := c.(frame := c.frame.MovedTo(origin));
            container.Extends(Size(c.frame.Width() + insets.Width(), Max(c.frame.Height() - prev.frame.Height(), 0.0)));
          case VerticalAt(position) =>
            if position == Top {
              if prev.layout.distribution == VerticalAt(Bottom) && hasPrePrevious {
                origin := Below(prev, c);
              }
              origin := Above(prev, c);
            } else {
              if prev.layout.distribution == VerticalAt(Top) && hasPrePrevious {
                origin := Above(prev, c);
              }
              origin := Below(prev, c);
            }
            laidOut := c.(frame := c.frame.MovedTo(origin));
            container.Extends(Size(Max(c.frame.Width() + insets.Width() - container.size.width, 0.0),
                                   c.frame.Height() + insets.Height()));
        }
    }
  }

  /**
   * `c` sits beside `previous` as its distribution asks: on the primary axis the facing edges
   * are separated by the insets the engine uses, and on the other axis the origins agree.
   */
  predicate Beside(previous: Component, c: Component) {
    var insets := c.layout.insets;
    match c.layout.distribution
    case HorizontalAt(Left) =>
      c.frame.MaxX() + insets.Width() == previous.frame.MinX() && c.frame.origin.y == previous.frame.origin.y
    case HorizontalAt(Right) =>
      c.frame.MinX() == previous.frame.MaxX() + previous.layout.insets.right + insets.left &&
      c.frame.origin.y == previous.frame.origin.y
    case VerticalAt(Top) =>
      c.frame.MaxY() + insets.Height() == previous.frame.MinY() && c.frame.origin.x == previous.frame.origin.x
    case VerticalAt(Bottom) =>
      c.frame.MinY() == previous.frame.MaxY() + previous.layout.insets.bottom + insets.top &&
      c.frame.origin.x == previous.frame.origin.x
  }

  /** The start component goes to its own inset origin and the container grows by its size plus its insets. */
  lemma StartAnchoredAtInsets(c: Component, provider: seq<Component>, container: Size)
    requires IsFirstAt(provider, c.id, 0)
    ensures var p := Placing(c, provider, container);
      p.Placed? &&
      Applied(c, p).frame.origin == Point(c.layout.insets.left, c.layout.insets.top) &&
      Grown(container, p).width == container.width + c.frame.Width() + c.layout.insets.Width() &&
      Grown(container, p).height == container.height + c.frame.Height() + c.layout.insets.Height()
  {
    FirstIndexFinds(provider, c.id);
  }

  /**
   * Every later component lands beside the entry just before its first occurrence, whatever
   * that predecessor prefers and whether or not the predecessor has a predecessor itself.
   */
  lemma PlacedBesidePredecessor(c: Component, provider: seq<Component>, container: Size, i: nat)
    requires 0 < i && IsFirstAt(provider, c.id, i)
    requires c.frame.Upright() && provider[i - 1].frame.Upright()
    ensures Placing(c, provider, container).Placed?
    ensures Beside(provider[i - 1], Applied(c, Placing(c, provider, container)))
  {
    FirstIndexFinds(provider, c.id);
    FirstIsUnique(provider, c.id, i, FirstIndex(provider, c.id).value);
  }

  /** With insets that are not negative, a component beside its predecessor does not overlap it on the primary axis. */
  lemma BesideDoesNotOverlap(previous: Component, c: Component)
    requires Beside(previous, c)
    requires c.layout.insets.NonNegative() && previous.layout.insets.NonNegative()
    ensures c.layout.distribution == HorizontalAt(Left) ==> c.frame.MaxX() <= previous.frame.MinX()
    ensures c.layout.distribution == HorizontalAt(Right) ==> previous.frame.MaxX() <= c.frame.MinX()
    ensures c.layout.distribution == VerticalAt(Top) ==> c.frame.MaxY() <= previous.frame.MinY()
    ensures c.layout.distribution == VerticalAt(Bottom) ==> previous.frame.MaxY() <= c.frame.MinY()
  {
  }

  /**
   * A vertical step widens the container only as far as the component and its horizontal
   * insets need and stacks its height; a horizontal step adds its width and as much height
   * as the component is taller than its predecessor.
   */
  lemma NonStartGrowth(c: Component, provider: seq<Component>, container: Size, i: nat)
    requires 0 < i && IsFirstAt(provider, c.id, i)
    ensures var grown := Grown(container, Placing(c, provider, container));
      var extent := c.frame.Width() + c.layout.insets.Width();
      (c.layout.distribution.VerticalAt? ==>
         grown.width == Max(container.width, extent) &&
         grown.height == container.height + c.frame.Height() + c.layout.insets.Height()) &&
      (c.layout.distribution.HorizontalAt? ==>
         grown.width == container.width + extent &&
         grown.height == container.height + Max(c.frame.Height() - provider[i - 1].frame.Height(), 0.0))
  {
    FirstIndexFinds(provider, c.id);
    FirstIsUnique(provider, c.id, i, FirstIndex(provider, c.id).value);
  }

  /**
   * Only the predecessor itself matters: the placement is the same when every entry before
   * the predecessor is dropped, so whether a pre-predecessor exists changes nothing.
   */
  lemma PrePredecessorIrrelevant(c: Component, provider: seq<Component>, container: Size, i: nat)
    requires 0 < i && IsFirstAt(provider, c.id, i)
    ensures Placing(c, provider[i - 1..], container) == Placing(c, provider, container)
  {
    FirstIndexFinds(provider, c.id);
    FirstIsUnique(provider, c.id, i, FirstIndex(provider, c.id).value);
    var suffix := provider[i - 1..];
    assert IsFirstAt(suffix, c.id, 1);
    FirstIndexFinds(suffix, c.id);
    FirstIsUnique(suffix, c.id, 1, FirstIndex(suffix, c.id).value);
  }

  /**
   * The predecessor's own preferred direction never matters: giving it any other distribution
   * leaves the placement as it was.
   */
  lemma PredecessorDirectionIrrelevant(c: Component, provider: seq<Component>, container: Size, i: nat, d: Distribution)
    requires 0 < i && IsFirstAt(provider, c.id, i)
    ensures var previous := provider[i - 1];
      Placing(c, provider[i - 1 := previous.(layout := previous.layout.(distribution := d))], container) ==
      Placing(c, provider, container)
  {
    var previous := provider[i - 1];
    var changed := provider[i - 1 := previous.(layout := previous.layout.(distribution := d))];
    assert SameIds(changed, provider);
    FirstIndexByIds(changed, provider, c.id);
    FirstIndexFinds(provider, c.id);
    FirstIsUnique(provider, c.id, i, FirstIndex(provider, c.id).value);
  }
}
