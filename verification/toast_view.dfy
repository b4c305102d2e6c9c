/**
 * The toast view: it owns the content view and the ordered component list, edits the list,
 * and lays the components out in one pass (reset the container, place every component in
 * list order, then shift them all so the block starts at its inset origin) before centring
 * the content view in its own bounds.
 */
module Toast {
  import opened Geometry
  import opened LayoutSpec
  import opened Wrappers
  import opened ToastComponent
  import opened Content
  import opened ComponentLayout

  /** `a` and `b` hold the same components in the same order and differ at most in frame origins. */
  predicate SameShape(a: seq<Component>, b: seq<Component>) {
    SameIds(a, b) &&
    forall j :: 0 <= j < |a| ==> a[j].frame.size == b[j].frame.size && a[j].layout == b[j].layout
  }

  predicate DistinctIds(components: seq<Component>) {
    forall i, j :: 0 <= i < j < |components| ==> components[i].id != components[j].id
  }

  predicate AllInsetsNonNegative(components: seq<Component>) {
    forall j :: 0 <= j < |components| ==> components[j].layout.insets.NonNegative()
  }

  predicate AllUpright(components: seq<Component>) {
    forall j :: 0 <= j < |components| ==> components[j].frame.Upright()
  }

  /**
   * The list and the container size after the first `k` components have been laid out in
   * list order, each against the list as the earlier steps left it.
   */
  function LaidOut(components: seq<Component>, container: Size, k: nat): (r: (seq<Component>, Size))
    requires k <= |components|
    ensures |r.0| == |components|
    decreases k
  {
    if k == 0 then (components, container)
    else
      var prior := LaidOut(components, container, k - 1);
      var p := Placing(prior.0[k - 1], prior.0, prior.1);
      (prior.0[k - 1 := Applied(prior.0[k - 1], p)], Grown(prior.1, p))
  }

  /** One more step of `LaidOut`, stated in terms of the step before it. */
  lemma LaidOutStep(components: seq<Component>, container: Size, k: nat)
    requires k < |components|
    ensures var prior := LaidOut(components, container, k);
      var p := Placing(prior.0[k], prior.0, prior.1);
      LaidOut(components, container, k + 1) == (prior.0[k := Applied(prior.0[k], p)], Grown(prior.1, p))
  {
  }

  /** Laying out changes frame origins only, and components not reached yet are untouched. */
  lemma {:induction false} LaidOutShape(components: seq<Component>, container: Size, k: nat)
    requires k <= |components|
    ensures SameShape(LaidOut(components, container, k).0, components)
    ensures forall j :: k <= j < |components| ==> LaidOut(components, container, k).0[j] == components[j]
    decreases k
  {
    if 0 < k {
      LaidOutShape(components, container, k - 1);
      LaidOutStep(components, container, k - 1);
    }
  }

  /** How far a component's inset box reaches to the left / to the top. */
  function LeftEdge(c: Component): real { c.frame.MinX() - c.layout.insets.left }

  function TopEdge(c: Component): real { c.frame.MinY() - c.layout.insets.top }

  /**
   * The `reduce` seeded with `(0, 0)`: the componentwise minimum of zero and every
   * component's left and top edge.
   */
  function MinOffset(components: seq<Component>): (p: Point)
    ensures p.x <= 0.0 && p.y <= 0.0
    ensures forall j :: 0 <= j < |components| ==> p.x <= LeftEdge(components[j]) && p.y <= TopEdge(components[j])
    ensures p.x == 0.0 || exists j :: 0 <= j < |components| && p.x == LeftEdge(components[j])
    ensures p.y == 0.0 || exists j :: 0 <= j < |components| && p.y == TopEdge(components[j])
  {
    if components == [] then Origin
    else
      var init := components[..|components| - 1];
      var last := components[|components| - 1];
      assert forall j :: 0 <= j < |init| ==> init[j] == components[j];
      var p := MinOffset(init);
      Point(Min(p.x, LeftEdge(last)), Min(p.y, TopEdge(last)))
  }

  /** `frame.origin.x -= shift.x; frame.origin.y -= shift.y`. */
  function Translated(c: Component, shift: Point): Component {
    c.(frame := c.frame.MovedTo(Point(c.frame.origin.x - shift.x, c.frame.origin.y - shift.y)))
  }

  /** Every component moved by the same shift. */
  function ShiftAll(components: seq<Component>, shift: Point): (r: seq<Component>)
    ensures |r| == |components|
    ensures forall j :: 0 <= j < |r| ==> r[j] == Translated(components[j], shift)
  {
    seq(|components|, j requires 0 <= j < |components| => Translated(components[j], shift))
  }

  /** Every component moved by the minimum offset, as the second loop of the pass does. */
  function Normalised(components: seq<Component>): (r: seq<Component>)
    ensures |r| == |components|
  {
    ShiftAll(components, MinOffset(components))
  }

  /** `_layoutContentViews` from a given list: the final list and the final content size. */
  function Pass(components: seq<Component>): (r: (seq<Component>, Size))
    ensures |r.0| == |components|
  {
    var laid := LaidOut(components, Zero, |components|);
    (Normalised(laid.0), laid.1)
  }

  /** The origin that centres a content view of size `content` in bounds of size `bounds`. */
  function CentredOrigin(bounds: Size, content: Size): (p: Point)
    ensures p.x + Abs(content.width) * 0.5 == Abs(bounds.width) * 0.5
    ensures p.y + Abs(content.height) * 0.5 == Abs(bounds.height) * 0.5
  {
    Point(Abs(bounds.width) * 0.5 - Abs(content.width) * 0.5, Abs(bounds.height) * 0.5 - Abs(content.height) * 0.5)
  }

  class ToastView {
    /** `_components`, in layout order. */
    var components: seq<Component>
    /** `_contentView`: created once and never replaced. */
    const contentView: ContentView
    /** The toast view's own bounds size, set by whoever presents it. */
    var bounds: Size
    /** Opacity of the dimming background. */
    var opacity: real

    constructor (frame: Rect)
      ensures components == [] && bounds == frame.size && opacity == 0.0
      ensures fresh(contentView) && contentView.size == Zero && contentView.style == Normal(0.3)
    {
      components := [];
      contentView := new ContentView();
      bounds := frame.size;
      opacity := 0.0;
    }

    /** `add(component:)`: appends at the end. */
    method Add(component: Component)
      modifies this`components
      ensures components == old(components) + [component]
    {
      components := components + [component];
    }

    /** `remove(component:)`: deletes the first entry with the component's identity, if there is one. */
    method Remove(component: Component) returns (removed: bool)
      modifies this`components
      ensures removed <==> Contains(old(components), component.id)
      ensures !removed ==> components == old(components)
      ensures removed ==> exists i :: IsFirstAt(old(components), component.id, i) &&
                                      components == old(components)[..i] + old(components)[i + 1..]
    {
      FirstIndexFinds(components, component.id);
      match FirstIndex(components, component.id) {
        case None =>
          return false;
        case Some(i) =>
          components := components[..i] + components[i + 1..];
          return true;
      }
    }

    /** `set(components:)`: replaces the whole list. */
    method Set(newComponents: seq<Component>)
      modifies this`components
      ensures components == newComponents
    {
      components := newComponents;
    }

    /**
     * `_layoutContentViews`: resets the content size to zero, lays every component out once in
     * list order against the live list, then subtracts the minimum offset from every origin.
     */
    method LayoutContentViews()
      modifies this`components, contentView`size
      ensures components == Pass(old(components)).0
      ensures contentView.size == Pass(old(components)).1
    {
      contentView.SetSize(Zero);
      var i := 0;
      while i < |components|
        invariant 0 <= i <= |components| == |old(components)|
        invariant components == LaidOut(old(components), Zero, i).0
        invariant contentView.size == LaidOut(old(components), Zero, i).1
      {
        LaidOutStep(old(components), Zero, i);
        var laidOut := LayoutIn(components[i], contentView, components);
        components := components[i := laidOut];
        i := i + 1;
      }
      var shift := MinOffset(components);
      ghost var laid, laidSize := components, contentView.size;
      i := 0;
      while i < |components|
        invariant |components| == |laid| && 0 <= i <= |laid|
        invariant forall j :: 0 <= j < i ==> components[j] == Translated(laid[j], shift)
        invariant forall j :: i <= j < |laid| ==> components[j] == laid[j]
        invariant contentView.size == laidSize
      {
        components := components[i := Translated(components[i], shift)];
        i := i + 1;
      }
      assert components == ShiftAll(laid, shift);
    }

    /** `layoutSubviews`: a layout pass, then the content view is centred in the toast's bounds. */
    method LayoutSubviews()
      modifies this`components, contentView`size, contentView`origin
      ensures components == Pass(old(components)).0
      ensures contentView.size == Pass(old(components)).1
      ensures contentView.origin == CentredOrigin(bounds, contentView.size)
    {
      LayoutContentViews();
      contentView.origin := CentredOrigin(bounds, contentView.size);
    }
  }

  // ---------------------------------------------------------------------------------------
  // Properties of a layout pass.

  /** A pass over an empty list places nothing and leaves the content size at zero. */
  lemma EmptyPass()
    ensures Pass([]) == ([], Zero)
  {
  }

  /** A step writes only the component it lays out: entries before `k` keep what they had after step `k`. */
  lemma {:induction false} LaidOutPrefixStable(components: seq<Component>, container: Size, k: nat, m: nat)
    requires k <= m <= |components|
    ensures forall j :: 0 <= j < k ==> LaidOut(components, container, m).0[j] == LaidOut(components, container, k).0[j]
    decreases m
  {
    if k < m {
      LaidOutPrefixStable(components, container, k, m - 1);
      var prior := LaidOut(components, container, m - 1);
      var p := Placing(prior.0[m - 1], prior.0, prior.1);
      assert LaidOut(components, container, m).0 == prior.0[m - 1 := Applied(prior.0[m - 1], p)];
    }
  }

  /** Before normalisation the first component sits at its own inset origin. */
  lemma StartAnchored(components: seq<Component>)
    requires components != []
    ensures LaidOut(components, Zero, |components|).0[0].frame.origin ==
            Point(components[0].layout.insets.left, components[0].layout.insets.top)
  {
    StartAnchoredAtInsets(components[0], components, Zero);
    LaidOutPrefixStable(components, Zero, 1, |components|);
  }

  /** Moving two components by the same shift keeps one beside the other. */
  lemma TranslatedBeside(previous: Component, c: Component, shift: Point)
    requires Beside(previous, c)
    ensures Beside(Translated(previous, shift), Translated(c, shift))
  {
  }

  /**
   * The pass builds a chain: when each component appears once and no size is negative,
   * every component ends beside the one before it in the list, before and after normalisation.
   */
  lemma {:induction false} PassChainsComponents(components: seq<Component>)
    requires DistinctIds(components) && AllUpright(components)
    ensures forall k :: 0 < k < |components| ==>
      Beside(LaidOut(components, Zero, |components|).0[k - 1], LaidOut(components, Zero, |components|).0[k])
    ensures forall k :: 0 < k < |components| ==> Beside(Pass(components).0[k - 1], Pass(components).0[k])
  {
    var n := |components|;
    var laid := LaidOut(components, Zero, n).0;
    forall k | 0 < k < n
      ensures Beside(laid[k - 1], laid[k])
    {
      var prior := LaidOut(components, Zero, k);
      LaidOutShape(components, Zero, k);
      assert prior.0[k] == components[k];
      assert IsFirstAt(prior.0, components[k].id, k);
      PlacedBesidePredecessor(prior.0[k], prior.0, prior.1, k);
      LaidOutStep(components, Zero, k);
      LaidOutPrefixStable(components, Zero, k + 1, n);
    }
    var shift := MinOffset(laid);
    forall k | 0 < k < n
      ensures Beside(Pass(components).0[k - 1], Pass(components).0[k])
    {
      TranslatedBeside(laid[k - 1], laid[k], shift);
    }
  }

  /** Moving a component by `shift` moves its left and top edges by the same amount. */
  lemma TranslatedEdges(c: Component, shift: Point)
    ensures LeftEdge(Translated(c, shift)) == LeftEdge(c) - shift.x
    ensures TopEdge(Translated(c, shift)) == TopEdge(c) - shift.y
  {
  }

  /**
   * Normalisation pins the block: afterwards no inset box reaches left of or above zero, the
   * minimum is exactly zero on each axis where it was negative, and a block already inside
   * is left where it is.
   */
  lemma NormalisedEdges(components: seq<Component>)
    ensures forall j :: 0 <= j < |components| ==>
      0.0 <= LeftEdge(Normalised(components)[j]) && 0.0 <= TopEdge(Normalised(components)[j])
    ensures (exists j :: 0 <= j < |components| && LeftEdge(components[j]) < 0.0) ==>
      exists j :: 0 <= j < |components| && LeftEdge(Normalised(components)[j]) == 0.0
    ensures (exists j :: 0 <= j < |components| && TopEdge(components[j]) < 0.0) ==>
      exists j :: 0 <= j < |components| && TopEdge(Normalised(components)[j]) == 0.0
    ensures (forall j :: 0 <= j < |components| ==> 0.0 <= LeftEdge(components[j]) && 0.0 <= TopEdge(components[j])) ==>
      Normalised(components) == components
  {
    var shift := MinOffset(components);
    var normalised := Normalised(components);
    forall j | 0 <= j < |components|
      ensures LeftEdge(normalised[j]) == LeftEdge(components[j]) - shift.x
      ensures TopEdge(normalised[j]) == TopEdge(components[j]) - shift.y
    {
      TranslatedEdges(components[j], shift);
    }
    if forall j :: 0 <= j < |components| ==> 0.0 <= LeftEdge(components[j]) && 0.0 <= TopEdge(components[j]) {
      assert shift == Origin;
      assert normalised == components;
    }
  }

  /** Before the shift, the inset box of an upright start component touches zero on both axes. */
  lemma StartEdgesZero(components: seq<Component>)
    requires components != [] && components[0].frame.Upright()
    ensures LeftEdge(LaidOut(components, Zero, |components|).0[0]) == 0.0
    ensures TopEdge(LaidOut(components, Zero, |components|).0[0]) == 0.0
  {
    StartAnchored(components);
    LaidOutShape(components, Zero, |components|);
  }

  /** When some inset box touches zero on both axes, normalisation keeps an inset box touching zero on each axis. */
  lemma NormalisedTouchesZero(components: seq<Component>, k: nat)
    requires k < |components| && LeftEdge(components[k]) == 0.0 && TopEdge(components[k]) == 0.0
    ensures exists j :: 0 <= j < |components| && LeftEdge(Normalised(components)[j]) == 0.0
    ensures exists j :: 0 <= j < |components| && TopEdge(Normalised(components)[j]) == 0.0
  {
    var shift := MinOffset(components);
    var normalised := Normalised(components);
    var jx := if shift.x == 0.0 then k else var j :| 0 <= j < |components| && shift.x == LeftEdge(components[j]); j;
    TranslatedEdges(components[jx], shift);
    assert LeftEdge(normalised[jx]) == 0.0;
    var jy := if shift.y == 0.0 then k else var j :| 0 <= j < |components| && shift.y == TopEdge(components[j]); j;
    TranslatedEdges(components[jy], shift);
    assert TopEdge(normalised[jy]) == 0.0;
  }

  /**
   * After a whole pass the block is pinned at zero: no inset box reaches left of or above zero,
   * and on each axis some inset box touches zero exactly, so the minimum edge is zero.
   */
  lemma PassTouchesZero(components: seq<Component>)
    requires components != [] && components[0].frame.Upright()
    ensures forall j :: 0 <= j < |components| ==>
      0.0 <= LeftEdge(Pass(components).0[j]) && 0.0 <= TopEdge(Pass(components).0[j])
    ensures exists j :: 0 <= j < |components| && LeftEdge(Pass(components).0[j]) == 0.0
    ensures exists j :: 0 <= j < |components| && TopEdge(Pass(components).0[j]) == 0.0
  {
    var laid := LaidOut(components, Zero, |components|).0;
    StartEdgesZero(components);
    NormalisedEdges(laid);
    NormalisedTouchesZero(laid, 0);
    assert Pass(components).0 == Normalised(laid);
  }

  /** Normalisation moves every component by the same vector, so offsets between components and all sizes are kept. */
  lemma NormalisedKeepsOffsets(components: seq<Component>, i: nat, j: nat)
    requires i < |components| && j < |components|
    ensures SameShape(Normalised(components), components)
    ensures Normalised(components)[i].frame.origin.x - Normalised(components)[j].frame.origin.x ==
            components[i].frame.origin.x - components[j].frame.origin.x
    ensures Normalised(components)[i].frame.origin.y - Normalised(components)[j].frame.origin.y ==
            components[i].frame.origin.y - components[j].frame.origin.y
  {
  }

  /** With insets that are not negative, the content size never shrinks during a pass. */
  lemma {:induction false} ContainerNeverShrinks(components: seq<Component>, container: Size, j: nat, k: nat)
    requires AllInsetsNonNegative(components) && j <= k <= |components|
    ensures LaidOut(components, container, j).1.Within(LaidOut(components, container, k).1)
    decreases k
  {
    if j < k {
      ContainerNeverShrinks(components, container, j, k - 1);
      var prior := LaidOut(components, container, k - 1);
      LaidOutShape(components, container, k - 1);
      LaidOutStep(components, container, k - 1);
      PlacingOutcome(prior.0[k - 1], prior.0, prior.1);
      assert prior.0[k - 1].layout == components[k - 1].layout;
    }
  }

  /**
   * A placement reads only the identities, sizes and specs of the list and the origins of the
   * entries before the component, so two lists that agree before `k` move component `k` to the
   * same place.
   */
  lemma PlacingDependsOnPrefix(a: seq<Component>, b: seq<Component>, k: nat, container: Size)
    requires SameShape(a, b) && k < |a|
    requires forall j :: 0 <= j < k ==> a[j] == b[j]
    ensures Placing(a[k], a, container) == Placing(b[k], b, container)
    ensures Applied(a[k], Placing(a[k], a, container)) == Applied(b[k], Placing(b[k], b, container))
  {
    var id := a[k].id;
    FirstIndexByIds(a, b, id);
    FirstIndexFinds(a, id);
    var i := FirstIndex(a, id).value;
    assert i <= k;
    if 0 < i {
      assert a[i - 1] == b[i - 1];
    }
  }

  /** The outcome of a pass does not depend on where the components were before it. */
  lemma {:induction false} OriginsIrrelevant(a: seq<Component>, b: seq<Component>, container: Size, k: nat)
    requires SameShape(a, b) && k <= |a|
    ensures LaidOut(a, container, k).1 == LaidOut(b, container, k).1
    ensures forall j :: 0 <= j < k ==> LaidOut(a, container, k).0[j] == LaidOut(b, container, k).0[j]
    decreases k
  {
    if 0 < k {
      OriginsIrrelevant(a, b, container, k - 1);
      var pa, pb := LaidOut(a, container, k - 1), LaidOut(b, container, k - 1);
      assert SameShape(pa.0, pb.0) by {
        LaidOutShape(a, container, k - 1);
        LaidOutShape(b, container, k - 1);
      }
      PlacingDependsOnPrefix(pa.0, pb.0, k - 1, pa.1);
      LaidOutStep(a, container, k - 1);
      LaidOutStep(b, container, k - 1);
    }
  }

  /** Laying out an unchanged list a second time gives the same frames and the same content size. */
  lemma PassIdempotent(components: seq<Component>)
    ensures Pass(Pass(components).0) == Pass(components)
  {
    var n := |components|;
    var once := Pass(components).0;
    var laid := LaidOut(components, Zero, n).0;
    assert SameShape(once, components) by {
      LaidOutShape(components, Zero, n);
      assert forall j :: 0 <= j < n ==> once[j] == Translated(laid[j], MinOffset(laid));
    }
    OriginsIrrelevant(once, components, Zero, n);
    assert LaidOut(once, Zero, n).0 == laid;
  }

  /** The first step on three components without insets: A (40 x 20) starts the chain at the origin. */
  lemma ConflictStartStep(a: Component, b: Component, c: Component)
    requires a == Component(0, Rect(Origin, Size(40.0, 20.0)), Layout(Uniform(0.0), VerticalAt(Bottom), Center))
    requires b.id == 1 && c.id == 2
    ensures LaidOut([a, b, c], Zero, 1) == ([a.(frame := Rect(Point(0.0, 0.0), a.frame.size)), b, c], Size(40.0, 20.0))
  {
    var cs := [a, b, c];
    LaidOutStep(cs, Zero, 0);
    assert FirstIndex(cs, 0) == Some(0);
    assert Placing(a, cs, Zero) == Placed(Point(0.0, 0.0), Size(40.0, 20.0));
    assert cs[0 := a.(frame := Rect(Point(0.0, 0.0), a.frame.size))] ==
           [a.(frame := Rect(Point(0.0, 0.0), a.frame.size)), b, c];
  }

  /**
   * The first two steps: after A, B (30 x 20), which prefers the right of its predecessor,
   * lands at x = 40.
   */
  lemma ConflictFirstSteps(a: Component, b: Component, c: Component)
    requires a == Component(0, Rect(Origin, Size(40.0, 20.0)), Layout(Uniform(0.0), VerticalAt(Bottom), Center))
    requires b == Component(1, Rect(Origin, Size(30.0, 20.0)), Layout(Uniform(0.0), HorizontalAt(Right), Center))
    requires c.id == 2
    ensures LaidOut([a, b, c], Zero, 2) ==
            ([a.(frame := Rect(Point(0.0, 0.0), a.frame.size)), b.(frame := Rect(Point(40.0, 0.0), b.frame.size)), c],
             Size(70.0, 20.0))
  {
    var cs := [a, b, c];
    var a' := a.(frame := Rect(Point(0.0, 0.0), a.frame.size));
    var one := [a', b, c];
    ConflictStartStep(a, b, c);
    LaidOutStep(cs, Zero, 1);
    assert one[1..] == [b, c];
    assert FirstIndex(one, 1) == Some(1);
    assert Placing(b, one, Size(40.0, 20.0)) == Placed(Point(40.0, 0.0), Size(30.0, 0.0));
    assert one[1 := b.(frame := Rect(Point(40.0, 0.0), b.frame.size))] ==
           [a', b.(frame := Rect(Point(40.0, 0.0), b.frame.size)), c];
  }

  /** The third step: C (20 x 20), which prefers the left of its predecessor, lands at x = 20. */
  lemma ConflictLastStep(a: Component, b: Component, c: Component)
    requires a == Component(0, Rect(Origin, Size(40.0, 20.0)), Layout(Uniform(0.0), VerticalAt(Bottom), Center))
    requires b == Component(1, Rect(Origin, Size(30.0, 20.0)), Layout(Uniform(0.0), HorizontalAt(Right), Center))
    requires c == Component(2, Rect(Origin, Size(20.0, 20.0)), Layout(Uniform(0.0), HorizontalAt(Left), Center))
    ensures LaidOut([a, b, c], Zero, 3) ==
            ([a.(frame := Rect(Point(0.0, 0.0), a.frame.size)), b.(frame := Rect(Point(40.0, 0.0), b.frame.size)),
              c.(frame := Rect(Point(20.0, 0.0), c.frame.size))], Size(90.0, 20.0))
  {
    var cs := [a, b, c];
    var a' := a.(frame := Rect(Point(0.0, 0.0), a.frame.size));
    var b' := b.(frame := Rect(Point(40.0, 0.0), b.frame.size));
    var two := [a', b', c];
    ConflictFirstSteps(a, b, c);
    LaidOutStep(cs, Zero, 2);
    assert two[1..] == [b', c] && two[1..][1..] == [c];
    assert FirstIndex([c], 2) == Some(0);
    assert FirstIndex(two, 2) == Some(2);
    assert two[2 := c.(frame := Rect(Point(20.0, 0.0), c.frame.size))] ==
           [a', b', c.(frame := Rect(Point(20.0, 0.0), c.frame.size))];
  }

  /**
   * Three components without insets: A (40 x 20) starts the chain, B (30 x 20) prefers the
   * right of its predecessor and C (20 x 20) its left. B lands at x = 40 and C lands left of B
   * at x = 20, over A, although B went right and has a predecessor: the conditional flip to
   * B's right is always overridden. Nothing reaches left of or above zero, so normalisation
   * moves nothing.
   */
  lemma AxisConflictExample(a: Component, b: Component, c: Component)
    requires a == Component(0, Rect(Origin, Size(40.0, 20.0)), Layout(Uniform(0.0), VerticalAt(Bottom), Center))
    requires b == Component(1, Rect(Origin, Size(30.0, 20.0)), Layout(Uniform(0.0), HorizontalAt(Right), Center))
    requires c == Component(2, Rect(Origin, Size(20.0, 20.0)), Layout(Uniform(0.0), HorizontalAt(Left), Center))
    ensures Pass([a, b, c]).0[0].frame.origin == Point(0.0, 0.0)
    ensures Pass([a, b, c]).0[1].frame.origin == Point(40.0, 0.0)
    ensures Pass([a, b, c]).0[2].frame.origin == Point(20.0, 0.0)
    ensures Pass([a, b, c]).1 == Size(90.0, 20.0)
  {
    ConflictLastStep(a, b, c);
    NormalisedEdges(LaidOut([a, b, c], Zero, 3).0);
  }
}
