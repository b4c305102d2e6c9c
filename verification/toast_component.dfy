/**
 * Toast components and the sequence provider's default queries: the order role of a
 * component in the list and the components before and after it. Swift's reference
 * identity (`===`) is modelled by a stable component id.
 */
module ToastComponent {
  import opened Geometry
  import opened LayoutSpec
  import opened Wrappers

  /** Stands for the identity of a component object. */
  type ComponentId = nat

  /** A component as the layout engine sees it: its identity, its frame and its layout spec. */
  datatype Component = Component(id: ComponentId, frame: Rect, layout: Layout)

  /** `ToastComponentOrder`. */
  datatype Order = Start | Middle(index: nat) | End

  /** `ToastError`. */
  datatype ToastError = ComponentNotInContainer(component: ComponentId)

  /** Some entry of `components` is the component with identity `id`. */
  predicate Contains(components: seq<Component>, id: ComponentId) {
    exists j :: 0 <= j < |components| && components[j].id == id
  }

  /** Index `i` is the first entry of `components` with identity `id`. */
  predicate IsFirstAt(components: seq<Component>, id: ComponentId, i: int) {
    0 <= i < |components| && components[i].id == id &&
    forall j :: 0 <= j < i ==> components[j].id != id
  }

  lemma FirstIsUnique(components: seq<Component>, id: ComponentId, i: int, k: int)
    requires IsFirstAt(components, id, i) && IsFirstAt(components, id, k)
    ensures i == k
  {
  }

  /** `components.index(where: { $0 === component })`: the first entry with identity `id`, if any. */
  function FirstIndex(components: seq<Component>, id: ComponentId): (r: Option<nat>)
    ensures r.Some? ==> r.value < |components|
  {
    if |components| == 0 then None
    else if components[0].id == id then Some(0)
    else
      match FirstIndex(components[1..], id)
      case None => None
      case Some(i) => Some(i + 1)
  }

  /** The search finds nothing exactly when the component is absent, and otherwise its first occurrence. */
  lemma {:induction false} FirstIndexFinds(components: seq<Component>, id: ComponentId)
    ensures FirstIndex(components, id).None? <==> !Contains(components, id)
    ensures FirstIndex(components, id).Some? ==> IsFirstAt(components, id, FirstIndex(components, id).value)
  {
    if |components| != 0 && components[0].id != id {
      var rest := components[1..];
      FirstIndexFinds(rest, id);
      assert forall j :: 1 <= j < |components| ==> components[j] == rest[j - 1];
    }
  }

  /** `a` and `b` hold the same identities in the same order. */
  predicate SameIds(a: seq<Component>, b: seq<Component>) {
    |a| == |b| && forall j :: 0 <= j < |a| ==> a[j].id == b[j].id
  }

  /** The search reads only identities: lists with the same identities in the same order give the same answer. */
  lemma FirstIndexByIds(a: seq<Component>, b: seq<Component>, id: ComponentId)
    requires SameIds(a, b)
    ensures FirstIndex(a, id) == FirstIndex(b, id)
  {
    FirstIndexFinds(a, id);
    FirstIndexFinds(b, id);
    assert Contains(a, id) <==> Contains(b, id) by {
      if Contains(a, id) {
        var j :| 0 <= j < |a| && a[j].id == id;
        assert b[j].id == id;
      }
      if Contains(b, id) {
        var j :| 0 <= j < |b| && b[j].id == id;
        assert a[j].id == id;
      }
    }
    if Contains(a, id) {
      var i, k := FirstIndex(a, id).value, FirstIndex(b, id).value;
      assert IsFirstAt(b, id, i);
      FirstIsUnique(b, id, i, k);
    }
  }

  /**
   * `order(for:)`: the first entry is the start (also in a one-element list), the last entry
   * of a longer list is the end, every other entry is a middle one. An absent component is
   * the `componentNotInContainer` error.
   */
  function OrderFor(components: seq<Component>, component: Component): (r: Result<Order, ToastError>)
    ensures r.Failure? <==> !Contains(components, component.id)
    ensures r.Failure? ==> r.error == ComponentNotInContainer(component.id)
    ensures r == Success(Start) <==> IsFirstAt(components, component.id, 0)
    ensures r == Success(End) <==> 2 <= |components| && IsFirstAt(components, component.id, |components| - 1)
    ensures forall i: nat :: r == Success(Middle(i)) <==> 0 < i < |components| - 1 && IsFirstAt(components, component.id, i)
  {
    FirstIndexFinds(components, component.id);
    match FirstIndex(components, component.id)
    case None => Failure(ComponentNotInContainer(component.id))
    case Some(i) =>
      if i == 0 then Success(Start)
      else if i == |components| - 1 then Success(End)
      else Success(Middle(i))
  }

  /** `previousComponents(before:)`: the entries before the first match, or none if absent. */
  function PreviousComponents(components: seq<Component>, before: Component): (r: seq<Component>)
    ensures !Contains(components, before.id) ==> r == []
    ensures Contains(components, before.id) ==> IsFirstAt(components, before.id, |r|)
    ensures r == components[..|r|]
  {
    FirstIndexFinds(components, before.id);
    match FirstIndex(components, before.id)
    case None => []
    case Some(i) => components[..i]
  }

  /** `nextComponents(after:)`: the entries after the first match, or none if absent or last. */
  function NextComponents(components: seq<Component>, after: Component): (r: seq<Component>)
    ensures !Contains(components, after.id) ==> r == []
    ensures Contains(components, after.id) ==> IsFirstAt(components, after.id, |components| - |r| - 1)
    ensures |r| <= |components| && r == components[|components| - |r|..]
  {
    FirstIndexFinds(components, after.id);
    match FirstIndex(components, after.id)
    case None => []
    case Some(i) => if i < |components| - 1 then components[i + 1..] else []
  }

  /** A present component splits the list into the components before it, itself and the components after it. */
  lemma Decomposition(components: seq<Component>, c: Component)
    requires Contains(components, c.id)
    ensures var previous, next := PreviousComponents(components, c), NextComponents(components, c);
      |previous| + 1 + |next| == |components| &&
      components[|previous|].id == c.id &&
      previous + [components[|previous|]] + next == components
  {
    var previous, next := PreviousComponents(components, c), NextComponents(components, c);
    FirstIsUnique(components, c.id, |previous|, |components| - |next| - 1);
    assert components == components[..|previous|] + [components[|previous|]] + components[|previous| + 1..];
  }

  /**
   * A component that is not the start always has a predecessor: the entry just before its
   * first occurrence. So the engine's "no previous component" guard never fires.
   */
  lemma PredecessorExists(components: seq<Component>, c: Component)
    requires OrderFor(components, c).Success? && OrderFor(components, c).value != Start
    ensures var previous := PreviousComponents(components, c);
      previous != [] && IsFirstAt(components, c.id, |previous|) &&
      previous[|previous| - 1] == components[|previous| - 1]
  {
  }
}
