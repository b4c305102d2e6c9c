/**
 * The layout spec every toast component carries: its insets, the axis and edge on which
 * it continues the chain after its predecessor, and its perpendicular alignment.
 */
module LayoutSpec {
  import opened Geometry

  /** The side of the predecessor a horizontally distributed component prefers. */
  datatype Horizontal = Left | Right

  /** The side of the predecessor a vertically distributed component prefers. */
  datatype Vertical = Top | Bottom

  /** `Layout.Distribution`: the axis and edge of the chain step. */
  datatype Distribution = HorizontalAt(horizontal: Horizontal) | VerticalAt(vertical: Vertical)

  /** `Layout.Alignment`. Declared by the source; no placement code reads it. */
  datatype Alignment = Leading | Center | Trailing | Filling

  /** `Layout`, a value type. */
  datatype Layout = Layout(insets: EdgeInsets, distribution: Distribution, alignment: Alignment)

  /** Every distribution lies on exactly one axis. */
  lemma ExactlyOneAxis(d: Distribution)
    ensures d.HorizontalAt? != d.VerticalAt?
  {
  }

  /** The synthesised equality: same axis and same edge, and a horizontal value never equals a vertical one. */
  lemma DistributionEquality(a: Distribution, b: Distribution)
    ensures a == b <==>
      (a.HorizontalAt? && b.HorizontalAt? && a.horizontal == b.horizontal) ||
      (a.VerticalAt? && b.VerticalAt? && a.vertical == b.vertical)
    ensures a.HorizontalAt? && b.VerticalAt? ==> a != b
  {
  }

  /** `Alignment` has exactly the four cases. */
  lemma AlignmentCases(a: Alignment)
    ensures a == Leading || a == Center || a == Trailing || a == Filling
  {
  }

  /** Assigning one field of a `Layout` value leaves the other two as they were. */
  lemma LayoutFieldsIndependent(l: Layout, i: EdgeInsets, d: Distribution, a: Alignment)
    ensures l.(insets := i).distribution == l.distribution && l.(insets := i).alignment == l.alignment
    ensures l.(distribution := d).insets == l.insets && l.(distribution := d).alignment == l.alignment
    ensures l.(alignment := a).insets == l.insets && l.(alignment := a).distribution == l.distribution
  {
  }
}
