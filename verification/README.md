# Toast layout core, modelled in Dafny

This project models the layout core of the Toast iOS library. A `ToastView` holds an ordered
list of components, such as labels, progress indicators and result indicators, and a
`ContentView` container. On every layout pass the toast view:

1. resets the container's size to zero;
2. lets every component place itself in list order, relative to the entry just before it in
   the list (the "sequence provider"), while the container grows to take it in;
3. shifts every component by the same vector, so that no inset box reaches left of or above
   zero;
4. centres the content view in its own bounds.

The model covers:

- the component layout spec (insets, a distribution on one axis, an alignment);
- the provider queries `order(for:)`, `previousComponents(before:)` and
  `nextComponents(after:)`;
- the placement of one component view (`layout(in:provider:)`);
- the toast view's list operations and its layout pass;
- the content view's state;
- the sizing and state of the label, progress indicator and result indicator leaves.

How the model is built:

- `CGFloat` is `real`.
- A `CGRect` is standardised, as UIKit does: `minX`, `maxX`, `width` and `height` use
  min, max and abs.
- Components are values `Component(id, frame, layout)`. Swift's reference identity (`===`)
  becomes equality of a unique `id`.
- The toast view, the content view and the three leaf views are classes whose fields their
  methods update.
- `ComponentLayout.LayoutIn` is written step by step as the source is, and is proved to equal
  `Placing`, a function stated on the first occurrence of the component in the list.
- `Toast.ToastView.LayoutContentViews` runs the two loops of the source and is proved to
  equal `Pass`, a pure description of the whole pass.
- The chain, normalisation, idempotence and growth properties are proved about `Pass`.

In `Component.swift` (lines 69-76 and 98-105) each conditional call (`_layoutOnRight()`,
`_layoutOnLeft()`, `_layoutOnBottom()`, `_layoutOnTop()`) is followed by an unconditional
call that overwrites both coordinates. So a component always lands on its own preferred side
of its predecessor. That holds whatever the predecessor prefers and whether or not the
predecessor has a predecessor of its own. Take A (40 x 20, start), B (30 x 20, right of A) and
C (20 x 20, left of B), all without insets. C lands at x = 20, over A, where the conditional
call alone would give x = 70. `Toast.AxisConflictExample` proves this result.
`ComponentLayout.PredecessorDirectionIrrelevant` and `ComponentLayout.PrePredecessorIrrelevant`
state the general fact behind it.

## Model

| member | source | states |
|---|---|---|
| `ComponentLayout.ViewDefaultLayout` | Sources/View/Components/Component.swift:24-25 | a component view starts with 10 on every side and a preference for the bottom of its predecessor |
| `ComponentLayout.LeftOf` | Sources/View/Components/Component.swift:56-59 | `_layoutOnLeft`: for an upright frame, the component's right edge plus its horizontal insets meets the predecessor's origin x, and the y origin is copied |
| `ComponentLayout.RightOf` | Sources/View/Components/Component.swift:62-65 | `_layoutOnRight`: for an upright frame, the component's left edge is the predecessor's right edge plus the predecessor's right inset and its own left inset, and the y origin is copied |
| `ComponentLayout.Above` | Sources/View/Components/Component.swift:85-88 | `_layoutOnTop`: for an upright frame, the component's bottom edge plus its vertical insets meets the predecessor's origin y, and the x origin is copied |
| `ComponentLayout.Below` | Sources/View/Components/Component.swift:91-94 | `_layoutOnBottom`: for an upright frame, the component's top edge is the predecessor's bottom edge plus the predecessor's bottom inset and its own top inset, and the x origin is copied |
| `ComponentLayout.Placing` | Sources/View/Components/Component.swift:33-113 | the engine's placement stated on the first occurrence of the component: absent gives a skip, the first entry is anchored at its insets, any later entry goes beside the entry just before it; its contract says the growth is not negative with insets that are not negative, and `PlacingOutcome`, `StartAnchoredAtInsets`, `PlacedBesidePredecessor` and `NonStartGrowth` carry the rest |
| `ComponentLayout.Grown` | Sources/View/Components/Component.swift:43-110 | the container after the `extends` call of a placement: a skip leaves it as it was, and a growth that is not negative never shrinks it |
| `ComponentLayout.LayoutIn` | Sources/View/Components/Component.swift:33-113 | one placement as written, including the overridden flip calls, moves only the frame origin and extends the container exactly as the placement function `Placing` says |
| `ComponentLayout.Applied` | Sources/View/Components/Component.swift:38-111 | a placement writes only the frame origin (identity, size and spec are kept), and a skipped placement leaves the component as it was |
| `ComponentLayout.PlacingOutcome` | Sources/View/Components/Component.swift:34-36 | a placement is skipped exactly when the provider does not hold the component; a skip changes neither the component nor the container; with insets that are not negative the container never shrinks |
| `ComponentLayout.StartAnchoredAtInsets` | Sources/View/Components/Component.swift:39-44 | the start component goes to (left inset, top inset), and the container grows by its size plus its insets |
| `ComponentLayout.PlacedBesidePredecessor` | Sources/View/Components/Component.swift:45-107 | every later component lands beside the entry just before it, on the side it prefers, and copies the predecessor's origin on the other axis |
| `ComponentLayout.BesideDoesNotOverlap` | Sources/View/Components/Component.swift:56-94 | with insets that are not negative, a component placed beside its predecessor does not overlap it on the primary axis |
| `ComponentLayout.NonStartGrowth` | Sources/View/Components/Component.swift:80-110 | a vertical step widens the container to the larger of its width and the component's inset width and adds the inset height; a horizontal step adds the inset width and the height by which the component is taller than its predecessor |
| `ComponentLayout.PrePredecessorIrrelevant` | Sources/View/Components/Component.swift:50-78 | dropping every entry before the predecessor leaves the placement unchanged, so whether a pre-predecessor exists never matters |
| `ComponentLayout.PredecessorDirectionIrrelevant` | Sources/View/Components/Component.swift:66-107 | giving the predecessor any other preferred distribution leaves the placement unchanged, so the conditional flip has no effect |
| `ToastComponent.FirstIndexFinds` | Sources/Protocol/ToastComponent.swift:93 | the identity search finds nothing exactly when the component is absent, and otherwise returns its first occurrence |
| `ToastComponent.FirstIndex` | Sources/Protocol/ToastComponent.swift:93 | the `index(where: { $0 === component })` search; a found index lies inside the list, and `FirstIndexFinds` states that it is the first match and that nothing is found exactly when the component is absent |
| `ToastComponent.FirstIndexByIds` | Sources/Protocol/ToastComponent.swift:93 | the identity search reads only identities: lists with the same identities in the same order give the same answer |
| `ToastComponent.OrderFor` | Sources/Protocol/ToastComponent.swift:90-106 | absent gives the `componentNotInContainer` error; the first entry is the start, even in a one-element list; the last entry of a longer list is the end; any other first occurrence at index i is `middle(i)`, in both directions |
| `ToastComponent.PreviousComponents` | Sources/Protocol/ToastComponent.swift:112-121 | the result is the prefix of the list that ends just before the first match, and empty when the component is absent |
| `ToastComponent.NextComponents` | Sources/Protocol/ToastComponent.swift:127-137 | the result is the suffix of the list that starts just after the first match, and empty when the component is absent or last |
| `ToastComponent.Decomposition` | Sources/Protocol/ToastComponent.swift:112-137 | for a present component, previous + [component] + next is the whole list |
| `ToastComponent.PredecessorExists` | Sources/View/Components/Component.swift:45-49 | a component whose order is not the start always has a non-empty previous list whose last entry is its immediate predecessor, so the guard never fires |
| `Content.ContentView.constructor` | Sources/View/ToastContentView.swift:34-69 | a new content view has zero size, the normal style with opacity 0.3 and a clear background |
| `Content.ContentView.SetSize` | Sources/View/ToastContentView.swift:120-127 | the size setter writes the bounds size |
| `Content.ContentView.Update` | Sources/View/ToastContentView.swift:128-130 | afterwards the container reports exactly the given size |
| `Content.ContentView.Extends` | Sources/Protocol/ToastComponent.swift:51-52 | extending adds the delta to the size, one dimension at a time |
| `Content.ContentView.SetStyle` | Sources/View/ToastContentView.swift:34-42 | assigning a style stores it |
| `Content.ContentView.Gradient` | Sources/View/ToastContentView.swift:108-113 | a gradient layer exists exactly when the style is coloured, and then it shows that style's colours |
| `Content.ContentView.SetBackgroundColor` | Sources/View/ToastContentView.swift:44-51 | the background colour setter ignores its value |
| `Toast.ToastView.constructor` | Sources/View/ToastView.swift:17-58 | a new toast view has no components, opacity 0, its frame's size as bounds, and a fresh content view of zero size with the normal style |
| `Toast.ToastView.Add` | Sources/View/ToastView.swift:94-99 | the component is appended at the end |
| `Toast.ToastView.Remove` | Sources/View/ToastView.swift:103-114 | the result is true exactly when the component was present; then its first occurrence, and nothing else, is removed; otherwise the list is unchanged |
| `Toast.ToastView.Set` | Sources/View/ToastView.swift:117-123 | the whole list is replaced |
| `Toast.ToastView.LayoutContentViews` | Sources/View/ToastView.swift:140-153 | the two loops leave exactly the list and the content size of `Pass` on the old list |
| `Toast.ToastView.LayoutSubviews` | Sources/View/ToastView.swift:75-82 | a layout pass, after which the content view is centred in the toast's bounds |
| `Toast.LaidOut` | Sources/View/ToastView.swift:144 | the list and container size after the first k steps of the `forEach`, each step placing one component against the list as the earlier steps left it; it keeps the length, and `LaidOutShape`, `LaidOutPrefixStable` and `ContainerNeverShrinks` carry its properties |
| `Toast.Normalised` | Sources/View/ToastView.swift:146-152 | every component moved by the minimum offset; it keeps the length, and `NormalisedEdges` and `NormalisedKeepsOffsets` carry its properties |
| `Toast.Pass` | Sources/View/ToastView.swift:140-153 | a whole pass from a zero container: every step, then the shift; it keeps the length, and `PassChainsComponents`, `PassTouchesZero`, `PassIdempotent` and `AxisConflictExample` carry its properties |
| `Toast.CentredOrigin` | Sources/View/ToastView.swift:80-81 | the content view's centre coincides with the centre of the toast's bounds |
| `Toast.MinOffset` | Sources/View/ToastView.swift:146-147 | the reduction is at most zero, below or equal to every left and top inset edge, and equal to zero or to one of those edges on each axis |
| `Toast.ShiftAll` | Sources/View/ToastView.swift:149-152 | every component, and only its origin, moves by the same vector |
| `Toast.LaidOutShape` | Sources/View/ToastView.swift:144 | laying out changes frame origins only, and components not reached yet are untouched |
| `Toast.LaidOutPrefixStable` | Sources/View/ToastView.swift:144 | a later step never moves a component that an earlier step placed |
| `Toast.EmptyPass` | Sources/View/ToastView.swift:140-153 | a pass over no components leaves the content size at zero |
| `Toast.StartAnchored` | Sources/View/ToastView.swift:142-144 | before the shift, the first component sits at its own inset origin |
| `Toast.PassChainsComponents` | Sources/View/ToastView.swift:144-152 | with distinct components and sizes that are not negative, every component ends beside the one before it in the list, both before and after the shift |
| `Toast.TranslatedBeside` | Sources/View/ToastView.swift:149-152 | moving two components by the same vector keeps one beside the other |
| `Toast.TranslatedEdges` | Sources/View/ToastView.swift:146-152 | moving a component moves its left and top inset edges by the same amount |
| `Toast.NormalisedEdges` | Sources/View/ToastView.swift:146-152 | after the shift no inset box reaches left of or above zero; an axis that reached below zero touches zero exactly; a block already inside stays where it is |
| `Toast.StartEdgesZero` | Sources/View/ToastView.swift:142-147 | before the shift, the inset box of an upright start component touches zero on both axes |
| `Toast.NormalisedTouchesZero` | Sources/View/ToastView.swift:146-152 | when some inset box touches zero on both axes, after the shift an inset box still touches zero on each axis |
| `Toast.PassTouchesZero` | Sources/View/ToastView.swift:146-152 | after a whole pass with an upright start component, no inset box reaches left of or above zero and some inset box touches zero on each axis, so the minimum edge is exactly zero |
| `Toast.NormalisedKeepsOffsets` | Sources/View/ToastView.swift:149-152 | the shift keeps every size, every spec and every offset between two components |
| `Toast.ContainerNeverShrinks` | Sources/View/ToastView.swift:142-144 | with insets that are not negative, the content size only grows during a pass |
| `Toast.PlacingDependsOnPrefix` | Sources/View/Components/Component.swift:47-64 | a placement reads the identities, sizes and specs of the list but only the origins of entries before the component |
| `Toast.OriginsIrrelevant` | Sources/View/ToastView.swift:140-153 | the outcome of a pass does not depend on where the components were before it |
| `Toast.PassIdempotent` | Sources/View/ToastView.swift:140-153 | laying out an unchanged list a second time gives the same frames and the same content size |
| `Toast.ConflictStartStep` | Sources/View/Components/Component.swift:38-44 | A, without insets, goes to (0, 0), and the container becomes 40 x 20 |
| `Toast.ConflictFirstSteps` | Sources/View/Components/Component.swift:38-81 | A goes to (0, 0), and B, which prefers the right, goes to (40, 0); the container is 70 x 20 |
| `Toast.ConflictLastStep` | Sources/View/Components/Component.swift:66-81 | C, which prefers the left of B, goes to (20, 0) although B went right and has a predecessor; the container is 90 x 20 |
| `Toast.AxisConflictExample` | Sources/View/ToastView.swift:140-153 | the whole pass on A, B, C gives origins (0, 0), (40, 0), (20, 0) and a content size of 90 x 20 |
| `LayoutSpec.ExactlyOneAxis` | Sources/View/Components/Layout.swift:42-44 | a distribution is on exactly one axis |
| `LayoutSpec.DistributionEquality` | Sources/View/Components/Layout.swift:20-45 | two distributions are equal exactly when they share the axis and the edge |
| `LayoutSpec.AlignmentCases` | Sources/View/Components/Layout.swift:50-59 | an alignment is leading, center, trailing or filling |
| `LayoutSpec.LayoutFieldsIndependent` | Sources/View/Components/Layout.swift:61-66 | assigning one field of a layout spec leaves the other two unchanged |
| `Geometry.EdgeInsets.Width` | Sources/misc.swift:16-18 | the horizontal length is not negative when the left and right margins are not negative; its value, left + right, is its definition |
| `Geometry.EdgeInsets.Height` | Sources/misc.swift:21-23 | the vertical length is not negative when the top and bottom margins are not negative; its value, top + bottom, is its definition |
| `Geometry.InsetLengthsIndependent` | Sources/misc.swift:15-23 | the horizontal length reads only the left and right margins, and the vertical length only the top and bottom margins |
| `Labels.DefaultLayout` | Sources/View/ToastViewComponents.swift:104-106 | a label starts with 15 on every side, a preference for the bottom of its predecessor, and centred alignment |
| `Labels.Ceil` | Sources/View/ToastViewComponents.swift:189 | the least integer that is not below its argument |
| `Labels.CeilSize` | Sources/View/ToastViewComponents.swift:189 | the rounded size covers the measured size and exceeds it by less than one point in each dimension |
| `Labels.Label.constructor` | Sources/View/ToastViewComponents.swift:131-143 | a new label has no text, treats the tint as the text colour, and takes its text colour from the inherited tint |
| `Labels.Label.WithText` | Sources/View/ToastViewComponents.swift:158-173 | the title and detail factories give a fresh label showing the string |
| `Labels.Label.SetTextColor` | Sources/View/ToastViewComponents.swift:108-119 | while the tint is treated as the text colour the assignment is ignored; otherwise the text colour is stored |
| `Labels.Label.SetTintColor` | Sources/View/ToastViewComponents.swift:121-127 | the tint is stored, and with the flag set it also becomes the text colour |
| `Labels.Label.TintColorDidChange` | Sources/View/ToastViewComponents.swift:147-153 | with the flag set, the text colour catches up with the tint |
| `Labels.Label.LayoutIn` | Sources/View/ToastViewComponents.swift:180-190 | a label without text or with empty text keeps its size; otherwise its size is the measured size rounded up, with the text measured against the allowed width less the label's horizontal insets |
| `ProgressIndicators.Clamp` | Sources/View/Components/ProgressIndicator.swift:156 | the result lies in [0, 1]; it is the value itself inside, 0 below and 1 above |
| `ProgressIndicators.ClampIdempotent` | Sources/View/Components/ProgressIndicator.swift:156 | clamping twice is the same as clamping once |
| `ProgressIndicators.RotatedRight` | Sources/View/Components/ProgressIndicator.swift:201-205 | one display-link tick on a colour list keeps its length; `RotatedRightMoves` states where every colour goes |
| `ProgressIndicators.Rotations` | Sources/View/Components/ProgressIndicator.swift:200-206 | k ticks in a row keep the length; `RotationsAt` and `FullTurn` state the order they give |
| `ProgressIndicators.RotatedRightMoves` | Sources/View/Components/ProgressIndicator.swift:200-206 | a tick keeps the length and the multiset of colours; the last colour becomes the first and every other colour moves one place on; an empty list stays empty |
| `ProgressIndicators.RotationsAt` | Sources/View/Components/ProgressIndicator.swift:200-206 | after k ticks, with k no more than the length of the list, the last k colours lead in their old order, followed by the rest |
| `ProgressIndicators.FullTurn` | Sources/View/Components/ProgressIndicator.swift:200-206 | as many ticks as there are colours restore the list |
| `ProgressIndicators.HueWheel` | Sources/View/Components/ProgressIndicator.swift:38 | the start colours are 360 opaque, fully saturated hues i / 360, in order |
| `ProgressIndicators.HueWheelOrdered` | Sources/View/Components/ProgressIndicator.swift:38 | the hues lie in [0, 1) and strictly increase around the wheel |
| `ProgressIndicators.WheelReturns` | Sources/View/Components/ProgressIndicator.swift:194-206 | 360 ticks bring the gradient back to the colours it started with |
| `ProgressIndicators.ProgressIndicator.constructor` | Sources/View/Components/ProgressIndicator.swift:80-84 | a new indicator has a zero frame, zero progress, line width 1 and the full hue wheel |
| `ProgressIndicators.ProgressIndicator.SetProgress` | Sources/View/Components/ProgressIndicator.swift:151-159 | the progress setter stores the clamped value, keeps the progress in [0, 1], and assigning the current value back changes nothing |
| `ProgressIndicators.ProgressIndicator.HandleDisplayLink` | Sources/View/Components/ProgressIndicator.swift:199-206 | a display-link tick rotates the colours right by one place |
| `ProgressIndicators.ProgressIndicator.GradientFrame` | Sources/View/Components/ProgressIndicator.swift:115-119 | the gradient starts at the origin with the full height, and with a valid progress it is no wider than the bounds and exactly as wide when the progress is 1 |
| `ProgressIndicators.ProgressIndicator.MakeHorizontalBar` | Sources/View/Components/ProgressIndicator.swift:162-166 | a fresh horizontal bar of 180 x 12 at the origin |
| `ProgressIndicators.ProgressIndicator.MakePie` | Sources/View/Components/ProgressIndicator.swift:169-173 | a fresh pie of 37 x 37 at the origin |
| `ProgressIndicators.ProgressIndicator.MakeRing` | Sources/View/Components/ProgressIndicator.swift:176-180 | a fresh ring of 37 x 37 at the origin |
| `ProgressIndicators.ProgressIndicator.MakeColouredBar` | Sources/View/Components/ProgressIndicator.swift:183-187 | a fresh coloured bar of 180 x 1 at the origin |
| `ResultIndicators.SizeThatFitsWidth` | Sources/View/Components/ResultIndicator.swift:138-145 | the size is as wide as the given width; a tick is two thirds as tall as it is wide, and a cross is square |
| `ResultIndicators.TickWithinCross` | Sources/View/Components/ResultIndicator.swift:138-145 | for the same width a tick fits inside a cross, and a positive width gives a positive height |
| `ResultIndicators.SizeThatFitsIgnoresProposal` | Sources/View/Components/ResultIndicator.swift:82-84 | the proposed size never changes the answer |
| `ResultIndicators.ResultIndicator.SizeThatFits` | Sources/View/Components/ResultIndicator.swift:82-84 | the answer is as wide as the current width; a tick is two thirds as tall as it is wide, and a cross is square |
| `ResultIndicators.ResultIndicator.SizeToFit` | Sources/View/Components/ResultIndicator.swift:75-84 | the view takes the size that fits its current width |
| `ResultIndicators.ResultIndicator.constructor` | Sources/View/Components/ResultIndicator.swift:63-78 | a new indicator has width 37 and line width 3, and is already sized to fit |
| `ResultIndicators.ResultIndicator.SetWidth` | Sources/View/Components/ResultIndicator.swift:48-53 | assigning the width resizes the view to fit the new width |
| `ResultIndicators.ResultIndicator.LayoutSubviews` | Sources/View/Components/ResultIndicator.swift:108-112 | layout sizes the view to fit, and changes nothing on a view that already fits |
| `ResultIndicators.ResultIndicator.MakeSuccess` | Sources/View/Components/ResultIndicator.swift:120-124 | a fresh tick 32 wide and 64/3 tall |
| `ResultIndicators.ResultIndicator.MakeCompactSuccess` | Sources/View/ToastViewComponents.swift:908-912 | the other copy of the tick factory: 28 wide and 56/3 tall |
| `ResultIndicators.ResultIndicator.MakeError` | Sources/View/Components/ResultIndicator.swift:127-131 | a fresh cross 20 wide and 20 tall |

## Left out

- Drawing is not modelled: `draw(_:)` and the `CGContext` calls that paint the background, the
  pie, ring and bar, and the tick and cross. They produce pixels, not layout state.
- Animation and scheduling are not modelled. This covers the display link itself, its frame
  rate, `_beginAnimating` and `deinit`. The model gives one tick as `HandleDisplayLink` and
  counts ticks with `Rotations`.
- The activity indicator component, the presentation controller and the demo code are not
  modelled.
- View-tree effects are not modelled: `addSubview`, `removeFromSuperview`, `setNeedsLayout`,
  `setNeedsDisplay`, the corner radius and the sublayer plumbing of the content view's styles
  (`_setupStyle`, `_clearPreviousState`, the effect view).
- `maxAllowedLayoutWidth` is only declared by the container protocol, so `Labels.Label.LayoutIn`
  takes it as a parameter.
- Text measurement (`boundingRect` with the label's font) is a system call, so
  `Labels.Label.LayoutIn` takes it as the function parameter `measure`. The fonts and the
  line count set by the title and detail factories are not modelled.
- Labels.Label.LayoutIn: models only the sizing half. The placement goes through the free
  function `Toast.layout(component:in:provider:)`, which is not part of this model. So alignment
  has no effect anywhere in the model.
- `extends(size:)` is only declared. `Content.ContentView.Extends` adds the delta
  componentwise, which is how `Component.swift` computes its deltas.
- The same component object appearing twice in the list is not modelled faithfully. The source
  would move one shared frame twice. The value model writes the entry under the loop index, so
  the proved chain properties assume distinct identities.
- Floating-point rounding is not modelled; `CGFloat` arithmetic is exact real arithmetic.
- The standardisation of a `CGRect` with a negative size is modelled through min, max and abs.
  Frame setters on such rects are not.
- The `container` payload of `ToastError.componentNotInContainer` is dropped; the error keeps
  the component's identity only.
- `ComponentLayout.ViewDefaultLayout` follows `Component.swift`, which gives 10 on every side
  and no alignment; the model picks the center alignment. Another copy of the component in
  `ToastViewComponents.swift` uses 15 on every side and center, which `Labels.DefaultLayout`
  follows.
- `_handleDisplayLink` reads `_gradientLayer.colors ?? []`. The model keeps the colours as a
  list that is never nil, so the nil case is the empty list.
- The `init?(coder:)` and `awakeFromNib` initialisers are not modelled; only `init(frame:)` and
  `init(style:)` are.
- Several setters only request a redraw and are not modelled: `lineCap` and `tintColor` on the
  progress indicator, and `lineCap`, `lineJoin` and `tintColorDidChange` on the result
  indicator. The `lineWidth` setters are modelled as plain fields.
- The `debugPrint` calls in the ignored `backgroundColor` setters of the toast view and the
  content view are output, not state, and are not modelled.
