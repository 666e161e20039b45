# PlayButtonDemo in Dafny

A model of the play/pause toggle of PlayButtonDemo. The icon morphs between a
play triangle and two pause bars as an animation value `shift` runs from 0 to 1.

The core is the geometry of `PlayPauseShape`:

- `pathPoints(width:height:)` builds three point lists: an empty list, then the
  left half and the right half of the icon. Each half has four corners, in the
  order top-left, top-right, bottom-right, bottom-left.
- Every corner blends a fixed "play" point (a corner of the triangle) with a
  fixed "pause" point (a corner of a bar).
- `path(in:)` turns those lists into path commands.

Around it sit the `CGPoint` operators and the toggle state of `PlayButton`.

Files:

- `points.dfy` (module `Points`): `CGPoint` with `*`, `+` and `-`, over `real`.
- `paths.dfy` (module `Paths`): SwiftUI's `Path` as a sequence of `MoveTo`,
  `AddLine` and `CloseSubpath` commands. `Render` is what a list of point lists
  becomes. `Subpaths` reads a command sequence back into its closed subpaths.
- `shape.dfy` (module `PlayPause`): the shape value, `init`, the animatable
  value, the reference play and pause points, the two blend forms, and the two
  operations:
  - `PathPoints` is a method that computes each corner with the formula the
    source uses: the slope, `centerY`, and the forward or backward blend. It is
    proved equal to the reference outline `Outline`.
  - `PathIn` is the nested loop of `path(in:)`. It is proved equal to
    `Render(Outline(...))`.
- `shape_properties.dfy` (module `PlayPauseProperties`): what the outline is.
  - The play triangle at 0 and the pause bars at 1.
  - Straight-line motion of every corner, with no clamping.
  - Orientation and convexity of the halves.
  - The exact path the outline turns into.
- `button.dfy` (module `Button`): the `PlayButton` class, its `isPlaying` field,
  `performTap`, and the accessibility label.

Facts the model establishes about the outline the code draws:

- At shift 1 the gap between the bars is `w/2 - bw`, where `bw = w·11/34`. That
  is `6w/34`. It is not `w - 2·bw`, and it is not `11/34` of the width. The
  outer margins are both `w/4 - bw/2` (`PauseBars`).
- The two halves are mirror images of each other about `x = w/2` at shift 1,
  and at no other shift when the height is not zero (`MirrorOnlyAtOne`). At
  shift 0 they are the two halves of a triangle that points right. Their outer
  edges are the vertical base on the left and the apex on the right
  (`PlayHalvesSplitTriangle`).
- For shift in `[-0.3, 1.3]` both halves keep a positive signed area
  (`HalvesKeepOrientation`). A positive area alone does not rule out a crossed
  outline; see the next item.
- For shift in `(-1, 0)`, the right half's top-right corner moves below its
  bottom-right corner. Its outline then crosses itself (`RightHalfCrossesBelowZero`).
  Below -1 the right half is convex again, but with its winding reversed: all
  four turns are negative (`RightHalfReversedBelowMinusOne`). Overshooting below
  0 therefore does not keep the right half a simple polygon of the same winding.
  The source animates with an ease-in-out curve, which does not overshoot.

## Model

| member | source | states |
|---|---|---|
| `Points.Scale` | PlayButtonDemo/PlayButton.swift:141-143 | `point * scalar`: both coordinates multiplied by the scalar; kept contract-free; its laws are the lemma `ScaleLaws` |
| `Points.Add` | PlayButtonDemo/PlayButton.swift:149-151 | `left + right`: coordinate-wise sum; kept contract-free; its laws are the lemmas `AddSubInverse` and `ScaleLaws` |
| `Points.Sub` | PlayButtonDemo/PlayButton.swift:153-155 | `left - right`: coordinate-wise difference; kept contract-free; its laws are the lemmas `AddSubInverse` and `SubAntisymmetric` |
| `Points.ScaleLeft` | PlayButtonDemo/PlayButton.swift:141-147 | `scalar * point` gives the same point as `point * scalar` |
| `Points.AddSubInverse` | PlayButtonDemo/PlayButton.swift:149-155 | `-` undoes `+` and `+` undoes `-`; `p + (q - p) == q`; zero is the unit of both |
| `Points.ScaleLaws` | PlayButtonDemo/PlayButton.swift:141-155 | `point * scalar` distributes over `+` and `-`; scaling twice multiplies the factors; scaling by 1 is the identity and scaling by 0 gives the origin |
| `Points.SubAntisymmetric` | PlayButtonDemo/PlayButton.swift:153-155 | swapping the operands of `-` negates the difference, so `(p - q) * -k == (q - p) * k` |
| `PlayPause.PlayPauseShape.AnimatableData` | PlayButtonDemo/PlayButton.swift:40 | the getter returns the value that, written straight back, leaves the shape unchanged |
| `PlayPause.PlayPauseShape.WithAnimatableData` | PlayButtonDemo/PlayButton.swift:41 | the setter gives a shape whose `shift` is the new value and whose `isPlaying` is unchanged |
| `PlayPause.AnimatableDataRoundTrip` | PlayButtonDemo/PlayButton.swift:39-42 | writing back the value just read changes nothing; reading after a write gives the value written |
| `PlayPause.Init` | PlayButtonDemo/PlayButton.swift:44-47 | `shift` is 1 exactly when playing and 0 exactly when not |
| `PlayPause.Lerp` | PlayButtonDemo/PlayButton.swift:65-66 | the forward blend `play + (pause - play) * shift`; kept contract-free; its endpoints and affinity are the lemma `LerpAffine` |
| `PlayPause.LerpBack` | PlayButtonDemo/PlayButton.swift:71-72 | the backward blend `play - (play - pause) * shift`, used at lines 72, 78, 84, 93, 99, 105 and 111; kept contract-free; the lemma `BlendFormsAgree` proves it equal to `Lerp` |
| `PlayPause.BlendFormsAgree` | PlayButtonDemo/PlayButton.swift:65-72 | the backward blend `play - (play - pause) * shift` equals the forward blend `play + (pause - play) * shift` for every real `shift` |
| `PlayPause.LerpAffine` | PlayButtonDemo/PlayButton.swift:65-66 | a blend is the play point at 0 and the pause point at 1; blending two blends of the same pair gives the blend at the blended value, for all reals |
| `PlayPause.Outline` | PlayButtonDemo/PlayButton.swift:50-52 | the point lists are three: an empty list first, then two halves of four corners each |
| `PlayPause.CenterYIsQuarterHeight` | PlayButtonDemo/PlayButton.swift:55-59 | for non-zero width, the slope and `centerY` computation gives `centerY = -height/4` |
| `PlayPause.PathPoints` | PlayButtonDemo/PlayButton.swift:49-116 | for non-zero width, the per-corner formulas (slope, `centerY`, forward or backward blend) give exactly `[[], left, right]`; every corner is `play + (pause - play) * shift` between the triangle point and the bar point |
| `PlayPause.PathIn` | PlayButtonDemo/PlayButton.swift:118-137 | the nested loop emits exactly `Render` of the point lists: empty lists skipped; each other list gives a move to its first point, a line to each later point in order, then a close |
| `Paths.Lines` | PlayButtonDemo/PlayButton.swift:129-132 | one line command per point, to that point, in order |
| `Paths.SubpathsOfRender` | PlayButtonDemo/PlayButton.swift:123-135 | reading the emitted commands back gives exactly the non-empty lists in order, each with all its points |
| `PlayPauseProperties.PlayAtZero` | PlayButtonDemo/PlayButton.swift:56-111 | at shift 0 the left half is (0,0), (w/2,h/4), (w/2,3h/4), (0,h) and the right half is (w/2,h/4), (w,h/2), (w,h/2), (w/2,3h/4) |
| `PlayPauseProperties.PauseAtOne` | PlayButtonDemo/PlayButton.swift:63-108 | at shift 1 each half is a bar rectangle: the left bar starts at `(w/2 - bw)/2` and the right bar at that plus `w/2`; both have width `bw` and run from y 0 to h |
| `PlayPauseProperties.PlayHalvesSplitTriangle` | PlayButtonDemo/PlayButton.swift:64-109 | at shift 0 the halves share their centre-line edge; both right corners of the right half are the apex (w,h/2); the centre-line ends lie on the lines from (0,0) and from (0,h) to the apex |
| `PlayPauseProperties.PauseBars` | PlayButtonDemo/PlayButton.swift:37-108 | at shift 1 each bar has width w·11/34 and spans the full height; the right bar is the left one moved right by w/2, and also its mirror image about x = w/2; the gap is w/2 − bw; both outer margins are w/4 − bw/2 |
| `PlayPauseProperties.MirrorOnlyAtOne` | PlayButtonDemo/PlayButton.swift:61-111 | for a non-zero height, the right half is the mirror image of the left about x = w/2 exactly when shift is 1 |
| `PlayPauseProperties.CornersMoveOnLines` | PlayButtonDemo/PlayButton.swift:65-111 | for every real shift, each corner is the blend of its positions at 0 and at 1; the outline at a blended shift is the blend of the outlines, so there is no clamping and values outside [0,1] extrapolate |
| `PlayPauseProperties.LeftHalfAt` | PlayButtonDemo/PlayButton.swift:61-84 | the left half at shift s in closed form: x moves in by 3w/34·s from both sides; the right edge runs from y = h(1−s)/4 to y = h(3+s)/4 |
| `PlayPauseProperties.RightHalfAt` | PlayButtonDemo/PlayButton.swift:88-111 | the right half at shift s in closed form: the left edge runs from h(1−s)/4 to h(3+s)/4; the right edge runs from h(1−s)/2 to h(1+s)/2 |
| `PlayPauseProperties.HalvesKeepOrientation` | PlayButtonDemo/PlayButton.swift:61-111 | for w, h > 0 and shift in [−0.3, 1.3], both halves have positive signed area (on [−0.3, 0) the right half still crosses itself, see `RightHalfCrossesBelowZero`) |
| `PlayPauseProperties.HalvesConvex` | PlayButtonDemo/PlayButton.swift:61-111 | for w, h > 0 and shift in (0, 1], all four turns of both halves are strictly positive, so each half is convex and does not cross itself |
| `PlayPauseProperties.RightHalfCrossesBelowZero` | PlayButtonDemo/PlayButton.swift:95-111 | for shift in (−1, 0), the right half's top-right corner lies below its bottom-right corner; two adjacent turns are negative and the other two positive, so the outline crosses itself |
| `PlayPauseProperties.RightHalfReversedBelowMinusOne` | PlayButtonDemo/PlayButton.swift:90-111 | for shift below −1, all four turns of the right half are negative: it is a convex quadrilateral again, traversed in the reverse order |
| `PlayPauseProperties.OutlinePath` | PlayButtonDemo/PlayButton.swift:118-137 | the path of the outline is a move and three lines and a close for the left half, then the same for the right half; reading it back gives exactly the two halves |
| `PlayPauseProperties.SettledShapeDrawsGlyph` | PlayButtonDemo/PlayButton.swift:44-47 | a shape made by `init` draws the pause bars when playing and the play triangle otherwise |
| `Button.AccessibilityLabel` | PlayButtonDemo/PlayButton.swift:20 | the label is "Pause" exactly when playing and "Play" exactly when not |
| `Button.LabelMatchesGlyph` | PlayButtonDemo/PlayButton.swift:19-20 | the label is "Play" exactly when the settled shape is at 0 (the triangle), and "Pause" exactly when it is at 1 (the bars) |
| `Button.PlayButton.constructor` | PlayButtonDemo/PlayButton.swift:14 | a new button is not playing, has called nothing, and shows the play triangle with the label "Play" |
| `Button.PlayButton.Body` | PlayButtonDemo/PlayButton.swift:19 | the drawn shape carries the button's `isPlaying` |
| `Button.PlayButton.PerformTap` | PlayButtonDemo/PlayButton.swift:28-31 | a tap flips `isPlaying` and calls `action` exactly once; the label changes and the settled shift goes from s to 1 − s |
| `Button.TapTwice` | PlayButtonDemo/PlayButton.swift:28-31 | two taps restore `isPlaying` and the label, with two calls of `action` |

## Left out

- SwiftUI wiring is not modelled: the view modifiers, the 0.3-second ease-in-out
  animation, `contentShape`, `onTapGesture`, and the accessibility traits and
  action registration. They carry no behaviour the model could state. The
  animation system's writes to `shift` are modelled only as the
  `animatableData` get and set.
- `PlayButton_Previews` and `PlayButtonDemo/ContentView.swift` are not modelled.
  They only create a button with a printing callback and a frame.
- The `action` closure is foreign code. The model counts its invocations in
  `actionCalls`.
- `CGFloat` rounding is not modelled. Coordinates are exact reals, and the bar
  fraction is exactly 11/34. The equalities proved here need not hold bit for
  bit in `Double`.
- A width of zero is excluded by a precondition on `PathPoints` and `PathIn`.
  The slope divides by the width, so the source would produce infinities or
  NaN. The reference functions and the properties need no such precondition.
- `Path` rendering (filling, colour) is not modelled. A path is its command
  sequence. The frame's origin is kept in `Rect` but is unused, as in the source.
- `Points.Scale`, `Points.Add`, `Points.Sub`, `PlayPause.Lerp` and
  `PlayPause.LerpBack` are kept contract-free, as plain definitions of the
  operators. Their laws are the lemmas `ScaleLaws`, `AddSubInverse`,
  `SubAntisymmetric`, `LerpAffine` and `BlendFormsAgree`.
