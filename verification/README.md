# RulerView: scroll accumulator, snap correction and tick layout

`RulerView` is an Android ruler picker: a tape of tick marks slides under a
fixed centre line, the user drags or flings it, and it settles on a value of
the ruler's grid. This project models the integer logic underneath the
drawing code:

- **the scroll accumulator** (`scroll`). The value is the unit index
  `current` in `[minUnit, maxUnit]`. The pixels dragged but not yet turned
  into whole ticks form the `residual`. A delta joins the residual, whole
  ticks move the index, the index is clamped, and the residual keeps Java's
  remainder. At a bound, a delta that points outward, or is zero, drops the
  residual (a hard stop).
- **the snap correction** (`scrollBackToCorrectPos`). The residual is rounded
  to the nearer tick boundary, and an exact half-way tie goes back to 0.
- **the gesture and animation state machine** (`onTouchEvent`,
  `computeScroll`, `fling`). It runs over an abstract `OverScroller` that
  reports a fixed run of integer positions.
- **the layout** (`onSizeChanged`, `drawLines`, `drawSideText`). It works out
  the slot count and the centre line. It places every in-range tick with its
  alpha fade and its major/minor kind, and places the two side labels.

Modules:

- `JavaInt` (java_int.dfy): Java's truncating `/` and `%`.
- `ScrollMath` (scroll_math.dfy): one `scroll` call as the function `Step`, and
  runs of calls as `Run`. It also holds the correction `Correction` and what
  these guarantee: the state stays in range, the pixel position is conserved
  unless a hard stop fires, and a snap lands on a tick.
- `LayoutMath` (layout_math.dfy): the alpha formula and the label-interval
  arithmetic.
- `Scrollers` (over_scroller.dfy): the scroller as a class whose animation is
  the sequence of positions it will still report.
- `Widget` (ruler_view.dfy): the `RulerView` class. Its methods update the
  fields in place, and the drawing methods return tick and label descriptors
  in place of Canvas calls.

The object invariant `RulerView.Valid` is required and kept by the methods
that stand for the platform's entry points: `OnTouchEvent`, `ComputeScroll`
and `OnSizeChanged`. The drawing members change nothing and need at most
`Valid`. The private `Scroll` needs and keeps only `Consistent`, the part of
`Valid` about the view's own fields, because `ComputeScroll` calls it after
the scroller has already moved on. `Valid` says:

- the index is in range;
- `|residual| < lineMargin`;
- at the lower bound the residual is never negative, and at the upper bound
  never positive;
- during an animation, the distances fed to `scroll` add up to the
  scroller's position last read.

In these four places the model follows what the code does, which is not
what a reader might expect of a ruler picker:

- **Batching.** Feeding `d1` then `d2` is not the same as feeding `d1 + d2`.
  At the lower bound with a residual of 5, `-3` zeroes the residual and `+5`
  then gives 5, while `+2` gives 7 (`ScrollMath.SplitDeltaDiffers`).
- **Fling threshold.** A release flings only when `|v|` is strictly above the
  minimum fling velocity, not at or above it.
- **Snap on release.** It happens only when correction is switched on.
- **Fling bounds.** The fling is bounded by plus or minus
  `maxUnit * lineMargin`, not by the minimum unit.

## Model

| member | source | states |
|---|---|---|
| JavaInt.Div | app/src/main/java/com/meitu/lyz/myapplicationproject/widget/RulerView.java:503-508 | the whole ticks taken out of the accumulated pixels: the quotient truncated toward zero, for either sign |
| JavaInt.Rem | app/src/main/java/com/meitu/lyz/myapplicationproject/widget/RulerView.java:520 | Java's `%`: quotient times divisor plus remainder is the dividend, the remainder is under the divisor in magnitude and has the dividend's sign |
| JavaInt.RemOfSmall | app/src/main/java/com/meitu/lyz/myapplicationproject/widget/RulerView.java:457 | a residual already under one tick is unchanged by `mScrollXY %= mLineMargin`, so the snap test on release is `residual != 0` |
| JavaInt.RemZeroIff | app/src/main/java/com/meitu/lyz/myapplicationproject/widget/RulerView.java:362 | Java's remainder is zero exactly when the Euclidean one is, so the major-tick test does not depend on the sign of the index |
| ScrollMath.Clamp | app/src/main/java/com/meitu/lyz/myapplicationproject/widget/RulerView.java:514-517 | the clamped index is in range, equals the index when already in range, and is the bound it passed otherwise |
| ScrollMath.PushesPast | app/src/main/java/com/meitu/lyz/myapplicationproject/widget/RulerView.java:497-498 | the hard-stop test fires only at a bound, and a nonzero delta fires it only at the bound it points toward (the same test is repeated at 523-524) |
| ScrollMath.Step | app/src/main/java/com/meitu/lyz/myapplicationproject/widget/RulerView.java:493-532 | one `scroll` call on values: whatever the state, the new index is in range, and a step that ends pushing past a bound has no residual |
| ScrollMath.StepSpec | app/src/main/java/com/meitu/lyz/myapplicationproject/widget/RulerView.java:493-532 | one `scroll` keeps the index in range and the residual under one tick. At a bound with an outward delta the index stays put with residual 0. A step that ends on the bound it points at stops there with residual 0. Any other step conserves the pixel position exactly and moves the index by the truncated quotient of residual plus delta |
| ScrollMath.RunInRange | app/src/main/java/com/meitu/lyz/myapplicationproject/widget/RulerView.java:497-526 | any sequence of `scroll` calls keeps the index in range and the residual under one tick |
| ScrollMath.RunConserves | app/src/main/java/com/meitu/lyz/myapplicationproject/widget/RulerView.java:503-520 | a sequence of `scroll` calls with no hard stop moves the pixel position by exactly the sum of its deltas |
| ScrollMath.SplitDeltaDiffers | app/src/main/java/com/meitu/lyz/myapplicationproject/widget/RulerView.java:497-499 | batching is not invariant: at the lower bound with residual 5, deltas -3 then +5 end with residual 5 while the single delta +2 ends with 7 |
| ScrollMath.Correction | app/src/main/java/com/meitu/lyz/myapplicationproject/widget/RulerView.java:550-562 | residual plus correction is 0, one tick or minus one tick, and it is 0 exactly when twice the residual's magnitude is at most one tick (ties go back to 0) |
| ScrollMath.CorrectionIsNearest | app/src/main/java/com/meitu/lyz/myapplicationproject/widget/RulerView.java:551-562 | for a residual under one tick the correction is at most half a tick, and no larger than the distance to any of the three candidate ticks -m, 0 and m |
| ScrollMath.SnapLands | app/src/main/java/com/meitu/lyz/myapplicationproject/widget/RulerView.java:470-487 | a corrective animation whose deltas add up to the correction and never hit a hard stop ends with no residual, on the tick nearest where it started |
| LayoutMath.Alpha | app/src/main/java/com/meitu/lyz/myapplicationproject/widget/RulerView.java:357-358 | the tick alpha is in 0..255. It is 255 exactly within 1/255 of the centre distance (so at the centre), and 0 exactly at or beyond one centre distance from it |
| LayoutMath.AlphaFades | app/src/main/java/com/meitu/lyz/myapplicationproject/widget/RulerView.java:357-358 | alpha does not increase with the distance from the centre line |
| LayoutMath.LabelSteps | app/src/main/java/com/meitu/lyz/myapplicationproject/widget/RulerView.java:404 | `ceil(halfNum / textInterval - 1)` is the k with `k * textInterval < halfNum <= (k + 1) * textInterval` |
| LayoutMath.LabelsShownIff | app/src/main/java/com/meitu/lyz/myapplicationproject/widget/RulerView.java:404-406 | side labels are drawn at all (k > 0) exactly when the half ruler holds more slots than one text interval |
| Scrollers.OverScroller.constructor | app/src/main/java/com/meitu/lyz/myapplicationproject/widget/RulerView.java:257 | a new scroller is finished, at 0, with no motion |
| Scrollers.OverScroller.Fling | app/src/main/java/com/meitu/lyz/myapplicationproject/widget/RulerView.java:540 | a fling starts at 0, is running, records its velocity and bounds, and will report the given path |
| Scrollers.OverScroller.StartScroll | app/src/main/java/com/meitu/lyz/myapplicationproject/widget/RulerView.java:568 | a corrective scroll starts at 0, is running, and ends exactly at its distance |
| Scrollers.OverScroller.AbortAnimation | app/src/main/java/com/meitu/lyz/myapplicationproject/widget/RulerView.java:439 | aborting finishes the animation at its final position |
| Scrollers.OverScroller.ComputeScrollOffset | app/src/main/java/com/meitu/lyz/myapplicationproject/widget/RulerView.java:472 | answers true exactly when an animation was running. It then advances to the next position and finishes on the last one; otherwise nothing changes. The slot count and the centre are never touched |
| Widget.RulerView.constructor | app/src/main/java/com/meitu/lyz/myapplicationproject/widget/RulerView.java:130-135 | the view starts valid at the initial index with no residual and an idle scroller |
| Widget.RulerView.OnSizeChanged | app/src/main/java/com/meitu/lyz/myapplicationproject/widget/RulerView.java:169-178 | the slot count is the number of whole ticks that fit in the measured length, and the centre is half of it rounded down |
| Widget.RulerView.Scroll | app/src/main/java/com/meitu/lyz/myapplicationproject/widget/RulerView.java:493-532 | the in-place update of index and residual is exactly `Step` (whose guarantees `StepSpec` proves), and it keeps the view consistent |
| Widget.RulerView.Fling | app/src/main/java/com/meitu/lyz/myapplicationproject/widget/RulerView.java:537-545 | resets the last scroller position to 0 and starts a fling bounded by plus or minus `maxUnit * lineMargin` |
| Widget.RulerView.ScrollBackToCorrectPos | app/src/main/java/com/meitu/lyz/myapplicationproject/widget/RulerView.java:550-572 | resets the last scroller position to 0 and starts a scroll by `Correction(residual)` |
| Widget.RulerView.OnTouchEvent | app/src/main/java/com/meitu/lyz/myapplicationproject/widget/RulerView.java:428-467 | a press stops the scroller at the final position of its animation and records the coordinate; a move applies `Step` with last minus new coordinate. A release flings with -v iff abs(v) > minimum velocity; otherwise it snaps iff correction is on and the residual is nonzero; otherwise nothing changes. The slot count and the centre are never touched |
| Widget.RulerView.ComputeScroll | app/src/main/java/com/meitu/lyz/myapplicationproject/widget/RulerView.java:470-487 | on each frame of a running animation it applies `Step` with the scroller's advance. The distances fed add up to the scroller's position, and on the last frame it snaps iff correction is on and a residual is left. The slot count and the centre are never touched |
| Widget.RulerView.DrawLines | app/src/main/java/com/meitu/lyz/myapplicationproject/widget/RulerView.java:339-395 | the ticks drawn are exactly the consecutive in-range indices of the slots. Each is at the centre plus its distance from the current index in ticks, minus the residual; its alpha is `Alpha` of that position, and it is major iff the value interval divides its index |
| Widget.RulerView.SideOffset | app/src/main/java/com/meitu/lyz/myapplicationproject/widget/RulerView.java:401-407 | the label offset is positive exactly when the half ruler exceeds one text interval. It is then a multiple of the text interval strictly below the half ruler, and within one interval of it |
| Widget.RulerView.SideText | app/src/main/java/com/meitu/lyz/myapplicationproject/widget/RulerView.java:400-424 | at most two labels, at the current index minus and plus the offset, each present exactly when its index is in range (so the two are distinct when both are drawn). Each sits that many ticks from the centre line with alpha 85 |

## Left out

- Canvas and Paint calls, stroke widths, text alignment and the per-gravity coordinate branches are left out: they only render. The drawing methods return descriptors instead.
- `drawCenterText`, `drawBaseLine` and `drawText` are left out, including the label-collision tests. The horizontal test depends on `Paint.measureText`.
- `onMeasure`, `DisplayMetrics`, `initAttr`'s `TypedArray` parsing and the dp/sp conversions are left out: they are platform configuration. The constructor takes the resulting integers as parameters.
- The `double` value and its `DecimalFormat` reformatting are not modelled. This covers `mCurrentVale`, `mMinValue`, `mMaxValue`, the `(int)` truncation of the unit bounds and `ceil(value / unitValue)`. They are replaced by the integer unit index, which the reformatting keeps on the grid.
- Touch coordinates, the residual and the scroller positions are modelled as integers, so the `Math.round` calls in `scroll` are the identity.
- `VelocityTracker`, the fling curve and the `LinearOutSlowInInterpolator` are platform physics. The release velocity and the positions the scroller reports are parameters instead, and they are not constrained to stay within the fling bounds.
- The `invalidate()` calls are left out. In the source, `computeScroll` itself never asks for another frame. Only the moving branch of `scroll`, `fling` and `scrollBackToCorrectPos` do, and the hard-stop branch of `scroll` does not. So after a hard stop the platform may not deliver the next frame of a fling or snap. The model lets frames go on regardless: `ComputeScroll` may be called in any state, and its contract holds for every call sequence.
- Java `int` overflow is not modelled: all integers are unbounded.
- The setters, `SavedState`/`Parcel` persistence and the `Log` calls are left out. `setLineMargin` in particular would not keep `|residual| < lineMargin`.
- Widget.RulerView.constructor: requires the initial index to lie in range, because `initAttr` does not clamp the initial value. It also requires a positive tick spacing, value interval and text interval, which `initAttr` reads from attributes without checking. A zero spacing throws in `onSizeChanged`, and a zero value interval throws in the major-tick test of `drawLines`. A zero text interval does not throw, because the label arithmetic divides in floating point, but then it yields no labels or a meaningless offset. Negative values run in the source with results the model does not describe.
- Widget.RulerView.DrawLines: requires `center > 0` whenever there are slots. In the source a one-pixel view with a one-pixel margin divides by a zero centre in the alpha formula and throws `ArithmeticException`; the model does not follow it there.
- ScrollMath.SnapLands: proved only for corrective animations whose steps never hit a hard stop. A zero delta at a bound (the scroller reporting the same position twice) drops the residual, and the remaining deltas can then leave a residual. `computeScroll` then starts another correction on the finishing frame.
