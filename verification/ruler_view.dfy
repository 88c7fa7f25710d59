/**
 * The ruler view: its scroll state, the gesture and animation handling that
 * feeds pixel deltas into the accumulator, and the tick and label layout it
 * draws from that state. Canvas and Paint calls are replaced by returned
 * descriptors; the value is the integer unit index `current` (the displayed
 * value divided by the unit value), and every pixel quantity is an integer.
 */
module Widget {
  import opened JavaInt
  import opened ScrollMath
  import opened LayoutMath
  import opened Scrollers

  /** A touch event, its coordinate already taken along the ruler's axis. */
  datatype TouchEvent =
    | Down(coord: int)
    | Move(coord: int)
      /**
       * ACTION_UP or ACTION_CANCEL, with the velocity the tracker measured.
       * `path` is what the scroller reports for the animation the release
       * starts: the fling positions, or the samples of a corrective scroll.
       */
    | Release(velocity: int, path: seq<int>)

  /** One tick line: its unit index, screen position, alpha and whether it is a long (major) line. */
  datatype Tick = Tick(index: int, pos: int, alpha: int, major: bool)

  /** One side label: the unit index it shows, its screen position and alpha. */
  datatype Label = Label(index: int, pos: int, alpha: int)

  class RulerView {
    const minUnit: int
    const maxUnit: int
    const lineMargin: int
    const valueInterval: int
    const textInterval: int
    const openCorrection: bool
    const minimumVelocity: int
    const scroller: OverScroller

    /** The current value as a unit index. */
    var current: int
    /** The sub-tick pixel offset. */
    var residual: int
    /** The last touch coordinate along the axis. */
    var lastTouch: int
    /** The scroller position already fed to `Scroll`. */
    var lastScrollerPos: int
    /** How many tick slots the view is long. */
    var lineItems: int
    /** The position of the centre line. */
    var center: int
    /** The distances fed to `Scroll` by the running (or last) animation. */
    ghost var feed: seq<int>

    function Range(): ScrollMath.Axis {
      ScrollMath.Axis(minUnit, maxUnit, lineMargin)
    }

    function State(): ScrollState
      reads this
    {
      ScrollState(current, residual)
    }

    /** The view's own fields: configuration, scroll state and layout. */
    ghost predicate Consistent()
      reads this
    {
      && valueInterval > 0 && textInterval > 0
      && InRange(Range(), State())
      && lineItems >= 0 && center >= 0
    }

    /**
     * The object invariant. Besides `Consistent()`: the distances fed to
     * `Scroll` during an animation add up to the scroller position last
     * read, which is the scroller's current position while it runs.
     */
    ghost predicate Valid()
      reads this, scroller
    {
      && Consistent()
      && scroller.Valid()
      && lastScrollerPos == Sum(feed)
      && (!scroller.finished ==> scroller.curr == lastScrollerPos)
    }

    constructor (minUnit: int, maxUnit: int, lineMargin: int, valueInterval: int, textInterval: int,
                 openCorrection: bool, minimumVelocity: int, initial: int)
      requires minUnit <= initial <= maxUnit
      requires lineMargin > 0 && valueInterval > 0 && textInterval > 0
      ensures Valid() && fresh(scroller)
      ensures this.minUnit == minUnit && this.maxUnit == maxUnit && this.lineMargin == lineMargin
      ensures this.valueInterval == valueInterval && this.textInterval == textInterval
      ensures this.openCorrection == openCorrection && this.minimumVelocity == minimumVelocity
      ensures State() == ScrollState(initial, 0) && scroller.finished
      ensures lineItems == 0 && center == 0
    {
      this.minUnit := minUnit;
      this.maxUnit := maxUnit;
      this.lineMargin := lineMargin;
      this.valueInterval := valueInterval;
      this.textInterval := textInterval;
      this.openCorrection := openCorrection;
      this.minimumVelocity := minimumVelocity;
      scroller := new OverScroller();
      current := initial;
      residual := 0;
      lastTouch := 0;
      lastScrollerPos := 0;
      lineItems := 0;
      center := 0;
      feed := [];
    }

    /**
     * `onSizeChanged`: the number of tick slots that fit in the measured
     * length, and the centre line at half of it.
     */
    method OnSizeChanged(measured: int)
      requires Valid() && measured >= 0
      modifies this`lineItems, this`center
      ensures Valid()
      ensures lineItems * lineMargin <= measured < (lineItems + 1) * lineMargin
      ensures 2 * center <= measured <= 2 * center + 1
    {
      lineItems := measured / lineMargin;
      center := measured / 2;
    }

    /** `scroll(distance)`: the accumulator step, see `ScrollMath.Step` and `ScrollMath.StepSpec`. */
    method Scroll(distance: int)
      requires Consistent()
      modifies this`current, this`residual
      ensures Consistent()
      ensures State() == Step(Range(), old(State()), distance)
    {
      StepSpec(Range(), State(), distance);
      residual := residual + distance;
      if PushesPast(Range(), current, distance) {
        residual := 0;
      } else {
        current := current + Div(residual, lineMargin);
        if current <= minUnit {
          current := minUnit;
        } else if current >= maxUnit {
          current := maxUnit;
        }
        residual := Rem(residual, lineMargin);
        if PushesPast(Range(), current, distance) {
          residual := 0;
        }
      }
    }

    /** `fling(velocity)`: a fling from 0 bounded by plus or minus maxUnit ticks. */
    method Fling(velocity: int, path: seq<int>)
      requires Valid() && path != []
      modifies this`lastScrollerPos, this`feed, scroller
      ensures Valid()
      ensures scroller.motion == FlingMotion(velocity, -maxUnit * lineMargin, maxUnit * lineMargin)
      ensures !scroller.finished && scroller.ahead == path
      ensures lastScrollerPos == 0 && feed == []
    {
      lastScrollerPos := 0;
      feed := [];
      scroller.Fling(velocity, -maxUnit * lineMargin, maxUnit * lineMargin, path);
    }

    /** `scrollBackToCorrectPos()`: a corrective scroll by `Correction(residual)`. */
    method ScrollBackToCorrectPos(samples: seq<int>)
      requires Valid()
      modifies this`lastScrollerPos, this`feed, scroller
      ensures Valid()
      ensures scroller.motion == ScrollMotion(Correction(residual, lineMargin))
      ensures !scroller.finished && scroller.ahead == samples + [Correction(residual, lineMargin)]
      ensures lastScrollerPos == 0 && feed == []
    {
      var correction := Correction(residual, lineMargin);
      lastScrollerPos := 0;
      feed := [];
      scroller.StartScroll(correction, samples);
    }

    /**
     * `onTouchEvent`. A press stops any running animation and records the
     * coordinate. A move feeds the distance from the last coordinate to the
     * new one into `Scroll`. A release flings with the negated velocity when
     * its magnitude is strictly above the minimum fling velocity; otherwise,
     * with correction on and a residual left, it starts the corrective
     * scroll; otherwise it changes nothing.
     */
    method OnTouchEvent(e: TouchEvent)
      requires Valid()
      requires e.Release? && Abs(e.velocity) > minimumVelocity ==> e.path != []
      modifies this`current, this`residual, this`lastTouch, this`lastScrollerPos, this`feed, scroller
      ensures Valid()
      ensures e.Down? ==>
                && State() == old(State()) && lastTouch == e.coord && scroller.finished
                && lastScrollerPos == old(lastScrollerPos) && feed == old(feed)
                && scroller.motion == old(scroller.motion)
                && (old(scroller.finished) ==> unchanged(scroller))
                && (!old(scroller.finished) ==> scroller.curr == old(scroller.ahead)[|old(scroller.ahead)| - 1])
      ensures e.Move? ==>
                && State() == Step(Range(), old(State()), old(lastTouch) - e.coord)
                && lastTouch == e.coord && unchanged(scroller)
                && lastScrollerPos == old(lastScrollerPos) && feed == old(feed)
      ensures e.Release? ==> State() == old(State()) && lastTouch == old(lastTouch)
      ensures e.Release? && Abs(e.velocity) > minimumVelocity ==>
                && scroller.motion == FlingMotion(-e.velocity, -maxUnit * lineMargin, maxUnit * lineMargin)
                && !scroller.finished && scroller.ahead == e.path && feed == []
      ensures e.Release? && Abs(e.velocity) <= minimumVelocity && openCorrection && old(residual) != 0 ==>
                && scroller.motion == ScrollMotion(Correction(residual, lineMargin))
                && !scroller.finished && scroller.ahead == e.path + [Correction(residual, lineMargin)]
                && feed == []
      ensures e.Release? && Abs(e.velocity) <= minimumVelocity && !(openCorrection && old(residual) != 0) ==>
                unchanged(this) && unchanged(scroller)
    {
      match e
      case Down(coord) =>
        if !scroller.finished {
          scroller.AbortAnimation();
        }
        lastTouch := coord;
      case Move(coord) =>
        var distance := lastTouch - coord;
        lastTouch := coord;
        Scroll(distance);
      case Release(velocity, path) =>
        if Abs(velocity) > minimumVelocity {
          Fling(-velocity, path);
        } else if openCorrection && residual != 0 {
          RemOfSmall(residual, lineMargin);
          residual := Rem(residual, lineMargin);
          if residual != 0 {
            ScrollBackToCorrectPos(path);
          }
        }
    }

    /**
     * `computeScroll`, once per frame. While the scroller runs, the distance
     * from the position last read to the next one is fed to `Scroll`, so the
     * distances fed during one animation always add up to the scroller's
     * position. On the frame that finishes the animation, with correction on
     * and a residual left, the corrective scroll starts (its interpolated
     * positions are `snapSamples`).
     */
    method ComputeScroll(snapSamples: seq<int>)
      requires Valid()
      modifies this`current, this`residual, this`lastTouch, this`lastScrollerPos, this`feed, scroller
      ensures Valid()
      ensures old(scroller.finished) ==> unchanged(this) && unchanged(scroller)
      ensures !old(scroller.finished) ==>
                var d := old(scroller.ahead)[0] - old(lastScrollerPos);
                var mid := Step(Range(), old(State()), d);
                && State() == mid
                && lastTouch == old(lastTouch)
                && if |old(scroller.ahead)| == 1 && openCorrection && mid.residual != 0 then
                     && scroller.motion == ScrollMotion(Correction(mid.residual, lineMargin))
                     && !scroller.finished && scroller.ahead == snapSamples + [Correction(mid.residual, lineMargin)]
                     && feed == []
                   else
                     && scroller.motion == old(scroller.motion)
                     && scroller.curr == old(scroller.ahead)[0]
                     && scroller.ahead == old(scroller.ahead)[1..]
                     && feed == old(feed) + [d]
                     && Sum(feed) == scroller.curr
    {
      var running := scroller.ComputeScrollOffset();
      if running {
        FeedScroller();
        if openCorrection && scroller.finished && residual != 0 {
          RemOfSmall(residual, lineMargin);
          residual := Rem(residual, lineMargin);
          if residual != 0 {
            ScrollBackToCorrectPos(snapSamples);
          }
        }
      }
    }

    /**
     * The first half of a running frame: the distance from the scroller
     * position last read to the current one goes into `Scroll` and is
     * recorded, so the recorded distances add up to the scroller's position.
     */
    method FeedScroller()
      requires Consistent() && scroller.Valid() && lastScrollerPos == Sum(feed)
      modifies this`current, this`residual, this`lastScrollerPos, this`feed
      ensures Valid()
      ensures State() == Step(Range(), old(State()), scroller.curr - old(lastScrollerPos))
      ensures feed == old(feed) + [scroller.curr - old(lastScrollerPos)]
      ensures lastScrollerPos == scroller.curr
    {
      var distance := scroller.curr - lastScrollerPos;
      Scroll(distance);
      assert (feed + [distance])[..|feed|] == feed;
      feed := feed + [distance];
      lastScrollerPos := scroller.curr;
    }

    /**
     * A tick as `drawLines` places it: `(index - current)` ticks from the
     * centre line, shifted back by the residual, faded by its distance from
     * the centre, and major exactly when the value interval divides its index.
     */
    ghost predicate Placed(t: Tick)
      reads this
      requires valueInterval > 0
    {
      && center > 0
      && t.pos == center - residual + (t.index - current) * lineMargin
      && t.alpha == Alpha(t.pos, center)
      && t.major == (t.index % valueInterval == 0)
    }

    /**
     * `drawLines`: one slot per tick the view is long, starting half a view
     * before the current value; only slots whose index is in range are drawn.
     * The drawn ticks are exactly the consecutive indices from the first
     * in-range slot to the last, each placed as `Placed` says.
     */
    method DrawLines() returns (ticks: seq<Tick>)
      requires Valid()
      requires center > 0 || lineItems == 0
      ensures var first := Max(current - center / lineMargin, minUnit);
              var last := Min(current - center / lineMargin + lineItems - 1, maxUnit);
              && |ticks| == Count(first, last)
              && forall k :: 0 <= k < |ticks| ==> ticks[k].index == first + k
      ensures forall k :: 0 <= k < |ticks| ==>
                && center > 0
                && ticks[k].pos == center - residual + (ticks[k].index - current) * lineMargin
                && ticks[k].alpha == Alpha(ticks[k].pos, center)
                && ticks[k].major == (ticks[k].index % valueInterval == 0)
    {
      var halfNum := center / lineMargin;
      var unit := current - halfNum;
      var pos := center - halfNum * lineMargin - residual;
      ghost var first := Max(current - halfNum, minUnit);
      assert (unit - current) * lineMargin == -(halfNum * lineMargin);
      ticks := [];
      for i := 0 to lineItems
        invariant unit == current - halfNum + i
        invariant pos == center - residual + (unit - current) * lineMargin
        invariant |ticks| == Count(first, Min(unit - 1, maxUnit))
        invariant forall k :: 0 <= k < |ticks| ==> ticks[k].index == first + k && Placed(ticks[k])
      {
        if minUnit <= unit <= maxUnit {
          var alpha := Alpha(pos, center);
          RemZeroIff(unit, valueInterval);
          var tick := Tick(unit, pos, alpha, Rem(unit, valueInterval) == 0);
          assert tick.index == first + |ticks| && Placed(tick);
          ticks := ticks + [tick];
        }
        assert (unit + 1 - current) * lineMargin == (unit - current) * lineMargin + lineMargin;
        unit := unit + 1;
        pos := pos + lineMargin;
      }
    }

    /**
     * How many units from the current value the side labels sit: the
     * largest positive multiple of the text interval below half the slot
     * count, or 0 when there is none (then no label is drawn).
     */
    function SideOffset(): (offset: int)
      reads this
      requires Consistent()
      ensures offset > 0 <==> center / lineMargin > textInterval
      ensures offset > 0 ==>
                && offset < center / lineMargin <= offset + textInterval
                && offset % textInterval == 0
    {
      var halfNum := center / lineMargin;
      var steps := LabelSteps(halfNum, textInterval);
      LabelsShownIff(halfNum, textInterval);
      if steps <= 0 then 0
      else
        MulMono(1, steps, textInterval);
        MultipleHasNoRemainder(steps, textInterval);
        steps * textInterval
    }

    /**
     * `drawSideText`: two labels `SideOffset()` units either side of the
     * current value, each emitted only when that value is in range, placed
     * that many ticks from the centre line (without the residual) with
     * alpha 255/3.
     */
    function SideText(): (labels: seq<Label>)
      reads this
      requires Consistent()
      ensures |labels| == (if SideOffset() > 0 && current - SideOffset() >= minUnit then 1 else 0)
                          + (if SideOffset() > 0 && current + SideOffset() <= maxUnit then 1 else 0)
      ensures forall l :: l in labels ==>
                && (l.index == current - SideOffset() || l.index == current + SideOffset())
                && l.alpha == SideLabelAlpha
                && minUnit <= l.index <= maxUnit
                && l.pos == center + (l.index - current) * lineMargin
      ensures (exists l :: l in labels && l.index == current - SideOffset())
                <==> SideOffset() > 0 && current - SideOffset() >= minUnit
      ensures (exists l :: l in labels && l.index == current + SideOffset())
                <==> SideOffset() > 0 && current + SideOffset() <= maxUnit
    {
      var offset := SideOffset();
      if offset <= 0 then []
      else
        assert (-offset) * lineMargin == -(lineMargin * offset);
        (if current - offset >= minUnit then [Label(current - offset, center - lineMargin * offset, SideLabelAlpha)] else [])
        + (if current + offset <= maxUnit then [Label(current + offset, center + lineMargin * offset, SideLabelAlpha)] else [])
    }
  }
}
