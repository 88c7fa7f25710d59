/**
 * The part of the platform's OverScroller that the ruler relies on, as an
 * abstract source of integer positions. A started animation reports a fixed
 * run of positions, one per `ComputeScrollOffset` call, and is finished once
 * it has reported the last. Which positions a fling or a corrective scroll
 * goes through (the fling curve, the interpolator, the frame timing) is the
 * platform's business and is passed in as a parameter.
 */
module Scrollers {

  /** How the current (or last) animation was started. */
  datatype Motion =
    | NoMotion
    | FlingMotion(velocity: int, minPos: int, maxPos: int)
    | ScrollMotion(dx: int)

  class OverScroller {
    /** `isFinished()`. */
    var finished: bool
    /** `getCurrX()` / `getCurrY()`. */
    var curr: int
    /** The positions the running animation will still report, in order. */
    var ahead: seq<int>
    var motion: Motion

    ghost predicate Valid()
      reads this
    {
      finished <==> ahead == []
    }

    constructor ()
      ensures Valid() && finished && curr == 0 && motion == NoMotion
    {
      finished := true;
      curr := 0;
      ahead := [];
      motion := NoMotion;
    }

    /**
     * `fling(0, 0, velocity, 0, minPos, maxPos, 0, 0)` along the ruler's
     * axis: the animation starts at 0 and reports `path`, whose last element
     * is where the fling comes to rest.
     */
    method Fling(velocity: int, minPos: int, maxPos: int, path: seq<int>)
      requires path != []
      modifies this
      ensures Valid() && !finished && curr == 0 && ahead == path
      ensures motion == FlingMotion(velocity, minPos, maxPos)
    {
      finished := false;
      curr := 0;
      ahead := path;
      motion := FlingMotion(velocity, minPos, maxPos);
    }

    /**
     * `startScroll(0, 0, dx, 0)`: the animation starts at 0, reports the
     * interpolated `samples` and ends exactly at `dx`.
     */
    method StartScroll(dx: int, samples: seq<int>)
      modifies this
      ensures Valid() && !finished && curr == 0 && ahead == samples + [dx]
      ensures motion == ScrollMotion(dx)
    {
      finished := false;
      curr := 0;
      ahead := samples + [dx];
      motion := ScrollMotion(dx);
    }

    /** `abortAnimation()`: jumps to the final position and stops. */
    method AbortAnimation()
      requires Valid()
      modifies this
      ensures Valid() && finished && motion == old(motion)
      ensures curr == if old(ahead) == [] then old(curr) else old(ahead)[|old(ahead)| - 1]
    {
      if ahead != [] {
        curr := ahead[|ahead| - 1];
      }
      ahead := [];
      finished := true;
    }

    /**
     * `computeScrollOffset()`: false once the animation is finished;
     * otherwise it moves to the next position, finishing on the last one,
     * and answers true.
     */
    method ComputeScrollOffset() returns (running: bool)
      requires Valid()
      modifies this
      ensures Valid() && motion == old(motion)
      ensures running == !old(finished)
      ensures running ==> curr == old(ahead)[0] && ahead == old(ahead)[1..]
      ensures !running ==> unchanged(this)
    {
      running := !finished;
      if running {
        curr := ahead[0];
        ahead := ahead[1..];
        finished := ahead == [];
      }
    }
  }
}
