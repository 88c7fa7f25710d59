/**
 * The scroll accumulator of the ruler (`scroll`) and its snap correction
 * (`scrollBackToCorrectPos`) as functions on values. The value is held as an
 * integer unit index on the ruler's grid and the pixel offset not yet turned
 * into whole ticks as an integer residual. The view class in ruler_view.dfy
 * updates its fields exactly as `Step` and `Correction` say; the lemmas here
 * are what those updates guarantee, one call at a time and over whole runs of
 * deltas.
 */
module ScrollMath {
  import opened JavaInt

  /** The scrollable range, as unit indices, and the pixel distance between two ticks. */
  datatype Axis = Axis(minUnit: int, maxUnit: int, margin: int) {
    predicate Valid() {
      minUnit <= maxUnit && margin > 0
    }
  }

  /** The current unit index and the sub-tick pixel residual. */
  datatype ScrollState = ScrollState(index: int, residual: int)

  /**
   * The states the accumulator keeps: the index is in range, the residual is
   * less than one tick, and the residual never points past a bound, so the
   * pixel position stays between the first and the last tick.
   */
  predicate InRange(a: Axis, s: ScrollState) {
    && a.Valid()
    && a.minUnit <= s.index <= a.maxUnit
    && -a.margin < s.residual < a.margin
    && (s.index == a.minUnit ==> s.residual >= 0)
    && (s.index == a.maxUnit ==> s.residual <= 0)
  }

  /** The pixel position of the ruler: whole ticks plus the residual. */
  function Position(a: Axis, s: ScrollState): int {
    s.index * a.margin + s.residual
  }

  /** At `index`, the delta `d` points out of the range, or is zero at a bound: the hard-stop test. */
  predicate PushesPast(a: Axis, index: int, d: int): (stop: bool)
    ensures stop ==> index == a.minUnit || index == a.maxUnit
    ensures stop && d < 0 ==> index == a.minUnit
    ensures stop && d > 0 ==> index == a.maxUnit
  {
    (index == a.minUnit && d <= 0) || (index == a.maxUnit && d >= 0)
  }

  /** Brings an index back into the range; an index on or beyond a bound becomes that bound. */
  function Clamp(a: Axis, index: int): (r: int)
    requires a.Valid()
    ensures a.minUnit <= r <= a.maxUnit
    ensures a.minUnit <= index <= a.maxUnit ==> r == index
    ensures index < a.minUnit ==> r == a.minUnit
    ensures index > a.maxUnit ==> r == a.maxUnit
  {
    if index <= a.minUnit then a.minUnit
    else if index >= a.maxUnit then a.maxUnit
    else index
  }

  /**
   * One call of `scroll(d)`. At a bound with an outward (or zero) delta the
   * residual is dropped. Otherwise the delta joins the residual, the whole
   * ticks in it (truncated toward zero, as the two rounding branches do) move
   * the index, the index is clamped, the residual keeps Java's remainder, and
   * the residual is dropped again if the new index is a bound the delta points at.
   */
  function Step(a: Axis, s: ScrollState, d: int): (t: ScrollState)
    requires a.Valid()
    ensures a.minUnit <= t.index <= a.maxUnit
    ensures PushesPast(a, t.index, d) ==> t.residual == 0
  {
    if PushesPast(a, s.index, d) then ScrollState(s.index, 0)
    else
      var total := s.residual + d;
      var index := Clamp(a, s.index + Div(total, a.margin));
      if PushesPast(a, index, d) then ScrollState(index, 0)
      else ScrollState(index, Rem(total, a.margin))
  }

  /** The step ends in a hard stop: its residual was forced to zero. */
  predicate Stops(a: Axis, s: ScrollState, d: int)
    requires a.Valid()
  {
    PushesPast(a, Step(a, s, d).index, d)
  }

  /**
   * What one step guarantees. The state stays in range. At a bound with an
   * outward delta nothing moves and the residual becomes zero. A step that
   * ends on a bound it points at stops there with no residual. Every other
   * step conserves the pixel position exactly, keeping Java's remainder of
   * the accumulated pixels as the new residual.
   */
  lemma StepSpec(a: Axis, s: ScrollState, d: int)
    requires InRange(a, s)
    ensures InRange(a, Step(a, s, d))
    ensures PushesPast(a, s.index, d) ==> Step(a, s, d) == ScrollState(s.index, 0)
    ensures Stops(a, s, d) ==>
              && Step(a, s, d).residual == 0
              && Step(a, s, d).index == (if d < 0 then a.minUnit else if d > 0 then a.maxUnit else s.index)
    ensures !Stops(a, s, d) ==>
              && Position(a, Step(a, s, d)) == Position(a, s) + d
              && Step(a, s, d).index == s.index + Div(s.residual + d, a.margin)
              && Step(a, s, d).residual == Rem(s.residual + d, a.margin)
  {
    var t := Step(a, s, d);
    if !PushesPast(a, s.index, d) {
      var total := s.residual + d;
      QuotientFollowsDelta(s.residual, d, a.margin);
      if !PushesPast(a, t.index, d) {
        assert t.index == s.index + Div(total, a.margin);
        WholeTicksAndRemainder(s.index, total, a.margin);
      }
    }
  }

  /** Starting from a residual under one tick, the whole ticks in residual plus delta have the delta's sign. */
  lemma QuotientFollowsDelta(r: int, d: int, m: int)
    requires m > 0 && -m < r < m
    ensures d > 0 ==> Div(r + d, m) >= 0
    ensures d < 0 ==> Div(r + d, m) <= 0
    ensures d == 0 ==> Div(r + d, m) == 0
  {
    if d == 0 {
      RemOfSmall(r, m);
    }
  }

  /** Moving the whole ticks of `total` into the index and keeping the remainder conserves the position. */
  lemma WholeTicksAndRemainder(index: int, total: int, m: int)
    requires m > 0
    ensures (index + Div(total, m)) * m + Rem(total, m) == index * m + total
  {
    var q := Div(total, m);
    assert (index + q) * m == index * m + q * m;
  }

  /** The sum of a run of deltas. */
  function Sum(ds: seq<int>): int {
    if ds == [] then 0 else Sum(ds[..|ds| - 1]) + ds[|ds| - 1]
  }

  /** The state after feeding the deltas to `scroll` one by one. */
  function Run(a: Axis, s: ScrollState, ds: seq<int>): ScrollState
    requires a.Valid()
  {
    if ds == [] then s else Step(a, Run(a, s, ds[..|ds| - 1]), ds[|ds| - 1])
  }

  /** No step of the run ends in a hard stop. */
  predicate NoStops(a: Axis, s: ScrollState, ds: seq<int>)
    requires a.Valid()
  {
    ds == [] || (NoStops(a, s, ds[..|ds| - 1]) && !Stops(a, Run(a, s, ds[..|ds| - 1]), ds[|ds| - 1]))
  }

  /** Whatever the deltas, the index stays in range and the residual under one tick. */
  lemma {:induction false} RunInRange(a: Axis, s: ScrollState, ds: seq<int>)
    requires InRange(a, s)
    ensures InRange(a, Run(a, s, ds))
  {
    if ds != [] {
      RunInRange(a, s, ds[..|ds| - 1]);
      StepSpec(a, Run(a, s, ds[..|ds| - 1]), ds[|ds| - 1]);
    }
  }

  /** A run without hard stops moves the pixel position by exactly the sum of its deltas. */
  lemma {:induction false} RunConserves(a: Axis, s: ScrollState, ds: seq<int>)
    requires InRange(a, s) && NoStops(a, s, ds)
    ensures Position(a, Run(a, s, ds)) == Position(a, s) + Sum(ds)
  {
    if ds != [] {
      var init := ds[..|ds| - 1];
      RunConserves(a, s, init);
      RunInRange(a, s, init);
      StepSpec(a, Run(a, s, init), ds[|ds| - 1]);
    }
  }

  /**
   * Feeding the same pixels in two calls is not the same as feeding them in
   * one: at the lower bound with a residual of 5, -3 then +5 ends with a
   * residual of 5, while the single delta +2 ends with 7.
   */
  lemma SplitDeltaDiffers()
    ensures var a := Axis(0, 10, 8);
            && Step(a, Step(a, ScrollState(0, 5), -3), 5) == ScrollState(0, 5)
            && Step(a, ScrollState(0, 5), 2) == ScrollState(0, 7)
  {
  }

  /**
   * The corrective scroll that `scrollBackToCorrectPos` starts: the residual
   * is moved to the nearer of 0 and the next tick in its direction, and an
   * exact half-way residual goes back to 0.
   */
  function Correction(r: int, m: int): (c: int)
    requires m > 0
    ensures r + c == 0 || r + c == m || r + c == -m
    ensures r + c == 0 <==> 2 * Abs(r) <= m
  {
    if r > 0 then
      if r <= m / 2 then -r else m - r
    else
      if -r <= m / 2 then -r else -(m + r)
  }

  /**
   * For a residual under one tick the correction is at most half a tick and
   * lands on the nearest of the three candidate ticks -m, 0 and m.
   */
  lemma CorrectionIsNearest(r: int, m: int)
    requires m > 0 && -m < r < m
    ensures Abs(Correction(r, m)) <= m / 2
    ensures Abs(Correction(r, m)) <= Abs(r)
    ensures Abs(Correction(r, m)) <= Abs(m - r)
    ensures Abs(Correction(r, m)) <= Abs(-m - r)
  {
  }

  /** A position one of -m, 0, m away from a tick, written as whole ticks plus a residual under one tick, has no residual. */
  lemma LandsOnTick(index: int, r: int, c: int, index': int, r': int, m: int)
    requires m > 0 && -m < r' < m
    requires r + c == 0 || r + c == m || r + c == -m
    requires index' * m + r' == index * m + r + c
    ensures r' == 0
  {
    var j := if r + c == 0 then 0 else if r + c == m then 1 else -1;
    var k := index + j - index';
    assert r' == k * m;
    assert k >= 1 ==> k * m >= m;
    assert k <= -1 ==> k * m <= -m;
  }

  /**
   * A snap whose steps never hit a hard stop lands exactly on a tick: once
   * the deltas fed to `scroll` add up to the correction, the residual is zero
   * and the index is the tick nearest to where the snap started.
   */
  lemma {:induction false} SnapLands(a: Axis, s: ScrollState, ds: seq<int>)
    requires InRange(a, s) && NoStops(a, s, ds)
    requires Sum(ds) == Correction(s.residual, a.margin)
    ensures Run(a, s, ds).residual == 0
    ensures Run(a, s, ds).index * a.margin == Position(a, s) + Correction(s.residual, a.margin)
  {
    var t := Run(a, s, ds);
    RunConserves(a, s, ds);
    RunInRange(a, s, ds);
    LandsOnTick(s.index, s.residual, Correction(s.residual, a.margin), t.index, t.residual, a.margin);
  }
}
