/**
 * The sun-elevation search (`elevationTime` inside `computeZmanim`): an
 * integer bisection over the milliseconds of one day for the first moment
 * the sun's altitude reaches a target angle.
 *
 * Instants are seconds on the `Date` axis, as `real`. The astronomy
 * (Julian day, sun position, horizontal coordinates) is the parameter
 * `altitude`, a function from an instant to degrees above the horizon.
 */
module Solver {
  import opened Wrappers

  /** `maxMillis`: one day of milliseconds. */
  const MaxMillis: int := 24 * 60 * 60 * 1000

  /** The first midpoint the search probes: noon of the day. */
  const Noon: int := MaxMillis / 2

  /** `startOfDay.addingTimeInterval(Double(ms) / 1000)`. */
  function AtMillis(startOfDay: real, ms: int): (r: real)
    ensures 0 <= ms ==> startOfDay <= r
    ensures ms <= MaxMillis ==> r <= startOfDay + 86400.0
  {
    startOfDay + ms as real / 1000.0
  }

  /** One call of `elevationTime`: the day, the angle, and which side of it counts. */
  datatype Target = Target(altitude: real -> real, startOfDay: real, elevation: real, isSunrise: bool)

  /** The loop's test at millisecond `ms`: above the angle for a rising target, below it otherwise. */
  predicate Reached(t: Target, ms: int) {
    var alt := t.altitude(AtMillis(t.startOfDay, ms));
    (t.isSunrise && alt >= t.elevation) || (!t.isSunrise && alt <= t.elevation)
  }

  /** Where the bisection loop started on `[low, high]` converges. */
  function Search(t: Target, low: int, high: int): (r: int)
    requires 0 <= low <= high
    ensures low <= r <= high
    decreases high - low
  {
    if low < high then
      var mid := (low + high) / 2;
      if Reached(t, mid) then Search(t, low, mid) else Search(t, mid + 1, high)
    else
      low
  }

  /**
   * Whatever the altitude does, the bisection ends on a genuine transition:
   * the test holds where it stops (unless it stopped at the upper end, which
   * is never probed), and fails just before (unless it stopped at the lower end).
   */
  lemma {:induction false} SearchTransition(t: Target, low: int, high: int)
    requires 0 <= low <= high
    ensures Search(t, low, high) < high ==> Reached(t, Search(t, low, high))
    ensures low < Search(t, low, high) ==> !Reached(t, Search(t, low, high) - 1)
  {
    SearchEndsReached(t, low, high);
    SearchStartsAfterMiss(t, low, high);
  }

  /** Where the bisection stops short of the upper end, the test holds. */
  lemma {:induction false} SearchEndsReached(t: Target, low: int, high: int)
    requires 0 <= low <= high
    ensures Search(t, low, high) < high ==> Reached(t, Search(t, low, high))
    decreases high - low
  {
    if low < high {
      var mid := (low + high) / 2;
      if Reached(t, mid) {
        SearchEndsReached(t, low, mid);
      } else {
        SearchEndsReached(t, mid + 1, high);
      }
    }
  }

  /** Where the bisection stops past the lower end, the test fails one millisecond before. */
  lemma {:induction false} SearchStartsAfterMiss(t: Target, low: int, high: int)
    requires 0 <= low <= high
    ensures low < Search(t, low, high) ==> !Reached(t, Search(t, low, high) - 1)
    decreases high - low
  {
    if low < high {
      var mid := (low + high) / 2;
      if Reached(t, mid) {
        SearchStartsAfterMiss(t, low, mid);
      } else {
        SearchStartsAfterMiss(t, mid + 1, high);
      }
    }
  }

  /** Reference definition: the first millisecond in `[k, hi)` where the test holds, or `hi`. */
  function FirstReached(t: Target, k: int, hi: int): (r: int)
    requires k <= hi
    ensures k <= r <= hi
    ensures forall j :: k <= j < r ==> !Reached(t, j)
    ensures r < hi ==> Reached(t, r)
    decreases hi - k
  {
    if k == hi then hi
    else if Reached(t, k) then k
    else FirstReached(t, k + 1, hi)
  }

  /** The test never turns off again inside `[lo, hi)` once it holds. */
  ghost predicate MonotoneOn(t: Target, lo: int, hi: int) {
    forall i, j :: lo <= i <= j < hi && Reached(t, i) ==> Reached(t, j)
  }

  /** Where the test is monotone, the bisection finds its first millisecond. */
  lemma SearchIsFirst(t: Target, lo: int, hi: int)
    requires 0 <= lo <= hi
    requires MonotoneOn(t, lo, hi)
    ensures Search(t, lo, hi) == FirstReached(t, lo, hi)
  {
    var r, f := Search(t, lo, hi), FirstReached(t, lo, hi);
    SearchTransition(t, lo, hi);
    if r < hi {
      assert Reached(t, r);
    }
    if lo < r {
      assert !Reached(t, r - 1);
    }
  }

  /**
   * The real sun is not monotone over a whole day. For a rising target
   * reached at noon, the first probe keeps the morning and the search is
   * the first reaching millisecond before noon.
   */
  lemma MorningSearch(t: Target)
    requires Reached(t, Noon) && MonotoneOn(t, 0, Noon)
    ensures Search(t, 0, MaxMillis) == FirstReached(t, 0, Noon)
  {
    assert Search(t, 0, MaxMillis) == Search(t, 0, Noon);
    SearchIsFirst(t, 0, Noon);
  }

  /** For a target not reached at noon the search is the first reaching millisecond after noon. */
  lemma EveningSearch(t: Target)
    requires !Reached(t, Noon) && MonotoneOn(t, Noon + 1, MaxMillis)
    ensures Search(t, 0, MaxMillis) == FirstReached(t, Noon + 1, MaxMillis)
  {
    assert Search(t, 0, MaxMillis) == Search(t, Noon + 1, MaxMillis);
    SearchIsFirst(t, Noon + 1, MaxMillis);
  }

  /** `elevationTime`'s result: nothing when the search ends at either end of the day. */
  function ElevationResult(t: Target): (r: Option<real>)
    ensures r.Some? ==> t.startOfDay < r.value < t.startOfDay + 86400.0
  {
    var low := Search(t, 0, MaxMillis);
    if low == MaxMillis || low == 0 then None else Some(AtMillis(t.startOfDay, low))
  }

  /**
   * A returned time is a crossing inside the day: the test fails one
   * millisecond before the time and holds at it. No time means the test
   * already held at midnight or still failed at the last millisecond. (A
   * test that is not monotone can hold inside the day and still give no
   * time, when the bisection's probes miss it.)
   */
  lemma ElevationResultIsCrossing(t: Target)
    ensures ElevationResult(t).Some? ==>
      exists ms :: 0 < ms < MaxMillis && ElevationResult(t).value == AtMillis(t.startOfDay, ms)
        && Reached(t, ms) && !Reached(t, ms - 1)
    ensures ElevationResult(t).None? ==> Reached(t, 0) || !Reached(t, MaxMillis - 1)
  {
    var ms := Search(t, 0, MaxMillis);
    SearchTransition(t, 0, MaxMillis);
    if ElevationResult(t).Some? {
      assert ElevationResult(t).value == AtMillis(t.startOfDay, ms) && Reached(t, ms) && !Reached(t, ms - 1);
    }
  }

  /** With a test monotone over the day, a returned time is the first one that reaches the angle. */
  lemma ElevationResultIsFirst(t: Target)
    requires MonotoneOn(t, 0, MaxMillis)
    ensures var f := FirstReached(t, 0, MaxMillis);
      ElevationResult(t) == if f == 0 || f == MaxMillis then None else Some(AtMillis(t.startOfDay, f))
  {
    SearchIsFirst(t, 0, MaxMillis);
  }

  /** A test that holds wherever another holds is first reached no later. */
  lemma FirstReachedAntitone(t1: Target, t2: Target, k: int, hi: int)
    requires k <= hi
    requires forall j :: k <= j < hi && Reached(t2, j) ==> Reached(t1, j)
    ensures FirstReached(t1, k, hi) <= FirstReached(t2, k, hi)
  {
    var f2 := FirstReached(t2, k, hi);
    if f2 < hi {
      assert Reached(t1, f2);
    }
  }

  /**
   * On one morning, a rising target with a lower angle (dawn at -16.1
   * degrees) is found no later than one with a higher angle (sunrise).
   */
  lemma LowerAngleRisesFirst(t1: Target, t2: Target)
    requires t1.altitude == t2.altitude && t1.startOfDay == t2.startOfDay
    requires t1.isSunrise && t2.isSunrise && t1.elevation <= t2.elevation
    requires Reached(t2, Noon) && MonotoneOn(t1, 0, Noon) && MonotoneOn(t2, 0, Noon)
    ensures Search(t1, 0, MaxMillis) <= Search(t2, 0, MaxMillis)
  {
    MorningSearch(t1);
    MorningSearch(t2);
    FirstReachedAntitone(t1, t2, 0, Noon);
  }

  /** The loop of `elevationTime`, with the altitude oracle called at each midpoint. */
  method ElevationTime(t: Target) returns (r: Option<real>)
    ensures r == ElevationResult(t)
  {
    var low, high := 0, MaxMillis;
    while low < high
      invariant 0 <= low <= high <= MaxMillis
      invariant Search(t, low, high) == Search(t, 0, MaxMillis)
      decreases high - low
    {
      var mid := (low + high) / 2;
      var time := AtMillis(t.startOfDay, mid);
      var alt := t.altitude(time);
      if (t.isSunrise && alt >= t.elevation) || (!t.isSunrise && alt <= t.elevation) {
        high := mid;
      } else {
        low := mid + 1;
      }
    }
    if low == MaxMillis || low == 0 {
      return None;
    }
    return Some(AtMillis(t.startOfDay, low));
  }
}
