/**
 * The day's times as `computeZmanim` derives them: four anchors found by
 * the elevation search from the first four entries, the two halachic hour
 * lengths, midday, each visible entry resolved by its unit, and the
 * current halachic hour rounded to a quarter.
 */
module Zmanim {
  import opened Wrappers
  import opened Parsing
  import opened Settings
  import opened Solver

  /** The day being computed: the sun's altitude over time and the day's start in the app's time zone. */
  datatype Day = Day(altitude: real -> real, startOfDay: real)

  /** `elevationTime(angle, isSunrise:)` on `day`. */
  function ElevationOn(day: Day, angle: real, isSunrise: bool): Option<real> {
    ElevationResult(Target(day.altitude, day.startOfDay, angle, isSunrise))
  }

  /** `offset(base, hours:)`: the base moved by a number of hours, when both are known. */
  function Offset(base: Option<real>, hours: Option<real>): (r: Option<real>)
    ensures r.Some? <==> base.Some? && hours.Some?
    ensures r.Some? ==> r.value - base.value == 3600.0 * hours.value
  {
    if base.Some? && hours.Some? then Some(base.value + hours.value * 60.0 * 60.0) else None
  }

  // ---------------------------------------------------------------------------
  // Anchors

  /** Entries 0 to 3 (dawn, sunrise, sunset, nightfall) are read by position; their values must parse. */
  predicate AnchorsParse(es: seq<ZmanEntry>) {
    |es| >= 4 && forall k :: 0 <= k < 4 ==> ParseDouble(es[k].value).Some?
  }

  datatype Anchors = Anchors(dawn: Option<real>, sunrise: Option<real>, sunset: Option<real>, tzet: Option<real>)

  /** `dawn`, `sunrise`, `sunset`, `tzet`: rising for the first two entries, setting for the next two. */
  function AnchorsOf(es: seq<ZmanEntry>, day: Day): Anchors
    requires AnchorsParse(es)
  {
    Anchors(ElevationOn(day, ParseDouble(es[0].value).value, true),
            ElevationOn(day, ParseDouble(es[1].value).value, true),
            ElevationOn(day, ParseDouble(es[2].value).value, false),
            ElevationOn(day, ParseDouble(es[3].value).value, false))
  }

  /** Each anchor that exists falls inside its day. */
  lemma AnchorsInsideDay(es: seq<ZmanEntry>, day: Day)
    requires AnchorsParse(es)
    ensures var a := AnchorsOf(es, day);
      forall x :: x in [a.dawn, a.sunrise, a.sunset, a.tzet] && x.Some? ==>
        day.startOfDay < x.value < day.startOfDay + 86400.0
  {
  }

  /** `hour`: a twelfth of the time from sunrise to sunset, when both exist. */
  function HourGra(a: Anchors): (r: Option<real>)
    ensures r.Some? <==> a.sunrise.Some? && a.sunset.Some?
    ensures r.Some? ==> 12.0 * r.value == a.sunset.value - a.sunrise.value
  {
    if a.sunrise.Some? && a.sunset.Some? then Some((a.sunset.value - a.sunrise.value) / 12.0) else None
  }

  /** `hourMA`: a twelfth of the time from dawn to nightfall, when both exist. */
  function HourMa(a: Anchors): (r: Option<real>)
    ensures r.Some? <==> a.dawn.Some? && a.tzet.Some?
    ensures r.Some? ==> 12.0 * r.value == a.tzet.value - a.dawn.value
  {
    if a.dawn.Some? && a.tzet.Some? then Some((a.tzet.value - a.dawn.value) / 12.0) else None
  }

  /** `hatzot`: halfway from sunrise to sunset, when both exist. */
  function Hatzot(a: Anchors): (r: Option<real>)
    ensures r.Some? <==> a.sunrise.Some? && a.sunset.Some?
    ensures r.Some? ==> r.value - a.sunrise.value == a.sunset.value - r.value
  {
    if a.sunrise.Some? && a.sunset.Some? then
      Some(a.sunrise.value + (a.sunset.value - a.sunrise.value) / 2.0)
    else
      None
  }

  /** On a day with sunrise before sunset, midday lies six positive hours after sunrise. */
  lemma MiddayBetween(a: Anchors)
    requires a.sunrise.Some? && a.sunset.Some? && a.sunrise.value < a.sunset.value
    ensures HourGra(a).value > 0.0
    ensures a.sunrise.value < Hatzot(a).value < a.sunset.value
    ensures Hatzot(a) == Offset(a.sunrise, Some(6.0 * HourGra(a).value / 3600.0))
  {
  }

  /** `hatzotLailahLabel`: midnight is midday plus twelve hours, so six GRA hours past sunset. */
  lemma MidnightAfterSunset(a: Anchors)
    requires a.sunrise.Some? && a.sunset.Some?
    ensures Offset(Hatzot(a), Some(12.0)).value - a.sunset.value == 43200.0 - 6.0 * HourGra(a).value
  {
  }

  // ---------------------------------------------------------------------------
  // Resolving one entry by its unit

  /** What the switch force-unwraps: every unit but fixed hours parses the value. */
  predicate Resolvable(e: ZmanEntry) {
    e.unit != FixedHours ==> ParseDouble(e.value).Some?
  }

  /**
   * The `.hours` case: `offset(base, hours: value / 3600 * (hour ?? 0))`,
   * which is `value` hours of the given length after `base`.
   */
  function HoursAfter(base: Option<real>, value: real, hour: Option<real>): Option<real> {
    var multiplier := value / 3600.0;
    Offset(base, Some(multiplier * hour.GetOr(0.0)))
  }

  /** Reference definition: `value` hours of `hour` seconds each after `base`; a missing hour length counts as zero. */
  function HalachicHoursAfter(base: Option<real>, value: real, hour: Option<real>): Option<real> {
    if base.None? then None else Some(base.value + value * hour.GetOr(0.0))
  }

  /** The division by 3600 and the multiplication by 3600 in the `.hours` case cancel. */
  lemma HoursAfterValue(base: Option<real>, value: real, hour: Option<real>)
    ensures HoursAfter(base, value, hour) == HalachicHoursAfter(base, value, hour)
  {
    var m := value / 3600.0 * hour.GetOr(0.0);
    HoursCancel(value, hour.GetOr(0.0), m);
    if base.Some? {
      var o := HoursAfter(base, value, hour);
      assert o == Offset(base, Some(m));
      assert o.value - base.value == value * hour.GetOr(0.0);
    }
  }

  /** The `switch entry.unit` of `computeZmanim`. */
  function Resolve(e: ZmanEntry, day: Day, a: Anchors): Option<real>
    requires Resolvable(e)
  {
    match e.unit
    case Degrees => ElevationOn(day, ParseDouble(e.value).value, e.isAlot)
    case Hours =>
      if e.isAlot then HoursAfter(a.dawn, ParseDouble(e.value).value, HourMa(a))
      else HoursAfter(a.sunrise, ParseDouble(e.value).value, HourGra(a))
    case Minutes => Offset(a.sunset, Some(ParseDouble(e.value).value / 60.0))
    case FixedHours => Offset(Hatzot(a), Some(12.0))
  }

  /**
   * An hours entry is its value in halachic hours after sunrise (GRA) or dawn
   * (MA): the division by 3600 and the multiplication by 3600 cancel, and a
   * missing hour length counts as zero.
   */
  lemma ResolveHours(e: ZmanEntry, day: Day, a: Anchors)
    requires e.unit == Hours && Resolvable(e)
    ensures Resolve(e, day, a) == if e.isAlot then HalachicHoursAfter(a.dawn, ParseDouble(e.value).value, HourMa(a))
                                  else HalachicHoursAfter(a.sunrise, ParseDouble(e.value).value, HourGra(a))
  {
    var v := ParseDouble(e.value).value;
    if e.isAlot {
      HoursAfterValue(a.dawn, v, HourMa(a));
    } else {
      HoursAfterValue(a.sunrise, v, HourGra(a));
    }
  }

  /** `value / 3600` hours of `h` seconds each, moved by an hour's 3600 seconds, are `value * h` seconds. */
  lemma HoursCancel(v: real, h: real, m: real)
    requires m == v / 3600.0 * h
    ensures 3600.0 * m == v * h
  {
    assert 3600.0 * m == (v / 3600.0 * 3600.0) * h;
  }

  /** A minutes entry is its value in minutes after sunset. */
  lemma ResolveMinutes(e: ZmanEntry, day: Day, a: Anchors)
    requires e.unit == Minutes && Resolvable(e)
    ensures Resolve(e, day, a) == if a.sunset.None? then None else Some(a.sunset.value + 60.0 * ParseDouble(e.value).value)
  {
  }

  /** A fixed-hours entry is midnight whatever its value, and needs no value that parses. */
  lemma ResolveFixedHours(e: ZmanEntry, value: string, day: Day, a: Anchors)
    requires e.unit == FixedHours
    ensures Resolvable(e.(value := value))
    ensures Resolve(e.(value := value), day, a) == Resolve(e, day, a)
    ensures Resolve(e, day, a).Some? <==> a.sunrise.Some? && a.sunset.Some?
    ensures Resolve(e, day, a).Some? ==> Resolve(e, day, a).value == Hatzot(a).value + 43200.0
  {
  }

  /** A degrees entry is the elevation search for its angle, rising when it is an "alot" entry. */
  lemma ResolveDegrees(e: ZmanEntry, day: Day, a: Anchors)
    requires e.unit == Degrees && Resolvable(e)
    ensures Resolve(e, day, a) == ElevationOn(day, ParseDouble(e.value).value, e.isAlot)
    ensures Resolve(e, day, a).Some? ==> day.startOfDay < Resolve(e, day, a).value < day.startOfDay + 86400.0
  {
  }

  /** The default candle-lighting entry ("-18" minutes) is eighteen minutes before sunset. */
  lemma DefaultCandleLighting(candleVisible: bool, tzetKey: string, ids: seq<Uuid>, day: Day, a: Anchors)
    requires |ids| == 13
    ensures var e := DefaultList(candleVisible, tzetKey, ids)[11];
      Resolvable(e) && Resolve(e, day, a) == if a.sunset.None? then None else Some(a.sunset.value - 1080.0)
  {
    var e := DefaultList(candleVisible, tzetKey, ids)[11];
    CandleLightingText();
    IntTextIsDoubleText("-18");
    ResolveMinutes(e, day, a);
  }

  // ---------------------------------------------------------------------------
  // All visible entries

  /** `entries.filter { $0.isVisible }`, in list order. */
  function Visible(es: seq<ZmanEntry>): (r: seq<ZmanEntry>)
    ensures |r| <= |es|
    ensures forall i :: 0 <= i < |r| ==> r[i].isVisible
    ensures forall e :: e in r <==> e in es && e.isVisible
  {
    if es == [] then []
    else Visible(es[..|es| - 1]) + (if es[|es| - 1].isVisible then [es[|es| - 1]] else [])
  }

  /** Showing every entry shows the whole list, in order. */
  lemma {:induction false} VisibleAll(es: seq<ZmanEntry>)
    ensures (forall k :: 0 <= k < |es| ==> es[k].isVisible) ==> Visible(es) == es
  {
    if es != [] {
      VisibleAll(es[..|es| - 1]);
    }
  }

  /** What `computeZmanim` force-unwraps: the anchors and every visible value it reads. */
  predicate Computable(es: seq<ZmanEntry>) {
    AnchorsParse(es) && forall k :: 0 <= k < |es| && es[k].isVisible ==> Resolvable(es[k])
  }

  /** The lists the settings screen keeps can always be computed. */
  lemma WellFormedIsComputable(es: seq<ZmanEntry>)
    requires |es| >= 4 && AllWellFormed(es)
    ensures Computable(es)
  {
  }

  /** `zmanTimes`: one resolved time per entry, in order. */
  function ResolveAll(vs: seq<ZmanEntry>, day: Day, a: Anchors): (r: seq<Option<real>>)
    requires forall k :: 0 <= k < |vs| ==> Resolvable(vs[k])
    ensures |r| == |vs|
  {
    if vs == [] then []
    else ResolveAll(vs[..|vs| - 1], day, a) + [Resolve(vs[|vs| - 1], day, a)]
  }

  /** The i-th time is the i-th entry resolved by its unit. */
  lemma {:induction false} ResolveAllAt(vs: seq<ZmanEntry>, day: Day, a: Anchors, i: int)
    requires AllResolvable(vs) && 0 <= i < |vs|
    ensures ResolveAll(vs, day, a)[i] == Resolve(vs[i], day, a)
  {
    if i < |vs| - 1 {
      var init := vs[..|vs| - 1];
      assert init[i] == vs[i];
      ResolveAllAt(init, day, a, i);
    }
  }

  /** The elevation loop, run for each of the four anchors. */
  method ComputeAnchors(es: seq<ZmanEntry>, day: Day) returns (a: Anchors)
    requires AnchorsParse(es)
    ensures a == AnchorsOf(es, day)
  {
    var dawn := ElevationTime(Target(day.altitude, day.startOfDay, ParseDouble(es[0].value).value, true));
    var sunrise := ElevationTime(Target(day.altitude, day.startOfDay, ParseDouble(es[1].value).value, true));
    var sunset := ElevationTime(Target(day.altitude, day.startOfDay, ParseDouble(es[2].value).value, false));
    var tzet := ElevationTime(Target(day.altitude, day.startOfDay, ParseDouble(es[3].value).value, false));
    a := Anchors(dawn, sunrise, sunset, tzet);
  }

  /** One case of the `switch`, running the elevation loop for a degrees entry. */
  method ResolveEntry(entry: ZmanEntry, day: Day, a: Anchors) returns (time: Option<real>)
    requires Resolvable(entry)
    ensures time == Resolve(entry, day, a)
  {
    match entry.unit {
      case Degrees =>
        var deg := ParseDouble(entry.value).value;
        time := ElevationTime(Target(day.altitude, day.startOfDay, deg, entry.isAlot));
      case Hours =>
        if entry.isAlot {
          time := HoursAfter(a.dawn, ParseDouble(entry.value).value, HourMa(a));
        } else {
          time := HoursAfter(a.sunrise, ParseDouble(entry.value).value, HourGra(a));
        }
      case Minutes =>
        time := Offset(a.sunset, Some(ParseDouble(entry.value).value / 60.0));
      case FixedHours =>
        time := Offset(Hatzot(a), Some(12.0));
    }
  }

  /** The visible entries of a prefix grow by the next entry when it is visible. */
  lemma VisibleStep(es: seq<ZmanEntry>, k: int)
    requires 0 <= k < |es|
    ensures Visible(es[..k + 1]) == Visible(es[..k]) + (if es[k].isVisible then [es[k]] else [])
  {
    assert es[..k + 1][..k] == es[..k];
  }

  /** The visible entries of a computable list can all be resolved. */
  lemma {:induction false} VisibleResolvable(es: seq<ZmanEntry>)
    requires forall k :: 0 <= k < |es| && es[k].isVisible ==> Resolvable(es[k])
    ensures forall k :: 0 <= k < |Visible(es)| ==> Resolvable(Visible(es)[k])
  {
    if es != [] {
      var init := es[..|es| - 1];
      assert forall k :: 0 <= k < |init| ==> init[k] == es[k];
      VisibleResolvable(init);
    }
  }

  /** Every entry of the sequence can be resolved. */
  predicate AllResolvable(vs: seq<ZmanEntry>) {
    forall k :: 0 <= k < |vs| ==> Resolvable(vs[k])
  }

  /** One more entry of the list adds its own time when it is visible. */
  lemma ResolveAllStep(es: seq<ZmanEntry>, k: int, day: Day, a: Anchors)
    requires 0 <= k < |es|
    requires forall j :: 0 <= j < |es| && es[j].isVisible ==> Resolvable(es[j])
    ensures AllResolvable(Visible(es[..k])) && AllResolvable(Visible(es[..k + 1]))
    ensures es[k].isVisible ==> Resolvable(es[k])
    ensures es[k].isVisible ==>
      ResolveAll(Visible(es[..k + 1]), day, a) == ResolveAll(Visible(es[..k]), day, a) + [Resolve(es[k], day, a)]
    ensures !es[k].isVisible ==> ResolveAll(Visible(es[..k + 1]), day, a) == ResolveAll(Visible(es[..k]), day, a)
  {
    VisibleStep(es, k);
    VisibleResolvable(es[..k]);
    VisibleResolvable(es[..k + 1]);
    if es[k].isVisible {
      var vs := Visible(es[..k + 1]);
      assert vs[..|vs| - 1] == Visible(es[..k]) && vs[|vs| - 1] == es[k];
    } else {
      assert Visible(es[..k + 1]) == Visible(es[..k]);
    }
  }

  /** The `for entry in entries where entry.isVisible` loop that appends to `zmanTimes`. */
  method ZmanTimes(es: seq<ZmanEntry>, day: Day, a: Anchors) returns (times: seq<Option<real>>)
    requires Computable(es)
    ensures forall k :: 0 <= k < |Visible(es)| ==> Resolvable(Visible(es)[k])
    ensures times == ResolveAll(Visible(es), day, a)
  {
    VisibleResolvable(es);
    times := [];
    var k := 0;
    while k < |es|
      invariant 0 <= k <= |es|
      invariant AllResolvable(Visible(es[..k]))
      invariant times == ResolveAll(Visible(es[..k]), day, a)
    {
      ResolveAllStep(es, k, day, a);
      if es[k].isVisible {
        var time := ResolveEntry(es[k], day, a);
        times := times + [time];
      }
      k := k + 1;
    }
    assert es[..k] == es;
  }

  // ---------------------------------------------------------------------------
  // The current halachic hour

  /** `halachicHourLabel`: "NA", "Night", or a number of quarter hours. */
  datatype HourReport = NotAvailable | Night | Quarters(n: int)

  /**
   * Elapsed GRA hours since sunrise, rounded to the nearest quarter
   * (`rounded()` takes halves away from zero; the value is never negative
   * here), while `now` lies between sunrise and sunset inclusive.
   */
  function HalachicHour(a: Anchors, now: real): (r: HourReport)
    ensures r.Quarters? ==> a.sunrise.Some? && a.sunset.Some? && a.sunrise.value <= now <= a.sunset.value
    ensures r.Night? ==> a.sunrise.Some? && a.sunset.Some? && (now < a.sunrise.value || a.sunset.value < now)
  {
    if a.sunrise.None? || a.sunset.None? then NotAvailable
    else if a.sunset.value <= a.sunrise.value then NotAvailable
    else if a.sunrise.value <= now <= a.sunset.value then
      var exactHour := (now - a.sunrise.value) / HourGra(a).GetOr(1.0);
      Quarters((exactHour * 4.0 + 0.5).Floor)
    else Night
  }

  /** Both sun anchors exist but sunset does not come after sunrise: `computeZmanim` stops early. */
  predicate NoDaylight(a: Anchors) {
    a.sunrise.Some? && a.sunset.Some? && a.sunset.value <= a.sunrise.value
  }

  /** The daytime branch of the halachic-hour label, once sunrise is known to come before sunset. */
  method DaytimeHour(a: Anchors, now: real) returns (report: HourReport)
    requires a.sunrise.Some? && a.sunset.Some? && a.sunrise.value < a.sunset.value
    ensures report == HalachicHour(a, now)
  {
    var hour := HourGra(a);
    if a.sunrise.value <= now <= a.sunset.value {
      var elapsedSeconds := now - a.sunrise.value;
      var exactHour := elapsedSeconds / hour.GetOr(1.0);
      report := Quarters((exactHour * 4.0 + 0.5).Floor);
    } else {
      report := Night;
    }
  }

  /** A share `e` of at most twelve hours of length `h` is between 0 and 12 hours. */
  lemma HoursBound(e: real, h: real)
    requires 0.0 <= e <= 12.0 * h && 0.0 < h
    ensures 0.0 <= e / h <= 12.0
  {
    var q := e / h;
    assert q * h == e;
    ProductSign(q, h);
    ProductSign(12.0 - q, h);
  }

  /** A product with a positive factor that is not negative has a non-negative other factor. */
  lemma ProductSign(x: real, h: real)
    requires 0.0 < h && 0.0 <= x * h
    ensures 0.0 <= x
  {
  }

  /**
   * The report's three cases, and in daytime a quarter count between 0 and
   * 48 (0 to 12 hours) within an eighth of an hour of the exact value.
   */
  lemma HalachicHourMeaning(a: Anchors, now: real)
    ensures HalachicHour(a, now) == NotAvailable <==>
      a.sunrise.None? || a.sunset.None? || a.sunset.value <= a.sunrise.value
    ensures HalachicHour(a, now) == Night <==>
      a.sunrise.Some? && a.sunset.Some? && a.sunrise.value < a.sunset.value &&
      (now < a.sunrise.value || a.sunset.value < now)
    ensures HalachicHour(a, now).Quarters? ==>
      var n := HalachicHour(a, now).n;
      var exactHour := (now - a.sunrise.value) / HourGra(a).value;
      0 <= n <= 48 && n as real - 0.5 <= 4.0 * exactHour < n as real + 0.5
  {
    if HalachicHour(a, now).Quarters? {
      HoursBound(now - a.sunrise.value, HourGra(a).value);
    }
  }
}
