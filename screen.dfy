/**
 * The home screen (`ViewController`): it lists the visible entries with
 * their times in time order, shows the hour lengths, midday, midnight and
 * the current halachic hour, and schedules the alarms of the next ten days.
 */
module Screen {
  import opened Wrappers
  import opened Parsing
  import opened Sorting
  import opened Settings
  import opened Zmanim
  import opened Alarms

  /** `Date.distantFuture` on the `Date` axis (the start of the year 4001). */
  const DistantFuture: real := 63113904000.0

  /** The two labels appended after the entries. */
  const GraLabel: string := "Hour (GR\"A):"
  const MaLabel: string := "Hour (M\"A):"

  /** The label text of each entry. */
  function Keys(vs: seq<ZmanEntry>): (r: seq<string>)
    ensures |r| == |vs| && forall i :: 0 <= i < |vs| ==> r[i] == vs[i].key
  {
    Map(vs, (e: ZmanEntry) => e.key)
  }

  /** The keys of the visible entries of a prefix grow by the next visible key. */
  lemma KeysStep(es: seq<ZmanEntry>, k: int)
    requires 0 <= k < |es|
    ensures Keys(Visible(es[..k + 1])) == Keys(Visible(es[..k])) + (if es[k].isVisible then [es[k].key] else [])
  {
    VisibleStep(es, k);
  }

  // ---------------------------------------------------------------------------
  // Ordering the labels by time

  /** A missing time sorts as `distantFuture`. */
  function TimeKey(p: (string, Option<real>)): SortKey {
    SortKey(0, Finite(p.1.GetOr(DistantFuture)))
  }

  /** `times[0..<n].enumerated()`, paired with the labels they belong to. */
  function Zip(ls: seq<string>, ts: seq<Option<real>>): (r: seq<(string, Option<real>)>)
    requires |ls| == |ts|
    ensures |r| == |ls| && forall i :: 0 <= i < |r| ==> r[i] == (ls[i], ts[i])
  {
    seq(|ls|, i requires 0 <= i < |ls| => (ls[i], ts[i]))
  }

  /** The first `|times|` labels with their times, in time order. */
  function SortedPairs(labels: seq<string>, times: seq<Option<real>>): seq<(string, Option<real>)>
    requires |labels| == |times| + 2
  {
    Sort(Zip(labels[..|times|], times), TimeKey)
  }

  /** The nested `sort(times:)`: entry labels reordered by time, the two hour labels kept last. */
  function SortedLabels(labels: seq<string>, times: seq<Option<real>>): (r: seq<string>)
    requires |labels| == |times| + 2
    ensures |r| == |labels| && r[|times|..] == labels[|times|..]
  {
    Map(SortedPairs(labels, times), (p: (string, Option<real>)) => p.0) + labels[|times|..]
  }

  /**
   * The sorted labels are the same labels, each still paired with its own
   * time, in non-decreasing time with a missing time last.
   */
  lemma SortedLabelsMeaning(labels: seq<string>, times: seq<Option<real>>)
    requires |labels| == |times| + 2
    ensures var n := |times|;
      var pairs := SortedPairs(labels, times);
      var r := SortedLabels(labels, times);
      && multiset(r[..n]) == multiset(labels[..n])
      && multiset(pairs) == multiset(Zip(labels[..n], times))
      && (forall i :: 0 <= i < n ==> r[i] == pairs[i].0)
      && (forall i, j :: 0 <= i < j < n ==> pairs[i].1.GetOr(DistantFuture) <= pairs[j].1.GetOr(DistantFuture))
  {
    var n := |times|;
    var zipped := Zip(labels[..n], times);
    var first := (p: (string, Option<real>)) => p.0;
    var pairs := SortedPairs(labels, times);
    SortPermutesProjection(zipped, TimeKey, first);
    assert Map(zipped, first) == labels[..n];
    assert SortedLabels(labels, times)[..n] == Map(pairs, first);
    forall i, j | 0 <= i < j < n
      ensures pairs[i].1.GetOr(DistantFuture) <= pairs[j].1.GetOr(DistantFuture)
    {
      assert !KeyLess(TimeKey(pairs[j]), TimeKey(pairs[i]));
    }
  }

  // ---------------------------------------------------------------------------
  // Reminders over ten days

  /**
   * An offset the alarm loop can use: `Int(entry.alarmOffset)!` succeeds,
   * and `scheduleAlarm` can negate it without overflow (`-Int.min` traps).
   */
  predicate UsableOffset(text: string) {
    ParseInt(text).Some? && ParseInt(text).value != IntMin
  }

  /** What the alarm loop force-unwraps besides the times: the offsets of visible entries with alarms on. */
  predicate Schedulable(es: seq<ZmanEntry>) {
    Computable(es) && forall e :: e in es && e.isVisible && e.alarmOn ==> UsableOffset(e.alarmOffset)
  }

  /** The visible entries of a schedulable list have offsets that parse. */
  lemma VisibleOffsetsParse(es: seq<ZmanEntry>)
    requires Schedulable(es)
    ensures OffsetsParse(Visible(es))
  {
    var vs := Visible(es);
    forall k | 0 <= k < |vs| && vs[k].alarmOn
      ensures UsableOffset(vs[k].alarmOffset)
    {
      assert vs[k] in es;
    }
  }

  /** The lists the settings screen keeps can always be scheduled. */
  lemma WellFormedIsSchedulable(es: seq<ZmanEntry>)
    requires |es| >= 4 && AllWellFormed(es)
    ensures Schedulable(es)
  {
    forall e | e in es && e.isVisible && e.alarmOn
      ensures UsableOffset(e.alarmOffset)
    {
      var k :| 0 <= k < |es| && es[k] == e;
      assert WellFormed(es[k]);
    }
  }

  /** The default list, for any weekday, can be computed and scheduled. */
  lemma DefaultsAreSchedulable(candleVisible: bool, tzetKey: string, ids: seq<Uuid>)
    requires |ids| == 13
    ensures Schedulable(DefaultList(candleVisible, tzetKey, ids))
  {
    DefaultListWellFormed(candleVisible, tzetKey, ids);
    WellFormedIsSchedulable(DefaultList(candleVisible, tzetKey, ids));
  }

  /** Usable offsets for every entry with an alarm on. */
  predicate OffsetsParse(vs: seq<ZmanEntry>) {
    forall k :: 0 <= k < |vs| && vs[k].alarmOn ==> UsableOffset(vs[k].alarmOffset)
  }

  /** The request one visible entry adds: only with a time and its alarm on, through `scheduleAlarm`. */
  function Pick(e: ZmanEntry, time: Option<real>, dayTag: real -> string, now: real): seq<Request>
    requires e.alarmOn ==> ParseInt(e.alarmOffset).Some?
  {
    if time.Some? && e.alarmOn then
      AsList(AlarmRequest(e.key, time.value, ParseInt(e.alarmOffset).value, !e.isVisible, e.alarmOn,
                          dayTag(time.value), now))
    else
      []
  }

  /** The requests of one day: the i-th visible entry with the i-th time, in order. */
  function DayRequests(vs: seq<ZmanEntry>, times: seq<Option<real>>, dayTag: real -> string, now: real): seq<Request>
    requires |vs| == |times| && OffsetsParse(vs)
  {
    if vs == [] then []
    else
      DayRequests(vs[..|vs| - 1], times[..|vs| - 1], dayTag, now) + Pick(vs[|vs| - 1], times[|vs| - 1], dayTag, now)
  }

  /**
   * Each request of a day belongs to a visible entry with its alarm on and a
   * time: it is named after the entry's key and the time's date, rings its
   * offset before that time, and not before `now`.
   */
  lemma {:induction false} DayRequestsFromAlarmEntries(vs: seq<ZmanEntry>, times: seq<Option<real>>,
                                                       dayTag: real -> string, now: real, r: Request)
    requires |vs| == |times| && OffsetsParse(vs)
    requires forall k :: 0 <= k < |vs| ==> vs[k].isVisible
    requires r in DayRequests(vs, times, dayTag, now)
    ensures exists k :: (0 <= k < |vs| && vs[k].alarmOn && times[k].Some? && times[k].value == r.time &&
      r.identifier == Identifier(vs[k].key, dayTag(r.time)) &&
      r.fireAt + 60.0 * ParseInt(vs[k].alarmOffset).value as real == r.time && now <= r.fireAt)
  {
    var n := |vs| - 1;
    var last := Pick(vs[n], times[n], dayTag, now);
    if r in last {
      assert vs[n].alarmOn && times[n].Some? && times[n].value == r.time;
    } else {
      assert r in DayRequests(vs[..n], times[..n], dayTag, now);
      DayRequestsFromAlarmEntries(vs[..n], times[..n], dayTag, now, r);
      var k :| 0 <= k < n && vs[..n][k].alarmOn && times[..n][k].Some? && times[..n][k].value == r.time &&
        r.identifier == Identifier(vs[..n][k].key, dayTag(r.time)) &&
        r.fireAt + 60.0 * ParseInt(vs[..n][k].alarmOffset).value as real == r.time && now <= r.fireAt;
      assert vs[..n][k] == vs[k] && times[..n][k] == times[k];
    }
  }

  /** Conversely, each visible entry with its alarm on and a time whose reminder is not yet due gets one. */
  lemma {:induction false} AlarmEntriesGetRequests(vs: seq<ZmanEntry>, times: seq<Option<real>>,
                                                   dayTag: real -> string, now: real, k: int)
    requires |vs| == |times| && OffsetsParse(vs)
    requires 0 <= k < |vs| && vs[k].isVisible && vs[k].alarmOn && times[k].Some?
    requires now + 60.0 * ParseInt(vs[k].alarmOffset).value as real <= times[k].value
    ensures var offset := ParseInt(vs[k].alarmOffset).value;
      Request(Identifier(vs[k].key, dayTag(times[k].value)), offset, times[k].value,
              times[k].value - 60.0 * offset as real) in DayRequests(vs, times, dayTag, now)
  {
    var n := |vs| - 1;
    var offset := ParseInt(vs[k].alarmOffset).value;
    var req := Request(Identifier(vs[k].key, dayTag(times[k].value)), offset, times[k].value,
                       times[k].value - 60.0 * offset as real);
    assert DayRequests(vs, times, dayTag, now) ==
      DayRequests(vs[..n], times[..n], dayTag, now) + Pick(vs[n], times[n], dayTag, now);
    if k < n {
      assert vs[..n][k] == vs[k] && times[..n][k] == times[k];
      AlarmEntriesGetRequests(vs[..n], times[..n], dayTag, now, k);
      assert req in DayRequests(vs[..n], times[..n], dayTag, now);
    } else {
      assert Pick(vs[n], times[n], dayTag, now) == [req];
    }
  }

  /** One more entry of the day adds its own request. */
  lemma DayRequestsStep(vs: seq<ZmanEntry>, times: seq<Option<real>>, dayTag: real -> string, now: real, i: int)
    requires |vs| == |times| && OffsetsParse(vs) && 0 <= i < |vs|
    ensures OffsetsParse(vs[..i]) && OffsetsParse(vs[..i + 1])
    ensures DayRequests(vs[..i + 1], times[..i + 1], dayTag, now) ==
      DayRequests(vs[..i], times[..i], dayTag, now) + Pick(vs[i], times[i], dayTag, now)
  {
    assert vs[..i + 1][..i] == vs[..i] && times[..i + 1][..i] == times[..i];
  }

  /** Adding a day's requests one entry at a time adds them all. */
  lemma ApplyDayStep(pending: map<string, Request>, vs: seq<ZmanEntry>, times: seq<Option<real>>,
                     dayTag: real -> string, now: real, i: int)
    requires |vs| == |times| && OffsetsParse(vs) && 0 <= i < |vs|
    ensures OffsetsParse(vs[..i]) && OffsetsParse(vs[..i + 1])
    ensures Apply(pending, DayRequests(vs[..i + 1], times[..i + 1], dayTag, now)) ==
      Apply(Apply(pending, DayRequests(vs[..i], times[..i], dayTag, now)), Pick(vs[i], times[i], dayTag, now))
  {
    DayRequestsStep(vs, times, dayTag, now, i);
    ApplyConcat(pending, DayRequests(vs[..i], times[..i], dayTag, now), Pick(vs[i], times[i], dayTag, now));
  }

  /** The requests of the day that starts at `day.startOfDay`. */
  function DayRequestsOn(es: seq<ZmanEntry>, day: Day, dayTag: real -> string, now: real): seq<Request>
    requires Schedulable(es)
  {
    var vs := Visible(es);
    VisibleResolvable(es);
    DayRequests(vs, ResolveAll(vs, day, AnchorsOf(es, day)), dayTag, now)
  }

  /** `date` after `n` steps of `calendar.date(byAdding: .day, value: 1, to:)`. */
  function DayAfter(nextDay: real -> real, date: real, n: nat): real {
    if n == 0 then date else nextDay(DayAfter(nextDay, date, n - 1))
  }

  /** With each step moving forward, later steps are later dates. */
  lemma {:induction false} DayAfterIncreasing(nextDay: real -> real, date: real, i: nat, j: nat)
    requires forall t :: nextDay(t) > t
    requires i < j
    ensures DayAfter(nextDay, date, i) < DayAfter(nextDay, date, j)
    decreases j
  {
    if i < j - 1 {
      DayAfterIncreasing(nextDay, date, i, j - 1);
    }
  }

  /** The loop's test `date <= endDate` holds for the first ten days and fails on the eleventh. */
  lemma TenDays(nextDay: real -> real, today: real, d: nat)
    requires forall t :: nextDay(t) > t
    requires d <= 10
    ensures DayAfter(nextDay, today, d) <= DayAfter(nextDay, today, 9) <==> d < 10
  {
    if d < 9 {
      DayAfterIncreasing(nextDay, today, d, 9);
    } else if d == 10 {
      DayAfterIncreasing(nextDay, today, 9, 10);
    }
  }

  /** The requests of the first `n` days from `today`. */
  function DaysRequests(es: seq<ZmanEntry>, altitude: real -> real, startOfDay: real -> real,
                        nextDay: real -> real, dayTag: real -> string, today: real, now: real, n: nat): seq<Request>
    requires Schedulable(es)
  {
    if n == 0 then []
    else
      DaysRequests(es, altitude, startOfDay, nextDay, dayTag, today, now, n - 1) +
      DayRequestsOn(es, Day(altitude, startOfDay(DayAfter(nextDay, today, n - 1))), dayTag, now)
  }

  /** One more day adds that day's requests after those of the days before. */
  lemma DaysRequestsStep(pending: map<string, Request>, es: seq<ZmanEntry>, altitude: real -> real,
                         startOfDay: real -> real, nextDay: real -> real, dayTag: real -> string,
                         today: real, now: real, d: nat)
    requires Schedulable(es)
    ensures Apply(pending, DaysRequests(es, altitude, startOfDay, nextDay, dayTag, today, now, d + 1)) ==
      Apply(Apply(pending, DaysRequests(es, altitude, startOfDay, nextDay, dayTag, today, now, d)),
            DayRequestsOn(es, Day(altitude, startOfDay(DayAfter(nextDay, today, d))), dayTag, now))
  {
    ApplyConcat(pending, DaysRequests(es, altitude, startOfDay, nextDay, dayTag, today, now, d),
                DayRequestsOn(es, Day(altitude, startOfDay(DayAfter(nextDay, today, d))), dayTag, now));
  }

  /** Scheduling the ten days again, with the same clock, leaves the pending requests as they were. */
  lemma RescheduleChangesNothing(pending: map<string, Request>, es: seq<ZmanEntry>, altitude: real -> real,
                                 startOfDay: real -> real, nextDay: real -> real, dayTag: real -> string,
                                 today: real, now: real)
    requires Schedulable(es)
    ensures var reqs := DaysRequests(es, altitude, startOfDay, nextDay, dayTag, today, now, 10);
      Apply(Apply(pending, reqs), reqs) == Apply(pending, reqs)
  {
    ApplyIdempotent(pending, DaysRequests(es, altitude, startOfDay, nextDay, dayTag, today, now, 10));
  }

  // ---------------------------------------------------------------------------
  // The screen

  class ViewController {
    const manager: ZmanimManager
    const center: NotificationCenter
    var entries: seq<ZmanEntry>
    var labels: seq<string>
    var halachicHour: HourReport
    var hourShown: Option<real>
    var hourMaShown: Option<real>
    var hatzotShown: Option<real>
    var midnightShown: Option<real>

    constructor (manager: ZmanimManager, center: NotificationCenter)
      ensures this.manager == manager && this.center == center
      ensures entries == manager.entries && labels == [] && halachicHour == NotAvailable
      ensures hourShown == None && hourMaShown == None && hatzotShown == None && midnightShown == None
    {
      this.manager := manager;
      this.center := center;
      entries := manager.entries;
      labels := [];
      halachicHour := NotAvailable;
      hourShown, hourMaShown, hatzotShown, midnightShown := None, None, None, None;
    }

    /**
     * `refreshLabels`: rereads the list, shows candle lighting on Fridays
     * only (the entry is shared with the manager, which sees the change),
     * and lists the visible keys followed by the two hour labels.
     */
    method RefreshLabels(weekday: int)
      modifies this`entries, this`labels, manager
      ensures entries == ShowFirst(old(manager.entries), CandleLightingKey, weekday == 6)
      ensures manager.entries == entries
      ensures labels == Keys(Visible(entries)) + [GraLabel, MaLabel]
    {
      entries := manager.entries;
      ghost var original := entries;
      labels := [];
      var isFriday := weekday == 6;
      var index := FirstIndexOf(entries, ByKey(CandleLightingKey));
      if index.Some? {
        entries := entries[index.value := entries[index.value].(isVisible := isFriday)];
        manager.entries := entries;
      }
      ghost var shown := ShowFirst(original, CandleLightingKey, weekday == 6);
      assert entries == shown;
      var k := 0;
      while k < |entries|
        invariant 0 <= k <= |entries|
        invariant entries == shown && manager.entries == entries
        invariant labels == Keys(Visible(entries[..k]))
        modifies this`labels
      {
        KeysStep(entries, k);
        if entries[k].isVisible {
          labels := labels + [entries[k].key];
        }
        k := k + 1;
      }
      assert entries[..k] == entries;
      labels := labels + [GraLabel, MaLabel];
    }

    /** The nested `sort(times:)`, which acts only when there is one time per entry label. */
    method SortLabels(times: seq<Option<real>>)
      modifies this`labels
      ensures |old(labels)| >= 2 && |old(labels)| == |times| + 2 ==> labels == SortedLabels(old(labels), times)
      ensures !(|old(labels)| >= 2 && |old(labels)| == |times| + 2) ==> labels == old(labels)
    {
      if !(|labels| >= 2 && |labels| == |times| + 2) {
        return;
      }
      labels := SortedLabels(labels, times);
    }

    /**
     * `computeZmanim`: the anchors, the halachic hour, the hour lengths,
     * midday and midnight, then one time per visible entry, and the labels
     * reordered by those times. A day whose sunset is not after its sunrise
     * stops early with no times.
     */
    method ComputeZmanim(altitude: real -> real, startOfDay: real, now: real) returns (times: seq<Option<real>>)
      requires Computable(entries)
      modifies this`labels, this`halachicHour, this`hourShown, this`hourMaShown, this`hatzotShown, this`midnightShown
      ensures NoDaylight(AnchorsOf(entries, Day(altitude, startOfDay))) ==>
        times == [] && halachicHour == NotAvailable && labels == old(labels) &&
        hourShown == old(hourShown) && hourMaShown == old(hourMaShown) &&
        hatzotShown == old(hatzotShown) && midnightShown == old(midnightShown)
      ensures var a := AnchorsOf(entries, Day(altitude, startOfDay));
        !NoDaylight(a) ==>
          halachicHour == HalachicHour(a, now) &&
          hourShown == HourGra(a) && hourMaShown == HourMa(a) &&
          hatzotShown == Hatzot(a) && midnightShown == Offset(Hatzot(a), Some(12.0))
      ensures forall k :: 0 <= k < |Visible(entries)| ==> Resolvable(Visible(entries)[k])
      ensures !NoDaylight(AnchorsOf(entries, Day(altitude, startOfDay))) ==>
        times == ResolveAll(Visible(entries), Day(altitude, startOfDay), AnchorsOf(entries, Day(altitude, startOfDay)))
      ensures !NoDaylight(AnchorsOf(entries, Day(altitude, startOfDay))) ==>
        if |old(labels)| == |times| + 2 then labels == SortedLabels(old(labels), times) else labels == old(labels)
    {
      var day := Day(altitude, startOfDay);
      var es := entries;
      var a := ComputeAnchors(es, day);
      if a.sunrise.Some? && a.sunset.Some? && a.sunset.value <= a.sunrise.value {
        halachicHour := NotAvailable;
        VisibleResolvable(es);
        return [];
      }
      times := ShowDay(day, a, now);
    }

    /** The rest of `computeZmanim` once the day is known to have daylight or a missing anchor. */
    method ShowDay(day: Day, a: Anchors, now: real) returns (times: seq<Option<real>>)
      requires Computable(entries) && !NoDaylight(a)
      modifies this`labels, this`halachicHour, this`hourShown, this`hourMaShown, this`hatzotShown, this`midnightShown
      ensures halachicHour == HalachicHour(a, now)
      ensures hourShown == HourGra(a) && hourMaShown == HourMa(a)
      ensures hatzotShown == Hatzot(a) && midnightShown == Offset(Hatzot(a), Some(12.0))
      ensures forall k :: 0 <= k < |Visible(entries)| ==> Resolvable(Visible(entries)[k])
      ensures times == ResolveAll(Visible(entries), day, a)
      ensures if |old(labels)| == |times| + 2 then labels == SortedLabels(old(labels), times) else labels == old(labels)
    {
      var hour := HourGra(a);
      var hourMA := HourMa(a);
      if a.sunrise.Some? && a.sunset.Some? {
        halachicHour := DaytimeHour(a, now);
      } else {
        halachicHour := NotAvailable;
      }
      hourShown := hour;
      hourMaShown := hourMA;
      var hatzot := Hatzot(a);
      hatzotShown := hatzot;
      midnightShown := Offset(hatzot, Some(12.0));
      times := ZmanTimes(entries, day, a);
      SortLabels(times);
    }

    /**
     * `scheduleAlarm`: adds the reminder `AlarmRequest` decides on, if any.
     * Past the visibility guard the offset is negated, which traps on `Int.min`.
     */
    method ScheduleAlarm(title: string, time: real, offsetMinutes: int, isHidden: bool, alarm: bool,
                         dayTag: real -> string, now: real)
      requires !isHidden && alarm ==> offsetMinutes != IntMin
      modifies center
      ensures center.pending ==
        Apply(old(center.pending), AsList(AlarmRequest(title, time, offsetMinutes, isHidden, alarm, dayTag(time), now)))
    {
      var dateTag := dayTag(time);
      var identifier := Identifier(title, dateTag);
      if isHidden || !alarm {
        return;
      }
      var triggerDate := time - 60.0 * offsetMinutes as real;
      if triggerDate < now {
        return;
      }
      center.Add(Request(identifier, offsetMinutes, time, triggerDate));
    }

    /** One day of the alarm loop: the anchors and times of that day, then a reminder per alarm entry. */
    method ScheduleDay(dayEntries: seq<ZmanEntry>, day: Day, dayTag: real -> string, now: real)
      requires Schedulable(dayEntries)
      modifies center
      ensures center.pending == Apply(old(center.pending), DayRequestsOn(dayEntries, day, dayTag, now))
    {
      var a := ComputeAnchors(dayEntries, day);
      var zmanTimes := ZmanTimes(dayEntries, day, a);
      var vs := Visible(dayEntries);
      VisibleOffsetsParse(dayEntries);
      ScheduleEntries(vs, zmanTimes, dayTag, now);
    }

    /** The inner loop over the visible entries and their times, in order. */
    method ScheduleEntries(vs: seq<ZmanEntry>, zmanTimes: seq<Option<real>>, dayTag: real -> string, now: real)
      requires |vs| == |zmanTimes| && OffsetsParse(vs)
      modifies center
      ensures center.pending == Apply(old(center.pending), DayRequests(vs, zmanTimes, dayTag, now))
    {
      ghost var start := center.pending;
      var i := 0;
      while i < |vs|
        invariant 0 <= i <= |vs|
        invariant OffsetsParse(vs[..i])
        invariant center.pending == Apply(start, DayRequests(vs[..i], zmanTimes[..i], dayTag, now))
      {
        var entry := vs[i];
        ApplyDayStep(start, vs, zmanTimes, dayTag, now, i);
        if zmanTimes[i].Some? && entry.alarmOn {
          var offsetMin := ParseInt(entry.alarmOffset).value;
          ScheduleAlarm(entry.key, zmanTimes[i].value, offsetMin, !entry.isVisible, entry.alarmOn, dayTag, now);
        } else {
          assert Pick(entry, zmanTimes[i], dayTag, now) == [];
        }
        i := i + 1;
      }
      assert vs[..i] == vs && zmanTimes[..i] == zmanTimes;
    }

    /**
     * `scheduleAlarmsForVisibleZmanim`: the ten days from the start of
     * today to nine days later inclusive, each with the same entry list.
     */
    method ScheduleAlarmsForVisibleZmanim(altitude: real -> real, startOfDay: real -> real, nextDay: real -> real,
                                          dayTag: real -> string, today: real, now: real)
      requires Schedulable(manager.entries)
      requires forall t :: nextDay(t) > t
      modifies center
      ensures center.pending ==
        Apply(old(center.pending), DaysRequests(manager.entries, altitude, startOfDay, nextDay, dayTag, today, now, 10))
    {
      var date := today;
      var endDate := DayAfter(nextDay, today, 9);
      ghost var es := manager.entries;
      ghost var start := center.pending;
      ghost var d := 0;
      while date <= endDate
        invariant 0 <= d <= 10 && manager.entries == es
        invariant date == DayAfter(nextDay, today, d)
        invariant center.pending == Apply(start, DaysRequests(es, altitude, startOfDay, nextDay, dayTag, today, now, d))
        decreases 10 - d
      {
        TenDays(nextDay, today, d);
        DaysRequestsStep(start, es, altitude, startOfDay, nextDay, dayTag, today, now, d);
        var dayEntries := manager.entries;
        ScheduleDay(dayEntries, Day(altitude, startOfDay(date)), dayTag, now);
        date := nextDay(date);
        d := d + 1;
      }
      TenDays(nextDay, today, d);
      assert d == 10;
    }
  }
}
