# Bazeman: zmanim engine and settings list

Bazeman is an iOS app that shows the halachic times of day ("zmanim") for a
place and a date, and can ring a reminder a number of minutes before each
one. This project models the two pieces of it that hold its logic, and
proves properties about them.

* **The calculation and reminder engine of the home screen**
  (`ViewController`). It has five parts:
  * An integer bisection over the milliseconds of a day finds when the
    sun's altitude crosses an angle.
  * Four anchors come from the first four entries of the list: dawn,
    sunrise, sunset and nightfall. From them the screen derives:
    * the two halachic hour lengths, GRA and MA;
    * midday ("hatzot") and midnight.
  * Each visible entry is resolved by its unit:
    * degrees: the elevation search;
    * hours: halachic hours after sunrise or dawn;
    * minutes: minutes after sunset;
    * fixed hours: midnight.
  * The current halachic hour is rounded to a quarter, and the labels are
    reordered by time.
  * Reminders are scheduled for the next ten days, one per visible entry
    whose alarm is on.
* **The settings list** (`SettingsView`, `ZmanimManager`), in four parts:
  * the unit kinds and their sort order;
  * the input gates of the row editor and of the Add form;
  * the list operations: append, replace-by-id and remove-by-id;
  * the 13-entry default list. The engine reads that list by position,
    and `loadDefaults` and `reset` build it and patch it.

Modules, one per file, in dependency order:

| file | module | models |
|---|---|---|
| `wrappers.dfy` | `Wrappers` | Swift optionals |
| `parsing.dfy` | `Parsing` | `Int(_:)` and `Double(_:)` on text, with exact values |
| `sorting.dfy` | `Sorting` | a comparator sort by key, shared by both screens |
| `settings.dfy` | `Settings` | `UnitType`, `ZmanEntry`, the row setters, `sortedEntries`, the gates, `addNew`/`updateEntry`/`deleteEntry`, `ZmanimManager` |
| `solver.dfy` | `Solver` | `elevationTime` |
| `zmanim.dfy` | `Zmanim` | `offset`, the anchors, the hour lengths, `hatzot`, the unit switch, the `zmanTimes` loop, the halachic hour |
| `alarms.dfy` | `Alarms` | the decision of `scheduleAlarm` and the notification centre's pending store |
| `screen.dfy` | `Screen` | `refreshLabels`, `sort`, `computeZmanim`, `scheduleAlarm`, `scheduleAlarmsForVisibleZmanim` |

How the model represents the program:

* **Instants** are seconds on the `Date` axis, as `real`.
* **The sun** is a parameter `altitude: real -> real`. It gives degrees
  above the horizon at an instant.
* **Calendar functions** are parameters:
  * `startOfDay` (the start of the day in the app's time zone);
  * `nextDay` (adding one calendar day);
  * `dayTag` (the `yyyy-MM-dd` text of an instant).
* **The clock** (`Date()`) is the parameter `now`.
* **Entries** (`ZmanEntry`) are values.
* **The objects whose fields the program updates are classes:**
  * the shared manager (`Settings.ZmanimManager`);
  * the Add form (`Settings.SettingsForm`);
  * the notification centre (`Alarms.NotificationCenter`);
  * the home screen (`Screen.ViewController`).
* **Loops are `while` loops** whose methods are proved equal to recursive
  specification functions:
  * the bisection;
  * the resolution of the visible entries;
  * the label loop;
  * the ten-day reminder loop and its per-entry inner loop.

## Model

| member | source | states |
|---|---|---|
| Solver.AtMillis | BazemanLayout/ViewController.swift:508 | the instant probed for a millisecond lies within the day |
| Solver.Reached | BazemanLayout/ViewController.swift:512 | the loop's test at a millisecond: altitude at or above the angle for a rising target, at or below it for a setting one; `SearchTransition` and `FirstReached` are stated in terms of it |
| Solver.Search | BazemanLayout/ViewController.swift:505-517 | the bisection on `[low, high]` converges to a point inside `[low, high]`; termination by `high - low` |
| Solver.SearchTransition | BazemanLayout/ViewController.swift:506-517 | for any altitude: where the search stops below `high` the test holds, and where it stops above `low` the test fails one millisecond earlier |
| Solver.SearchEndsReached | BazemanLayout/ViewController.swift:506-517 | where the search stops below `high`, the test holds |
| Solver.SearchStartsAfterMiss | BazemanLayout/ViewController.swift:506-517 | where the search stops above `low`, the test fails one millisecond earlier |
| Solver.FirstReached | BazemanLayout/ViewController.swift:512 | reference definition: the first millisecond at which the loop's test holds (none before it, the test holds at it) |
| Solver.SearchIsFirst | BazemanLayout/ViewController.swift:506-517 | when the test is monotone on the interval, the search returns the first millisecond where it holds |
| Solver.MorningSearch | BazemanLayout/ViewController.swift:506-517 | a target reached at noon is searched for in the morning only, and found at its first millisecond there |
| Solver.EveningSearch | BazemanLayout/ViewController.swift:506-517 | a target not reached at noon is found at its first millisecond after noon |
| Solver.ElevationResult | BazemanLayout/ViewController.swift:518-519 | a returned time lies strictly inside the day; nil when the search ends at 0 or at 86 400 000 |
| Solver.ElevationResultIsCrossing | BazemanLayout/ViewController.swift:502-520 | a returned time is a genuine crossing (test false 1 ms before, true at it); nil means the test held at midnight or still failed at the last millisecond |
| Solver.ElevationResultIsFirst | BazemanLayout/ViewController.swift:502-520 | with the test monotone over the day, the result is the first reaching millisecond, or nil when that is 0 or the end of the day |
| Solver.FirstReachedAntitone | BazemanLayout/ViewController.swift:512 | a test that holds wherever another holds is first reached no later |
| Solver.LowerAngleRisesFirst | BazemanLayout/ViewController.swift:527-528 | on one morning dawn (a lower angle) is found no later than sunrise |
| Solver.ElevationTime | BazemanLayout/ViewController.swift:502-520 | the loop keeps `0 <= low <= high <= 86 400 000` and the search's outcome; it returns exactly `ElevationResult` |
| Zmanim.Offset | BazemanLayout/ViewController.swift:522-525 | nil iff either input is nil; otherwise the result is the base plus 3600 seconds per hour |
| Zmanim.AnchorsOf | BazemanLayout/ViewController.swift:527-530 | dawn and sunrise are rising searches for entries 0 and 1, sunset and nightfall setting searches for entries 2 and 3; `AnchorsInsideDay` places them inside the day and `ComputeAnchors` computes them |
| Zmanim.AnchorsInsideDay | BazemanLayout/ViewController.swift:527-530 | each of the four anchors that exists lies strictly inside its day |
| Zmanim.HourGra | BazemanLayout/ViewController.swift:532 | exists iff sunrise and sunset both exist; twelve of it span sunrise to sunset |
| Zmanim.HourMa | BazemanLayout/ViewController.swift:533 | exists iff dawn and nightfall both exist; twelve of it span dawn to nightfall |
| Zmanim.Hatzot | BazemanLayout/ViewController.swift:556 | exists iff sunrise and sunset both exist; equidistant from the two |
| Zmanim.MiddayBetween | BazemanLayout/ViewController.swift:556 | when sunrise precedes sunset, the GRA hour is positive and midday lies strictly between them, six GRA hours after sunrise |
| Zmanim.MidnightAfterSunset | BazemanLayout/ViewController.swift:558 | midnight (midday + 12 h) is 12 h minus six GRA hours after sunset |
| Zmanim.ResolveHours | BazemanLayout/ViewController.swift:566-571 | an hours entry is the base (dawn for MA, sunrise for GRA) plus value × hour length; the /3600 and ×3600 cancel; a nil hour length counts as 0, and a nil base gives nil |
| Zmanim.HoursCancel | BazemanLayout/ViewController.swift:567-570 | with `m = value / 3600 * h`, moving by `m` hours of 3600 seconds is moving by `value * h` seconds |
| Zmanim.HoursAfter | BazemanLayout/ViewController.swift:566-570 | the `.hours` offset as written, `value / 3600 * hour` hours after the base; `HoursAfterValue` proves it equal to the reference `HalachicHoursAfter` |
| Zmanim.HoursAfterValue | BazemanLayout/ViewController.swift:716-719 | the `.hours` offset equals the reference `HalachicHoursAfter`: the base plus value × hour length, nil for a nil base, a nil hour length counting as 0 |
| Zmanim.ResolveMinutes | BazemanLayout/ViewController.swift:572-573 | a minutes entry is sunset plus 60 seconds per unit of value, nil without sunset |
| Zmanim.ResolveFixedHours | BazemanLayout/ViewController.swift:574-575 | a fixed-hours entry is midday + 12 h whatever its value (even unparsable), and exists iff sunrise and sunset do |
| Zmanim.ResolveDegrees | BazemanLayout/ViewController.swift:563-565 | a degrees entry is the elevation search for its angle, rising iff the entry is an "alot" entry, inside the day |
| Zmanim.DefaultCandleLighting | BazemanLayout/ViewController.swift:572-573 | the default "Candle Lighting" entry (`-18` minutes) resolves to 1080 seconds before sunset |
| Zmanim.Visible | BazemanLayout/ViewController.swift:561 | the visible entries, all visible, exactly the visible members of the list |
| Zmanim.VisibleAll | BazemanLayout/ViewController.swift:561 | with every entry visible, the filter is the identity |
| Zmanim.WellFormedIsComputable | BazemanLayout/ViewController.swift:527-573 | a list of at least four entries that all passed the settings gates never hits a failing force-unwrap |
| Zmanim.ResolveAll | BazemanLayout/ViewController.swift:560-577 | one time per visible entry |
| Zmanim.ResolveAllAt | BazemanLayout/ViewController.swift:560-577 | the i-th time is the i-th visible entry resolved by its unit |
| Zmanim.Resolve | BazemanLayout/ViewController.swift:562-576 | the unit switch for one entry; each case is characterised by `ResolveDegrees`, `ResolveHours`, `ResolveMinutes` and `ResolveFixedHours` |
| Zmanim.ComputeAnchors | BazemanLayout/ViewController.swift:527-530 | the four anchors from entries 0 to 3: rising for the first two, setting for the next two |
| Zmanim.ResolveEntry | BazemanLayout/ViewController.swift:562-576 | one case of the unit switch equals `Resolve` |
| Zmanim.VisibleResolvable | BazemanLayout/ViewController.swift:561-576 | every visible entry of a computable list can be resolved |
| Zmanim.ZmanTimes | BazemanLayout/ViewController.swift:560-577 | the loop appends exactly `ResolveAll` of the visible entries, in order |
| Zmanim.DaytimeHour | BazemanLayout/ViewController.swift:542-549 | the daytime branch of the halachic hour equals `HalachicHour` |
| Zmanim.HoursBound | BazemanLayout/ViewController.swift:543-544 | a time between sunrise and sunset is between 0 and 12 GRA hours after sunrise |
| Zmanim.HalachicHour | BazemanLayout/ViewController.swift:536-552 | a quarter count only while `now` is between sunrise and sunset inclusive; "Night" only with both anchors and `now` outside that span; `HalachicHourMeaning` gives both directions and the count's value |
| Zmanim.NoDaylight | BazemanLayout/ViewController.swift:537-540 | both sun anchors exist and sunset is not after sunrise: the guard's early return, after which `ComputeZmanim` returns no times and shows "NA" |
| Zmanim.HalachicHourMeaning | BazemanLayout/ViewController.swift:536-552 | "NA" iff an anchor is missing or sunset is not after sunrise; "Night" iff `now` is outside `[sunrise, sunset]` on a day with daylight; otherwise `n` quarters with `0 <= n <= 48` and `4 × exactHour` within half a quarter of `n` |
| Alarms.Identifier | BazemanLayout/ViewController.swift:27 | the identifier is the title, `" - "`, then the date tag |
| Alarms.IdentifierInjective | BazemanLayout/ViewController.swift:27 | with date tags of one length, equal identifiers mean equal title and date |
| Alarms.AlarmRequest | BazemanLayout/ViewController.swift:20-54 | a reminder only for a shown entry with its alarm on; it carries the title-and-date identifier and the entry's time, and rings no earlier than `now`; `AlarmRequestMeaning` adds the converse and the exact offset |
| Alarms.AlarmRequestMeaning | BazemanLayout/ViewController.swift:20-62 | a reminder is made iff the entry is shown, its alarm is on and `now + offset minutes <= time`; it rings exactly the offset before `time` and never before `now` |
| Alarms.AlarmAtNowIsKept | BazemanLayout/ViewController.swift:51-54 | a trigger equal to `now` is scheduled; with the clock one second past the trigger it is not |
| Alarms.Apply | BazemanLayout/ViewController.swift:62-63 | the pending store after adding requests in order, each replacing any pending one with its identifier; characterised by `ApplyKeys`, `ApplyLookup`, `ApplyConcat` and `ApplyIdempotent` |
| Alarms.ApplyKeys | BazemanLayout/ViewController.swift:62-63 | adding requests removes nothing, and adds exactly their identifiers |
| Alarms.ApplyConcat | BazemanLayout/ViewController.swift:62-63 | adding two lists in turn is adding their concatenation |
| Alarms.ApplyLookup | BazemanLayout/ViewController.swift:62-63 | each identifier holds the last request added under it, or its earlier pending request |
| Alarms.ApplyIdempotent | BazemanLayout/ViewController.swift:62-63 | adding the same requests twice equals adding them once |
| Alarms.NotificationCenter.Add | BazemanLayout/ViewController.swift:62-63 | a request replaces any pending one with the same identifier |
| Screen.SortedLabels | BazemanLayout/ViewController.swift:583-591 | the result has the same length as the labels and keeps the last two labels in place |
| Screen.SortedLabelsMeaning | BazemanLayout/ViewController.swift:583-591 | the first `n` labels are permuted, each is still paired with its own time, and times are non-decreasing with nil treated as `distantFuture` |
| Screen.UsableOffset | BazemanLayout/ViewController.swift:46 | an offset that reads as an `Int` (the force-unwrap at line 732) and is not `Int.min`, whose negation at line 46 traps |
| Screen.WellFormedIsSchedulable | BazemanLayout/ViewController.swift:729-732 | a gated list never hits a failing force-unwrap in the reminder loop, nor the `-Int.min` trap in `scheduleAlarm` |
| Screen.DefaultsAreSchedulable | BazemanLayout/SettingsViewController.swift:585-600 | the default list can be computed and scheduled for any weekday |
| Screen.Pick | BazemanLayout/ViewController.swift:729-742 | one visible entry adds the request `AlarmRequest` decides on, and only when it has a time and its alarm on |
| Screen.DayRequests | BazemanLayout/ViewController.swift:728-744 | the requests of one day, the i-th visible entry with the i-th time, in order; characterised by `DayRequestsFromAlarmEntries` and `AlarmEntriesGetRequests` |
| Screen.DayRequestsOn | BazemanLayout/ViewController.swift:702-744 | the requests of the day starting at a given instant, with that day's anchors and times |
| Screen.DaysRequests | BazemanLayout/ViewController.swift:661-748 | the requests of the first `n` days, day by day in order; `RescheduleChangesNothing` is stated over it |
| Screen.DayRequestsFromAlarmEntries | BazemanLayout/ViewController.swift:728-744 | each request of a day comes from a visible entry with its alarm on and a time, is named after its key and date, and rings its offset before that time, not before `now` |
| Screen.AlarmEntriesGetRequests | BazemanLayout/ViewController.swift:728-744 | conversely, every visible entry with its alarm on, a time, and a trigger not yet past gets its request |
| Screen.DayAfterIncreasing | BazemanLayout/ViewController.swift:747 | with each step moving forward, later steps give later dates |
| Screen.TenDays | BazemanLayout/ViewController.swift:663-666 | the loop test `date <= endDate` holds for days 0 to 9 and fails on day 10 |
| Screen.RescheduleChangesNothing | BazemanLayout/ViewController.swift:661-748 | scheduling the ten days again, with the same clock, leaves the pending requests unchanged |
| Screen.ViewController.constructor | BazemanLayout/ViewController.swift:95-96 | the screen starts with the manager's list, no labels, "NA" and nothing shown |
| Screen.ViewController.RefreshLabels | BazemanLayout/ViewController.swift:365-386 | reads the shared list; shows "Candle Lighting" only on Fridays, and the manager sees the change; labels are the visible keys in order, then the two hour labels |
| Screen.ViewController.SortLabels | BazemanLayout/ViewController.swift:583-592 | acts only when there are exactly two more labels than times, and then yields `SortedLabels` |
| Screen.ViewController.ComputeZmanim | BazemanLayout/ViewController.swift:494-592 | on a day whose sunset is not after its sunrise: no times, "NA", nothing else changed. Otherwise it sets the halachic hour, the GRA and MA hours, midday and midnight, returns `ResolveAll` of the visible entries, and sorts the labels when they line up |
| Screen.ViewController.ShowDay | BazemanLayout/ViewController.swift:536-592 | the part of `computeZmanim` after the early return, with the same outcome |
| Screen.ViewController.ScheduleAlarm | BazemanLayout/ViewController.swift:20-67 | past the visibility guard the offset must not be `Int.min` (its negation at line 46 traps); the pending store gains exactly the request `AlarmRequest` decides on, or nothing |
| Screen.ViewController.ScheduleDay | BazemanLayout/ViewController.swift:668-744 | one day of the loop adds exactly that day's requests, the i-th visible entry paired with the i-th time |
| Screen.ViewController.ScheduleEntries | BazemanLayout/ViewController.swift:728-744 | the inner loop adds exactly `DayRequests` of the visible entries and their times, in list order |
| Screen.ViewController.ScheduleAlarmsForVisibleZmanim | BazemanLayout/ViewController.swift:661-748 | the pending store gains exactly the requests of ten days, from the start of today to nine days later, in order |
| Parsing.ParseInt | BazemanLayout/SettingsViewController.swift:477-482 | a parsed `Int` is in the 64-bit range; a negative one starts with `-` |
| Parsing.ParseDouble | BazemanLayout/SettingsViewController.swift:473-475 | a negative parsed `Double` starts with `-` |
| Parsing.IntTextIsDoubleText | BazemanLayout/SettingsViewController.swift:473-482 | text that `Int` reads, `Double` reads too, with the same value |
| Parsing.UnsignedText | BazemanLayout/SettingsViewController.swift:473-475 | `whole.frac` reads as `whole + frac / 10^len(frac)` |
| Parsing.NegativeText | BazemanLayout/SettingsViewController.swift:473-475 | a leading `-` negates the rest |
| Sorting.InsertCorrect | BazemanLayout/SettingsViewController.swift:459-470 | inserting into a sorted list keeps it sorted and adds exactly the element |
| Sorting.InsertPermutes | BazemanLayout/SettingsViewController.swift:459-470 | inserting adds exactly the element and keeps every other |
| Sorting.Sort | BazemanLayout/SettingsViewController.swift:459-470 | the result is a permutation of the input, ordered by the key |
| Sorting.SortPermutesProjection | BazemanLayout/ViewController.swift:586-589 | sorting permutes any projection of the elements too |
| Settings.Rank | BazemanLayout/SettingsViewController.swift:16 | the index of a unit in `sortOrder`: the first position that holds it |
| Settings.NewEntry | BazemanLayout/SettingsViewController.swift:233-243 | the six-argument initialiser: unlocked, offset `"0"`, alarm off, the given fields |
| Settings.AlarmOffsetGate | BazemanLayout/SettingsViewController.swift:477-482 | the gate passes iff the text reads as an `Int` that is at least 0 |
| Settings.AlarmOffsetIsValue | BazemanLayout/SettingsViewController.swift:473-482 | every text that passes the alarm-offset gate passes the value gate |
| Settings.IsValid | BazemanLayout/SettingsViewController.swift:473-475 | the value gate: the text reads as a `Double` |
| Settings.IsValidAlarmOffset | BazemanLayout/SettingsViewController.swift:477-482 | the offset gate; `AlarmOffsetGate` proves it passes exactly the texts that read as a non-negative `Int` |
| Settings.CanAdd | BazemanLayout/SettingsViewController.swift:399 | the Add button is enabled iff the key is not empty and both gates pass; `AddedEntryWellFormed` shows what it then appends passes the gates |
| Settings.SetKey | BazemanLayout/SettingsViewController.swift:61-68 | the title field stores any text and changes nothing else |
| Settings.SetValue | BazemanLayout/SettingsViewController.swift:79-88 | the value changes to the text iff the text reads as a `Double`; no other field changes |
| Settings.SetAlarmOffset | BazemanLayout/SettingsViewController.swift:146-155 | the offset changes to the text iff the text passes the alarm-offset gate; no other field changes |
| Settings.ToggleVisibility | BazemanLayout/SettingsViewController.swift:113-126 | visibility flips iff the entry is built-in and not locked; no other field changes |
| Settings.ToggleAlarm | BazemanLayout/SettingsViewController.swift:128-131 | the alarm flag always flips; no other field changes |
| Settings.SettersKeepWellFormed | BazemanLayout/SettingsViewController.swift:61-155 | no row edit can make an entry fail the gates |
| Settings.SortedEntries | BazemanLayout/SettingsViewController.swift:458-471 | a permutation of the entries, ordered by the comparator's key |
| Settings.SortedEntriesOrder | BazemanLayout/SettingsViewController.swift:458-471 | earlier entries have no greater unit rank; within one unit, an entry before one with a readable value has a readable value no greater (unreadable sorts as +infinity) |
| Settings.FirstIndexOf | BazemanLayout/SettingsViewController.swift:509 | the first position whose entry has the id (or the key, as at line 603), or none when no entry has it |
| Settings.FirstKeyFollowsKeys | BazemanLayout/SettingsViewController.swift:606 | the first position of a key depends only on which positions hold it |
| Settings.Replaced | BazemanLayout/SettingsViewController.swift:508-512 | the length is kept; only the first element with the id becomes the entry; the list is unchanged when the id is absent |
| Settings.Removed | BazemanLayout/SettingsViewController.swift:514-518 | the length drops by one iff the id is present; the other elements keep their order; the list is unchanged otherwise |
| Settings.IsAlotFor | BazemanLayout/SettingsViewController.swift:486 | for degrees, "alot" iff Before Hatzot was chosen; for other units, iff MA was chosen |
| Settings.AddedEntry | BazemanLayout/SettingsViewController.swift:484-496 | the new entry is visible, custom, unlocked, alarm off, with the typed offset and `IsAlotFor` |
| Settings.AddedEntryWellFormed | BazemanLayout/SettingsViewController.swift:399 | what the enabled Add button appends passes the gates |
| Settings.DefaultList | BazemanLayout/SettingsViewController.swift:585-600 | 13 built-in entries; the first four are degrees (Alot, Sunrise, Sunset, the evening key), rising for the first two; "Candle Lighting" at 11 is locked with its alarm on at `"15"`, and is the only locked or alarmed one |
| Settings.DefaultAnchorAngles | BazemanLayout/SettingsViewController.swift:587-590 | the four anchors read -16.1, -0.83, -0.83 and -8.5 degrees |
| Settings.DefaultListWellFormed | BazemanLayout/SettingsViewController.swift:585-600 | every default entry passes the gates |
| Settings.EveningKey | BazemanLayout/SettingsViewController.swift:579-582 | "Shabbat Ends" iff the weekday is Saturday (7), "Tzet Hakochavim (3 stars)" otherwise |
| Settings.ShowFirst | BazemanLayout/SettingsViewController.swift:603-605 | only the visibility of the first entry with the key changes |
| Settings.RenameFirst | BazemanLayout/SettingsViewController.swift:606-613 | only the key of the first entry with the key changes |
| Settings.Reloaded | BazemanLayout/SettingsViewController.swift:602-615 | length and order are kept and only keys and visibility change. The first "Candle Lighting" entry is visible exactly on Friday, and no other visibility changes. The first "Tzet" entry and the first "Shabbat Ends" entry both end with the weekday's evening key, and no other key changes |
| Settings.RenameEveningKeys | BazemanLayout/SettingsViewController.swift:607-614 | the two renames in turn give the original first "Tzet" holder and the original first "Shabbat Ends" holder the new evening key, and touch no other key |
| Settings.ReloadedOneEvening | BazemanLayout/SettingsViewController.swift:602-615 | with at most one evening entry: it takes the weekday's key, and the first "Candle Lighting" is shown iff Friday |
| Settings.ReloadedIdempotent | BazemanLayout/SettingsViewController.swift:602-615 | with at most one evening entry, reloading twice for a weekday equals reloading once |
| Settings.ReloadedNotIdempotentWithTwoEveningEntries | BazemanLayout/SettingsViewController.swift:606-613 | with two "Tzet" entries, a second reload on a Saturday renames the second one as well |
| Settings.LoadDefaultsOnEmpty | BazemanLayout/SettingsViewController.swift:585-600 | the first "Candle Lighting" is entry 11, visible iff Friday; the fourth key is "Shabbat Ends" iff Saturday; one evening entry |
| Settings.ResetIsWeekdayDefaults | BazemanLayout/SettingsViewController.swift:617-633 | `reset` writes what an empty `loadDefaults` writes on Sunday to Thursday |
| Settings.ReplacedKeepsInvariants | BazemanLayout/SettingsViewController.swift:508-512 | replacing with a gated entry keeps every entry gated and ids unique |
| Settings.RemovedKeepsInvariants | BazemanLayout/SettingsViewController.swift:514-518 | removing keeps every entry gated and ids unique |
| Settings.ReloadedKeepsInvariants | BazemanLayout/SettingsViewController.swift:602-615 | reloading keeps every entry gated and ids unique |
| Settings.AddedKeepsInvariants | BazemanLayout/SettingsViewController.swift:484-506 | appending through the enabled Add button with a fresh id keeps every entry gated and ids unique |
| Settings.ZmanimManager.constructor | BazemanLayout/SettingsViewController.swift:555-570 | the saved list if one decodes, else the defaults for today's weekday |
| Settings.ZmanimManager.LoadDefaults | BazemanLayout/SettingsViewController.swift:576-616 | an empty list becomes the weekday's defaults; any other list becomes `Reloaded` |
| Settings.ZmanimManager.Reset | BazemanLayout/SettingsViewController.swift:617-633 | the list becomes the defaults with "Candle Lighting" hidden and the "Tzet" key |
| Settings.SettingsForm.constructor | BazemanLayout/SettingsViewController.swift:308-326 | the inputs start empty, hours, `"0"`, MA; the unit is one the picker offers |
| Settings.SettingsForm.SelectUnit | BazemanLayout/SettingsViewController.swift:351-352 | the picker sets the unit to one of `userSelectable` and changes no other input |
| Settings.SettingsForm.AddNew | BazemanLayout/SettingsViewController.swift:484-506 | exactly one entry, `AddedEntry` of the inputs, is appended with earlier entries unchanged; its unit is user-selectable, never fixed hours; the inputs are cleared and the picker invariant holds |
| Settings.SettingsForm.UpdateEntry | BazemanLayout/SettingsViewController.swift:508-512 | the list becomes `Replaced` |
| Settings.SettingsForm.DeleteEntry | BazemanLayout/SettingsViewController.swift:514-518 | the list becomes `Removed` |

## Left out

- The astronomy is the `altitude` parameter. The SwiftAA Julian day, sun position and horizontal coordinates are a foreign library doing floating-point astronomy. The search is proved for every altitude function, and its "first millisecond" result is proved under monotonicity on half a day.
- Calendar, `DateFormatter` and `TimeZone` become parameters (`startOfDay`, `nextDay`, `dayTag`, the weekday):
  - their text formats are library behaviour;
  - the label text (`format`, `String(format: "%.2f")`) is not modelled;
  - label texts are not written to the `UILabel`s (the loop that does it is not modelled).
- Floating point: instants and values are exact reals. Rounding of `Double` arithmetic and of `Double(mid) / 1000` is not modelled.
- Parsing.ParseDouble: reads decimal text only. It does not model exponents, `inf`, `nan`, hexadecimal floats, or the rounding of a decimal to the nearest `Double`.
- Screen.ViewController.ScheduleAlarm: two things are not modelled:
  - the trigger passes through date components to whole seconds, so sub-second precision is dropped;
  - `Calendar.date(byAdding:)` can fail, which would skip the reminder.
  
  The trigger is the exact instant `time − 60·offset`.
- The notification content (title, body, sound) is not modelled. `UNUserNotificationCenter` is a map from identifier to request. Its asynchronous completion handlers, `getPendingNotificationRequests` and the pending-alarm printout are left out.
- The `DispatchQueue` dispatch after `computeZmanim`'s sort is left out. It is concurrency, and it clears all pending reminders inside its loop.
- Screen.ViewController.ScheduleAlarmsForVisibleZmanim: requires every visible entry with its alarm on to have an offset that reads as an `Int` other than `Int.min`. The program force-unwraps only for entries that also have a time. Lists that passed the settings gates always meet the requirement (`Screen.WellFormedIsSchedulable`).
- Screen.ViewController.ScheduleDay: has the same requirement, for the same reason.
- Screen.ViewController.ComputeZmanim: requires `Zmanim.Computable`, because the program force-unwraps `Double(value)` for the four anchors and for each visible entry. Gated lists always satisfy it (`Zmanim.WellFormedIsComputable`).
- The reminder loop's guard `i >= zmanTimes.count` is omitted. It can never fire, because one time is computed per visible entry (`Zmanim.ZmanTimes`).
- `scheduleAlarmsForVisibleZmanim` re-reads the same shared list for each of the ten days, as the program does. The program computes `endDate` with one 9-day `calendar.date(byAdding:)`; the model takes nine 1-day `nextDay` steps, which agree only when calendar day addition composes. Its `Calendar.current` start of today is the parameter `today`.
- Sorting.Sort: is a stable insertion sort. Swift's `sorted(by:)` does not promise stability, so among equal keys the model fixes one of the orders the program may produce.
- `ZmanEntry` is a Swift class whose objects the manager and the home screen share. Entries are values here, and the home screen's write to the shared "Candle Lighting" object is modelled as a write to the manager's list.
- Saving and loading through `JSONEncoder`/`UserDefaults` are persistence I/O, and the `Codable` conformance goes with them. `ZmanimManager.constructor` takes the decoded list as an optional parameter.
- Entry ids (`UUID()`) are natural numbers supplied by the caller.
- The UI is left out because it is layout and location I/O. This covers:
  - SwiftUI layouts and the editing state;
  - `setupUI`, timers, location and geocoding callbacks;
  - background tasks, `SceneDelegate`, and the community and location-search screens.
- The fallback `hour ?? 1` in the halachic hour can never be taken, because the hour exists whenever sunrise and sunset do. The model keeps it as written.
