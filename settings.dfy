/**
 * The settings list of SettingsViewController.swift: the unit kinds, one zman
 * definition per entry, the list operations the settings screen performs on
 * the shared `ZmanimManager`, and the 13-entry default list that the
 * calculator reads by position.
 */
module Settings {
  import opened Wrappers
  import opened Parsing
  import opened Sorting

  /** `UnitType`: how an entry's `value` turns into a time. */
  datatype UnitType = Degrees | Hours | Minutes | FixedHours

  /** `UnitType.sortOrder`. */
  const SortOrder: seq<UnitType> := [Degrees, Hours, Minutes, FixedHours]

  /** `UnitType.userSelectable`: the units offered when adding an entry. */
  const UserSelectable: seq<UnitType> := [Degrees, Hours, Minutes]

  /** `UnitType.sortOrder.firstIndex(of: u)!`; the unwrap never fails. */
  function Rank(u: UnitType): (r: nat)
    ensures r < |SortOrder| && SortOrder[r] == u
    ensures forall k :: 0 <= k < r ==> SortOrder[k] != u
  {
    match u
    case Degrees => 0
    case Hours => 1
    case Minutes => 2
    case FixedHours => 3
  }

  /** Identifiers come from `UUID()`; the model only compares them. */
  type Uuid = nat

  /**
   * `SettingsView.ZmanEntry`. `value` and `alarmOffset` are kept as the text
   * the user typed, as in the source; `isAlot` selects the rising half of the
   * day for degrees and dawn-based ("MA") hours for hours.
   */
  datatype ZmanEntry = ZmanEntry(
    id: Uuid,
    key: string,
    value: string,
    unit: UnitType,
    isVisible: bool,
    isCustom: bool,
    isAlot: bool,
    lock: bool,
    alarmOffset: string,
    alarmOn: bool)

  /** The six-argument `ZmanEntry.init`: unlocked, offset "0", alarm off. */
  function NewEntry(id: Uuid, key: string, value: string, unit: UnitType,
                    isVisible: bool, isCustom: bool, isAlot: bool): (e: ZmanEntry)
    ensures !e.lock && !e.alarmOn && e.alarmOffset == "0"
    ensures e.id == id && e.key == key && e.value == value && e.unit == unit
    ensures e.isVisible == isVisible && e.isCustom == isCustom && e.isAlot == isAlot
  {
    ZmanEntry(id, key, value, unit, isVisible, isCustom, isAlot, false, "0", false)
  }

  // ---------------------------------------------------------------------------
  // Validation gates

  /** `isValid`: the text reads as a `Double`. */
  predicate IsValid(value: string) {
    ParseDouble(value).Some?
  }

  /** `isValidAlarmOffset`: the text reads as an `Int` that is not negative. */
  predicate IsValidAlarmOffset(value: string) {
    match ParseInt(value)
    case Some(n) => n >= 0
    case None => false
  }

  /** What every entry the settings screen produces satisfies. */
  predicate WellFormed(e: ZmanEntry) {
    IsValid(e.value) && IsValidAlarmOffset(e.alarmOffset)
  }

  /** The alarm-offset gate is exactly "reads as a whole number of minutes, at least 0". */
  lemma AlarmOffsetGate(s: string)
    ensures IsValidAlarmOffset(s) <==> exists n: nat :: ParseInt(s) == Some(n)
  {
    if IsValidAlarmOffset(s) {
      var n: nat := ParseInt(s).value;
      assert ParseInt(s) == Some(n);
    }
  }

  /** A valid alarm offset is also a valid value. */
  lemma AlarmOffsetIsValue(s: string)
    requires IsValidAlarmOffset(s)
    ensures IsValid(s)
  {
    IntTextIsDoubleText(s);
  }

  // ---------------------------------------------------------------------------
  // The setters of `ZmanRow`: each edits the shared entry, then `onUpdate`.

  /** The title field: any text is stored. */
  function SetKey(e: ZmanEntry, text: string): (r: ZmanEntry)
    ensures r.key == text && r.(key := e.key) == e
  {
    e.(key := text)
  }

  /** The value field: the text is stored only when it reads as a number. */
  function SetValue(e: ZmanEntry, text: string): (r: ZmanEntry)
    ensures r.(value := e.value) == e
    ensures r.value == text || r.value == e.value
    ensures r.value == text <==> IsValid(text) || text == e.value
  {
    if ParseDouble(text) != None then e.(value := text) else e
  }

  /** The alarm-offset field: stored only when it passes the alarm-offset gate. */
  function SetAlarmOffset(e: ZmanEntry, text: string): (r: ZmanEntry)
    ensures r.(alarmOffset := e.alarmOffset) == e
    ensures r.alarmOffset == text <==> IsValidAlarmOffset(text) || text == e.alarmOffset
    ensures r.alarmOffset != text ==> r.alarmOffset == e.alarmOffset
  {
    match ParseInt(text)
    case Some(n) => if n >= 0 then e.(alarmOffset := text) else e
    case None => e
  }

  /** The eye button: shown only for built-in entries that are not locked. */
  function ToggleVisibility(e: ZmanEntry): (r: ZmanEntry)
    ensures r.(isVisible := e.isVisible) == e
    ensures r.isVisible != e.isVisible <==> !e.isCustom && !e.lock
  {
    if !e.isCustom && !e.lock then e.(isVisible := !e.isVisible) else e
  }

  /** The alarm button. */
  function ToggleAlarm(e: ZmanEntry): (r: ZmanEntry)
    ensures r.(alarmOn := e.alarmOn) == e && r.alarmOn != e.alarmOn
  {
    e.(alarmOn := !e.alarmOn)
  }

  /** No row setter can break a well-formed entry. */
  lemma SettersKeepWellFormed(e: ZmanEntry, text: string)
    requires WellFormed(e)
    ensures WellFormed(SetKey(e, text)) && WellFormed(SetValue(e, text))
    ensures WellFormed(SetAlarmOffset(e, text))
    ensures WellFormed(ToggleVisibility(e)) && WellFormed(ToggleAlarm(e))
  {
  }

  // ---------------------------------------------------------------------------
  // `sortedEntries`

  /** The comparator's key: rank of the unit, then the value, unreadable as +infinity. */
  function EntryKey(e: ZmanEntry): SortKey {
    SortKey(Rank(e.unit), match ParseDouble(e.value) case Some(v) => Finite(v) case None => Infinite)
  }

  /** `sortedEntries`: the list in unit order, then by ascending value. */
  function SortedEntries(entries: seq<ZmanEntry>): (r: seq<ZmanEntry>)
    ensures multiset(r) == multiset(entries)
    ensures SortedBy(r, EntryKey)
  {
    Sort(entries, EntryKey)
  }

  /** What the order of `SortedEntries` means in the source's terms. */
  lemma SortedEntriesOrder(entries: seq<ZmanEntry>, i: int, j: int)
    requires 0 <= i < j < |entries|
    ensures var r := SortedEntries(entries);
      && Rank(r[i].unit) <= Rank(r[j].unit)
      && (r[i].unit == r[j].unit && IsValid(r[j].value) ==>
            IsValid(r[i].value) && ParseDouble(r[i].value).value <= ParseDouble(r[j].value).value)
  {
    var r := SortedEntries(entries);
    assert !KeyLess(EntryKey(r[j]), EntryKey(r[i]));
  }

  // ---------------------------------------------------------------------------
  // Searching the list (`firstIndex(where:)`)

  /** What `firstIndex(where:)` looks for: the entry with an id, or the entry with a key. */
  datatype Lookup = ById(id: Uuid) | ByKey(key: string)

  predicate Matches(e: ZmanEntry, q: Lookup) {
    match q
    case ById(id) => e.id == id
    case ByKey(key) => e.key == key
  }

  /** The first position whose entry matches, or none when no entry does. */
  function FirstIndexOf(es: seq<ZmanEntry>, q: Lookup): (r: Option<nat>)
    ensures r.Some? ==> r.value < |es| && Matches(es[r.value], q)
    ensures r.Some? ==> forall k :: 0 <= k < r.value ==> !Matches(es[k], q)
    ensures r.None? ==> forall k :: 0 <= k < |es| ==> !Matches(es[k], q)
  {
    if es == [] then None
    else if Matches(es[0], q) then Some(0)
    else match FirstIndexOf(es[1..], q)
      case Some(i) => Some(i + 1)
      case None => None
  }

  /** The first index holding `key` depends only on which entries hold it. */
  lemma FirstKeyFollowsKeys(es: seq<ZmanEntry>, es': seq<ZmanEntry>, key: string)
    requires |es| == |es'|
    requires forall k :: 0 <= k < |es| ==> (es[k].key == key <==> es'[k].key == key)
    ensures FirstIndexOf(es, ByKey(key)) == FirstIndexOf(es', ByKey(key))
  {
    var a, b := FirstIndexOf(es, ByKey(key)), FirstIndexOf(es', ByKey(key));
    if a.Some? && b.Some? {
      assert !(a.value < b.value) && !(b.value < a.value);
    }
  }

  // ---------------------------------------------------------------------------
  // List operations of the settings screen

  /** `updateEntry`: the first element with the same id is replaced, nothing else moves. */
  function Replaced(es: seq<ZmanEntry>, entry: ZmanEntry): (r: seq<ZmanEntry>)
    ensures |r| == |es|
    ensures FirstIndexOf(es, ById(entry.id)).None? ==> r == es
    ensures FirstIndexOf(es, ById(entry.id)).Some? ==>
      var i := FirstIndexOf(es, ById(entry.id)).value;
      r[i] == entry && forall k :: 0 <= k < |es| && k != i ==> r[k] == es[k]
  {
    match FirstIndexOf(es, ById(entry.id))
    case Some(i) => es[i := entry]
    case None => es
  }

  /** `deleteEntry`: the first element with the id is removed, the rest keep their order. */
  function Removed(es: seq<ZmanEntry>, id: Uuid): (r: seq<ZmanEntry>)
    ensures |r| == if FirstIndexOf(es, ById(id)).Some? then |es| - 1 else |es|
    ensures FirstIndexOf(es, ById(id)).None? ==> r == es
    ensures FirstIndexOf(es, ById(id)).Some? ==>
      var i := FirstIndexOf(es, ById(id)).value;
      (forall k :: 0 <= k < i ==> r[k] == es[k]) &&
      (forall k :: i <= k < |r| ==> r[k] == es[k + 1])
  {
    match FirstIndexOf(es, ById(id))
    case Some(i) => es[..i] + es[i + 1..]
    case None => es
  }

  /** The Add button's `.disabled` condition, negated. */
  predicate CanAdd(newKey: string, newValue: string, newAlarmOffset: string) {
    newKey != [] && IsValid(newValue) && IsValidAlarmOffset(newAlarmOffset)
  }

  /** The new-entry picker: MA and Before Hatzot (AM) are the two "alot" choices. */
  datatype MaGrazOption = Ma | Gra | BeforeHatzot | AfterHatzot | Fixed

  /** `addNew`'s `alot`. */
  function IsAlotFor(unit: UnitType, option: MaGrazOption): (alot: bool)
    ensures unit == Degrees ==> (alot <==> option == BeforeHatzot)
    ensures unit != Degrees ==> (alot <==> option == Ma)
  {
    (unit != Degrees && option == Ma) || (unit == Degrees && option == BeforeHatzot)
  }

  /** The entry `addNew` appends. */
  function AddedEntry(id: Uuid, newKey: string, newValue: string, newUnit: UnitType,
                      newAlarmOffset: string, option: MaGrazOption): (e: ZmanEntry)
    ensures e.isVisible && e.isCustom && !e.lock && !e.alarmOn
    ensures e.alarmOffset == newAlarmOffset && e.isAlot == IsAlotFor(newUnit, option)
    ensures e.id == id && e.key == newKey && e.value == newValue && e.unit == newUnit
  {
    NewEntry(id, newKey, newValue, newUnit, true, true, IsAlotFor(newUnit, option)).(alarmOffset := newAlarmOffset)
  }

  /** What the Add button lets through is a well-formed entry. */
  lemma AddedEntryWellFormed(id: Uuid, newKey: string, newValue: string, newUnit: UnitType,
                             newAlarmOffset: string, option: MaGrazOption)
    requires CanAdd(newKey, newValue, newAlarmOffset)
    ensures WellFormed(AddedEntry(id, newKey, newValue, newUnit, newAlarmOffset, option))
  {
  }

  // ---------------------------------------------------------------------------
  // Defaults

  const AlotKey := "Alot Hashachar"
  const SunriseKey := "Sunrise"
  const SunsetKey := "Sunset"
  const TzetKey := "Tzet Hakochavim (3 stars)"
  const ShabbatEndsKey := "Shabbat Ends"
  const CandleLightingKey := "Candle Lighting"

  /**
   * The 13 entries that `loadDefaults` and `reset` write, which differ only in
   * the candle-lighting visibility and the fourth entry's key.
   */
  function DefaultList(candleVisible: bool, tzetKey: string, ids: seq<Uuid>): (r: seq<ZmanEntry>)
    requires |ids| == 13
    ensures |r| == 13
    ensures forall k :: 0 <= k < 13 ==> r[k].id == ids[k] && !r[k].isCustom
    ensures forall k :: 0 <= k < 4 ==> r[k].unit == Degrees && r[k].isVisible
    ensures r[0].isAlot && r[1].isAlot && !r[2].isAlot && !r[3].isAlot
    ensures r[0].key == AlotKey && r[1].key == SunriseKey && r[2].key == SunsetKey && r[3].key == tzetKey
    ensures r[11].key == CandleLightingKey && r[11].isVisible == candleVisible
    ensures r[11].lock && r[11].alarmOn && r[11].alarmOffset == "15"
    ensures forall k :: 0 <= k < 13 && k != 11 ==> r[k].isVisible && !r[k].lock && !r[k].alarmOn
  {
    [ NewEntry(ids[0], AlotKey, "-16.1", Degrees, true, false, true),
      NewEntry(ids[1], SunriseKey, "-0.83", Degrees, true, false, true),
      NewEntry(ids[2], SunsetKey, "-0.83", Degrees, true, false, false),
      NewEntry(ids[3], tzetKey, "-08.5", Degrees, true, false, false),
      NewEntry(ids[4], "Misheyakir", "-10.2", Degrees, true, false, true),
      NewEntry(ids[5], "Latest Shemah (GR\"A)", "3.0", Hours, true, false, false),
      NewEntry(ids[6], "Latest Shemah (M\"A)", "3.0", Hours, true, false, true),
      NewEntry(ids[7], "Hatzot", "6.0", Hours, true, false, false),
      NewEntry(ids[8], "Minha Gedolah", "6.5", Hours, true, false, false),
      NewEntry(ids[9], "Minha Ketanah", "9.5", Hours, true, false, false),
      NewEntry(ids[10], "Plag Hamincha", "10.75", Hours, true, false, false),
      ZmanEntry(ids[11], CandleLightingKey, "-18", Minutes, candleVisible, false, false, true, "15", true),
      NewEntry(ids[12], "Hatzot Halailah", "12", FixedHours, true, false, false) ]
  }

  // The default texts, one small lemma each so that the solver unfolds one literal at a time.

  lemma AlotAngleTextUnsigned()
    ensures ParseUnsigned("16.1") == Some(16.1)
  {
    assert "16.1" == "16" + "." + "1";
    UnsignedText("16.1", "16", "1");
    AlotAngleDecimal();
  }

  lemma AlotAngleDecimal()
    ensures DecimalValue("16", "1") == 16.1
  {
    assert DigitsValue("16") == 16 && DigitsValue("1") == 1 && Pow10(1) == 10;
  }

  lemma AlotAngleText()
    ensures ParseDouble("-16.1") == Some(-16.1)
  {
    AlotAngleTextUnsigned();
    NegativeText("-16.1");
    assert "-16.1"[1..] == "16.1";
  }

  lemma SunAngleTextUnsigned()
    ensures ParseUnsigned("0.83") == Some(0.83)
  {
    assert "0.83" == "0" + "." + "83";
    UnsignedText("0.83", "0", "83");
    SunAngleDecimal();
  }

  lemma SunAngleDecimal()
    ensures DecimalValue("0", "83") == 0.83
  {
    assert DigitsValue("0") == 0 && DigitsValue("83") == 83 && Pow10(2) == 100;
  }

  lemma SunAngleText()
    ensures ParseDouble("-0.83") == Some(-0.83)
  {
    SunAngleTextUnsigned();
    NegativeText("-0.83");
    assert "-0.83"[1..] == "0.83";
  }

  lemma TzetAngleTextUnsigned()
    ensures ParseUnsigned("08.5") == Some(8.5)
  {
    assert "08.5" == "08" + "." + "5";
    UnsignedText("08.5", "08", "5");
    TzetAngleDecimal();
  }

  lemma TzetAngleDecimal()
    ensures DecimalValue("08", "5") == 8.5
  {
    assert DigitsValue("08") == 8 && DigitsValue("5") == 5 && Pow10(1) == 10;
  }

  lemma TzetAngleText()
    ensures ParseDouble("-08.5") == Some(-8.5)
  {
    TzetAngleTextUnsigned();
    NegativeText("-08.5");
    assert "-08.5"[1..] == "08.5";
  }

  lemma MisheyakirAngleTextUnsigned()
    ensures ParseUnsigned("10.2") == Some(10.2)
  {
    assert "10.2" == "10" + "." + "2";
    UnsignedText("10.2", "10", "2");
    MisheyakirAngleDecimal();
  }

  lemma MisheyakirAngleDecimal()
    ensures DecimalValue("10", "2") == 10.2
  {
    assert DigitsValue("10") == 10 && DigitsValue("2") == 2 && Pow10(1) == 10;
  }

  lemma MisheyakirAngleText()
    ensures ParseDouble("-10.2") == Some(-10.2)
  {
    MisheyakirAngleTextUnsigned();
    NegativeText("-10.2");
    assert "-10.2"[1..] == "10.2";
  }

  lemma ThreeHoursText()
    ensures IsValid("3.0")
  {
    UnsignedText("3.0", "3", "0");
  }

  lemma SixHoursText()
    ensures IsValid("6.0")
  {
    UnsignedText("6.0", "6", "0");
  }

  lemma SixAndAHalfHoursText()
    ensures IsValid("6.5")
  {
    UnsignedText("6.5", "6", "5");
  }

  lemma NineAndAHalfHoursText()
    ensures IsValid("9.5")
  {
    UnsignedText("9.5", "9", "5");
  }

  lemma PlagHoursText()
    ensures IsValid("10.75")
  {
    UnsignedText("10.75", "10", "75");
  }

  lemma CandleLightingText()
    ensures ParseInt("-18") == Some(-18) && IsValid("-18")
  {
    assert SplitSign("-18") == (true, "18");
    assert DigitsValue("18") == 18;
    IntTextIsDoubleText("-18");
  }

  lemma MidnightText()
    ensures ParseInt("12") == Some(12) && IsValid("12")
  {
    assert SplitSign("12") == (false, "12");
    assert DigitsValue("12") == 12;
    IntTextIsDoubleText("12");
  }

  lemma OffsetTexts()
    ensures ParseInt("0") == Some(0) && ParseInt("15") == Some(15)
  {
    assert SplitSign("0") == (false, "0");
    assert SplitSign("15") == (false, "15");
    assert DigitsValue("15") == 15;
  }

  /** The four anchor angles of the default list, as the calculator reads them. */
  lemma DefaultAnchorAngles(candleVisible: bool, tzetKey: string, ids: seq<Uuid>)
    requires |ids| == 13
    ensures var r := DefaultList(candleVisible, tzetKey, ids);
      && ParseDouble(r[0].value) == Some(-16.1)
      && ParseDouble(r[1].value) == Some(-0.83)
      && ParseDouble(r[2].value) == Some(-0.83)
      && ParseDouble(r[3].value) == Some(-8.5)
  {
    AlotAngleText();
    SunAngleText();
    TzetAngleText();
  }

  lemma DefaultEntryWellFormed(candleVisible: bool, tzetKey: string, ids: seq<Uuid>, k: nat)
    requires |ids| == 13 && k < 13
    ensures WellFormed(DefaultList(candleVisible, tzetKey, ids)[k])
  {
    DefaultOffsetValid(candleVisible, tzetKey, ids, k);
    if k < 5 {
      DefaultAngleValid(candleVisible, tzetKey, ids, k);
    } else if k < 11 {
      DefaultHoursValid(candleVisible, tzetKey, ids, k);
    } else {
      DefaultEveningValid(candleVisible, tzetKey, ids, k);
    }
  }

  /** Every default reminder offset is a whole number of minutes, not negative. */
  lemma DefaultOffsetValid(candleVisible: bool, tzetKey: string, ids: seq<Uuid>, k: nat)
    requires |ids| == 13 && k < 13
    ensures IsValidAlarmOffset(DefaultList(candleVisible, tzetKey, ids)[k].alarmOffset)
  {
    OffsetTexts();
    var o := DefaultList(candleVisible, tzetKey, ids)[k].alarmOffset;
    assert o == if k == 11 then "15" else "0";
  }

  /** Candle lighting's minutes and midnight's fixed hours parse. */
  lemma DefaultEveningValid(candleVisible: bool, tzetKey: string, ids: seq<Uuid>, k: nat)
    requires |ids| == 13 && 11 <= k < 13
    ensures IsValid(DefaultList(candleVisible, tzetKey, ids)[k].value)
  {
    var v := DefaultList(candleVisible, tzetKey, ids)[k].value;
    if k == 11 { assert v == "-18"; CandleLightingText(); }
    else { assert v == "12"; MidnightText(); }
  }

  /** The five angles of the default list parse. */
  lemma DefaultAngleValid(candleVisible: bool, tzetKey: string, ids: seq<Uuid>, k: nat)
    requires |ids| == 13 && k < 5
    ensures IsValid(DefaultList(candleVisible, tzetKey, ids)[k].value)
  {
    var v := DefaultList(candleVisible, tzetKey, ids)[k].value;
    if k == 0 { assert v == "-16.1"; AlotAngleText(); }
    else if k == 1 || k == 2 { assert v == "-0.83"; SunAngleText(); }
    else if k == 3 { assert v == "-08.5"; TzetAngleText(); }
    else { assert v == "-10.2"; MisheyakirAngleText(); }
  }

  /** The six hour counts of the default list parse. */
  lemma DefaultHoursValid(candleVisible: bool, tzetKey: string, ids: seq<Uuid>, k: nat)
    requires |ids| == 13 && 5 <= k < 11
    ensures IsValid(DefaultList(candleVisible, tzetKey, ids)[k].value)
  {
    var v := DefaultList(candleVisible, tzetKey, ids)[k].value;
    if k == 5 || k == 6 { assert v == "3.0"; ThreeHoursText(); }
    else if k == 7 { assert v == "6.0"; SixHoursText(); }
    else if k == 8 { assert v == "6.5"; SixAndAHalfHoursText(); }
    else if k == 9 { assert v == "9.5"; NineAndAHalfHoursText(); }
    else { assert v == "10.75"; PlagHoursText(); }
  }

  /** Every default entry passes the gates the settings screen applies. */
  lemma DefaultListWellFormed(candleVisible: bool, tzetKey: string, ids: seq<Uuid>)
    requires |ids| == 13
    ensures forall k :: 0 <= k < 13 ==> WellFormed(DefaultList(candleVisible, tzetKey, ids)[k])
  {
    forall k | 0 <= k < 13
      ensures WellFormed(DefaultList(candleVisible, tzetKey, ids)[k])
    {
      DefaultEntryWellFormed(candleVisible, tzetKey, ids, k);
    }
  }

  /** The evening entry's two names; `loadDefaults` switches between them. */
  predicate IsEveningKey(key: string) {
    key == TzetKey || key == ShabbatEndsKey
  }

  /** The fourth key for a weekday (1 = Sunday … 7 = Saturday). */
  function EveningKey(weekday: int): (key: string)
    ensures IsEveningKey(key)
    ensures key == ShabbatEndsKey <==> weekday == 7
  {
    if weekday == 7 then ShabbatEndsKey else TzetKey
  }

  /** Sets the visibility of the first entry carrying `key`, if there is one. */
  function ShowFirst(es: seq<ZmanEntry>, key: string, visible: bool): (r: seq<ZmanEntry>)
    ensures |r| == |es|
    ensures forall k :: 0 <= k < |es| ==> r[k].(isVisible := es[k].isVisible) == es[k]
    ensures forall k :: 0 <= k < |es| ==>
      r[k].isVisible == if FirstIndexOf(es, ByKey(key)) == Some(k) then visible else es[k].isVisible
  {
    match FirstIndexOf(es, ByKey(key))
    case Some(i) => es[i := es[i].(isVisible := visible)]
    case None => es
  }

  /** Renames the first entry carrying `key`, if there is one. */
  function RenameFirst(es: seq<ZmanEntry>, key: string, newKey: string): (r: seq<ZmanEntry>)
    ensures |r| == |es|
    ensures forall k :: 0 <= k < |es| ==> r[k].(key := es[k].key) == es[k]
    ensures forall k :: 0 <= k < |es| ==>
      r[k].key == if FirstIndexOf(es, ByKey(key)) == Some(k) then newKey else es[k].key
  {
    match FirstIndexOf(es, ByKey(key))
    case Some(i) => es[i := es[i].(key := newKey)]
    case None => es
  }

  /**
   * `loadDefaults` on a list that is not empty: candle lighting is shown on
   * Fridays only, then the first "Tzet" entry and then the first "Shabbat
   * Ends" entry are renamed to the weekday's evening key.
   */
  function Reloaded(es: seq<ZmanEntry>, weekday: int): (r: seq<ZmanEntry>)
    ensures |r| == |es|
    ensures forall k :: 0 <= k < |es| ==> r[k].(key := es[k].key, isVisible := es[k].isVisible) == es[k]
    ensures FirstIndexOf(es, ByKey(CandleLightingKey)).Some? ==>
      r[FirstIndexOf(es, ByKey(CandleLightingKey)).value].isVisible == (weekday == 6)
    ensures forall k :: 0 <= k < |es| && r[k].isVisible != es[k].isVisible ==>
      FirstIndexOf(es, ByKey(CandleLightingKey)) == Some(k)
    ensures FirstIndexOf(es, ByKey(TzetKey)).Some? ==>
      r[FirstIndexOf(es, ByKey(TzetKey)).value].key == EveningKey(weekday)
    ensures FirstIndexOf(es, ByKey(ShabbatEndsKey)).Some? ==>
      r[FirstIndexOf(es, ByKey(ShabbatEndsKey)).value].key == EveningKey(weekday)
    ensures forall k :: 0 <= k < |es| && r[k].key != es[k].key ==>
      FirstIndexOf(es, ByKey(TzetKey)) == Some(k) || FirstIndexOf(es, ByKey(ShabbatEndsKey)) == Some(k)
  {
    var es1 := ShowFirst(es, CandleLightingKey, weekday == 6);
    FirstKeyFollowsKeys(es, es1, CandleLightingKey);
    FirstKeyFollowsKeys(es, es1, TzetKey);
    FirstKeyFollowsKeys(es, es1, ShabbatEndsKey);
    RenameEveningKeys(es1, EveningKey(weekday));
    var es2 := RenameFirst(es1, TzetKey, EveningKey(weekday));
    var es3 := RenameFirst(es2, ShabbatEndsKey, EveningKey(weekday));
    es3
  }

  /**
   * Renaming the first "Tzet" entry and then the first "Shabbat Ends" entry
   * to an evening key gives both of the original first holders that key,
   * and changes no other key.
   */
  lemma RenameEveningKeys(es: seq<ZmanEntry>, tzt: string)
    requires IsEveningKey(tzt)
    ensures var r := RenameFirst(RenameFirst(es, TzetKey, tzt), ShabbatEndsKey, tzt);
      && (FirstIndexOf(es, ByKey(TzetKey)).Some? ==> r[FirstIndexOf(es, ByKey(TzetKey)).value].key == tzt)
      && (FirstIndexOf(es, ByKey(ShabbatEndsKey)).Some? ==> r[FirstIndexOf(es, ByKey(ShabbatEndsKey)).value].key == tzt)
      && (forall k :: 0 <= k < |es| && r[k].key != es[k].key ==>
            FirstIndexOf(es, ByKey(TzetKey)) == Some(k) || FirstIndexOf(es, ByKey(ShabbatEndsKey)) == Some(k))
  {
    var es2 := RenameFirst(es, TzetKey, tzt);
    if tzt == TzetKey {
      // Renaming "Tzet" to itself changes nothing, so "Shabbat Ends" is found where it was.
      forall k | 0 <= k < |es| ensures es2[k].key == es[k].key {
        if FirstIndexOf(es, ByKey(TzetKey)) == Some(k) { assert es[k].key == TzetKey; }
      }
      FirstKeyFollowsKeys(es, es2, ShabbatEndsKey);
    } else {
      RenameToShabbatEnds(es);
    }
  }

  /** On Saturday the second rename gives "Shabbat Ends" to an entry that already has it. */
  lemma RenameToShabbatEnds(es: seq<ZmanEntry>)
    ensures var r := RenameFirst(RenameFirst(es, TzetKey, ShabbatEndsKey), ShabbatEndsKey, ShabbatEndsKey);
      && (FirstIndexOf(es, ByKey(TzetKey)).Some? ==> r[FirstIndexOf(es, ByKey(TzetKey)).value].key == ShabbatEndsKey)
      && (FirstIndexOf(es, ByKey(ShabbatEndsKey)).Some? ==> r[FirstIndexOf(es, ByKey(ShabbatEndsKey)).value].key == ShabbatEndsKey)
      && (forall k :: 0 <= k < |es| && r[k].key != es[k].key ==> FirstIndexOf(es, ByKey(TzetKey)) == Some(k))
  {
    var es2 := RenameFirst(es, TzetKey, ShabbatEndsKey);
    var r := RenameFirst(es2, ShabbatEndsKey, ShabbatEndsKey);
    var j2 := FirstIndexOf(es2, ByKey(ShabbatEndsKey));
    forall k | 0 <= k < |es| ensures r[k].key == es2[k].key {
      if j2 == Some(k) { assert es2[k].key == ShabbatEndsKey; }
    }
  }

  /** At most one entry carries an evening key (true of the default list). */
  predicate OneEveningEntry(es: seq<ZmanEntry>) {
    forall i, j :: 0 <= i < j < |es| && IsEveningKey(es[i].key) ==> !IsEveningKey(es[j].key)
  }

  /** The first index of a key held by exactly one entry is that entry's. */
  lemma OnlyHolder(es: seq<ZmanEntry>, key: string, k: nat)
    requires k < |es| && es[k].key == key
    requires forall j :: 0 <= j < |es| && j != k ==> es[j].key != key
    ensures FirstIndexOf(es, ByKey(key)) == Some(k)
  {
  }

  /** The key one entry ends up with, when only it may carry an evening key. */
  lemma ReloadedKeyAt(es: seq<ZmanEntry>, weekday: int, k: nat)
    requires OneEveningEntry(es) && k < |es|
    ensures Reloaded(es, weekday)[k].key == if IsEveningKey(es[k].key) then EveningKey(weekday) else es[k].key
  {
    if IsEveningKey(es[k].key) {
      forall j | 0 <= j < |es| && j != k ensures es[j].key != es[k].key {
        assert !IsEveningKey(es[j].key);
      }
      if es[k].key == TzetKey {
        OnlyHolder(es, TzetKey, k);
      } else {
        OnlyHolder(es, ShabbatEndsKey, k);
      }
    }
  }

  /** With one evening entry, `loadDefaults` sets its key and the first candle-lighting visibility. */
  lemma ReloadedOneEvening(es: seq<ZmanEntry>, weekday: int)
    requires OneEveningEntry(es)
    ensures var r := Reloaded(es, weekday);
      forall k :: 0 <= k < |es| ==>
        && r[k].key == (if IsEveningKey(es[k].key) then EveningKey(weekday) else es[k].key)
        && r[k].isVisible == (if FirstIndexOf(es, ByKey(CandleLightingKey)) == Some(k) then weekday == 6 else es[k].isVisible)
  {
    var es1 := ShowFirst(es, CandleLightingKey, weekday == 6);
    var es2 := RenameFirst(es1, TzetKey, EveningKey(weekday));
    assert Reloaded(es, weekday) == RenameFirst(es2, ShabbatEndsKey, EveningKey(weekday));
    forall k | 0 <= k < |es|
      ensures Reloaded(es, weekday)[k].key == (if IsEveningKey(es[k].key) then EveningKey(weekday) else es[k].key)
    {
      ReloadedKeyAt(es, weekday, k);
    }
  }

  /** For a list with one evening entry, reloading for the same weekday twice is reloading once. */
  lemma ReloadedIdempotent(es: seq<ZmanEntry>, weekday: int)
    requires OneEveningEntry(es)
    ensures Reloaded(Reloaded(es, weekday), weekday) == Reloaded(es, weekday)
  {
    var r := Reloaded(es, weekday);
    ReloadedOneEvening(es, weekday);
    FirstKeyFollowsKeys(es, r, CandleLightingKey);
    assert OneEveningEntry(r);
    ReloadedOneEvening(r, weekday);
    var rr := Reloaded(r, weekday);
    assert forall k :: 0 <= k < |es| ==> rr[k] == r[k];
  }

  /** Two evening entries: on a Saturday, a second reload renames the second one too. */
  lemma ReloadedNotIdempotentWithTwoEveningEntries(a: ZmanEntry, b: ZmanEntry)
    requires a.key == TzetKey && b.key == TzetKey
    ensures Reloaded(Reloaded([a, b], 7), 7) != Reloaded([a, b], 7)
  {
    var once := Reloaded([a, b], 7);
    assert once[1].key == TzetKey by {
      assert FirstIndexOf([a, b], ByKey(CandleLightingKey)) == None;
      assert FirstIndexOf([a, b], ByKey(TzetKey)) == Some(0);
    }
    var twice := Reloaded(once, 7);
    assert twice[1].key == ShabbatEndsKey by {
      assert once[0].key == ShabbatEndsKey;
      assert FirstIndexOf(once, ByKey(TzetKey)) == Some(1);
    }
  }

  /** `loadDefaults` on an empty list, for the weekday of the selected date. */
  lemma LoadDefaultsOnEmpty(weekday: int, ids: seq<Uuid>)
    requires |ids| == 13
    ensures var r := DefaultList(weekday == 6, EveningKey(weekday), ids);
      && FirstIndexOf(r, ByKey(CandleLightingKey)) == Some(11)
      && (r[11].isVisible <==> weekday == 6)
      && (r[3].key == ShabbatEndsKey <==> weekday == 7)
      && OneEveningEntry(r)
  {
    var r := DefaultList(weekday == 6, EveningKey(weekday), ids);
    forall k | 0 <= k < 13
      ensures k != 3 ==> !IsEveningKey(r[k].key)
      ensures k != 11 ==> r[k].key != CandleLightingKey
    {
      DefaultKeyAt(weekday == 6, EveningKey(weekday), ids, k);
    }
  }

  /** Only entry 3 of the default list has an evening key, and only entry 11 is candle lighting. */
  lemma DefaultKeyAt(candleVisible: bool, tzetKey: string, ids: seq<Uuid>, k: nat)
    requires |ids| == 13 && k < 13 && IsEveningKey(tzetKey)
    ensures var key := DefaultList(candleVisible, tzetKey, ids)[k].key;
      && (k != 3 ==> !IsEveningKey(key))
      && (k != 11 ==> key != CandleLightingKey)
  {
    if k == 3 {
      assert DefaultList(candleVisible, tzetKey, ids)[3].key == tzetKey;
    }
  }

  /** `reset` writes the weekday defaults: candle lighting hidden, the fourth key "Tzet". */
  lemma ResetIsWeekdayDefaults(weekday: int, ids: seq<Uuid>)
    requires 1 <= weekday <= 5 && |ids| == 13
    ensures DefaultList(false, TzetKey, ids) == DefaultList(weekday == 6, EveningKey(weekday), ids)
  {
  }

  /** Every entry of the list passes the settings screen's gates. */
  predicate AllWellFormed(es: seq<ZmanEntry>) {
    forall k :: 0 <= k < |es| ==> WellFormed(es[k])
  }

  /** No two entries share an id. */
  predicate UniqueIds(es: seq<ZmanEntry>) {
    forall i, j :: 0 <= i < j < |es| ==> es[i].id != es[j].id
  }

  /** `updateEntry` with a well-formed row keeps both list invariants. */
  lemma ReplacedKeepsInvariants(es: seq<ZmanEntry>, entry: ZmanEntry)
    requires AllWellFormed(es) && UniqueIds(es) && WellFormed(entry)
    ensures AllWellFormed(Replaced(es, entry)) && UniqueIds(Replaced(es, entry))
  {
    var u := Replaced(es, entry);
    if FirstIndexOf(es, ById(entry.id)).Some? {
      assert forall k :: 0 <= k < |es| ==> u[k].id == es[k].id;
    }
  }

  /** `deleteEntry` keeps both list invariants. */
  lemma RemovedKeepsInvariants(es: seq<ZmanEntry>, id: Uuid)
    requires AllWellFormed(es) && UniqueIds(es)
    ensures AllWellFormed(Removed(es, id)) && UniqueIds(Removed(es, id))
  {
    var d := Removed(es, id);
    if FirstIndexOf(es, ById(id)).Some? {
      var i := FirstIndexOf(es, ById(id)).value;
      assert forall k :: 0 <= k < |d| ==> d[k] == es[if k < i then k else k + 1];
    }
  }

  /** Reloading the defaults keeps both list invariants. */
  lemma ReloadedKeepsInvariants(es: seq<ZmanEntry>, weekday: int)
    requires AllWellFormed(es) && UniqueIds(es)
    ensures AllWellFormed(Reloaded(es, weekday)) && UniqueIds(Reloaded(es, weekday))
  {
    var r := Reloaded(es, weekday);
    forall k | 0 <= k < |es|
      ensures r[k].id == es[k].id && WellFormed(r[k])
    {
      assert r[k].(key := es[k].key, isVisible := es[k].isVisible) == es[k];
    }
  }

  /** `addNew` with the Add button enabled and a fresh id keeps both list invariants. */
  lemma AddedKeepsInvariants(es: seq<ZmanEntry>, id: Uuid, newKey: string, newValue: string,
                             newUnit: UnitType, newAlarmOffset: string, option: MaGrazOption)
    requires AllWellFormed(es) && UniqueIds(es)
    requires CanAdd(newKey, newValue, newAlarmOffset)
    requires forall k :: 0 <= k < |es| ==> es[k].id != id
    ensures var r := es + [AddedEntry(id, newKey, newValue, newUnit, newAlarmOffset, option)];
      AllWellFormed(r) && UniqueIds(r)
  {
    AddedEntryWellFormed(id, newKey, newValue, newUnit, newAlarmOffset, option);
  }

  /** `ZmanimManager`: the one shared list of entries that every screen reads. */
  class ZmanimManager {
    var entries: seq<ZmanEntry>

    /** `init` runs `loadSettings`: the decoded list if there is one, the defaults otherwise. */
    constructor (saved: Option<seq<ZmanEntry>>, weekday: int, ids: seq<Uuid>)
      requires |ids| == 13
      ensures saved.Some? ==> entries == saved.value
      ensures saved.None? ==> entries == DefaultList(weekday == 6, EveningKey(weekday), ids)
    {
      entries := [];
      new;
      if saved.Some? {
        entries := saved.value;
      } else {
        LoadDefaults(weekday, ids);
      }
    }

    /**
     * `loadDefaults(for:)`: builds the defaults when the list is empty,
     * otherwise patches candle lighting and the evening entry for the weekday.
     */
    method LoadDefaults(weekday: int, ids: seq<Uuid>)
      requires |ids| == 13
      modifies this
      ensures old(entries) == [] ==> entries == DefaultList(weekday == 6, EveningKey(weekday), ids)
      ensures old(entries) != [] ==> entries == Reloaded(old(entries), weekday)
    {
      var isFriday := weekday == 6;
      var isSaturday := weekday == 7;
      var tztkey := TzetKey;
      if isSaturday {
        tztkey := ShabbatEndsKey;
      }
      assert tztkey == EveningKey(weekday);
      if entries == [] {
        entries := DefaultList(isFriday, tztkey, ids);
      } else {
        ghost var es0 := entries;
        var index := FirstIndexOf(entries, ByKey(CandleLightingKey));
        if index.Some? {
          entries := entries[index.value := entries[index.value].(isVisible := isFriday)];
        }
        assert entries == ShowFirst(es0, CandleLightingKey, weekday == 6);
        ghost var es1 := entries;
        index := FirstIndexOf(entries, ByKey(TzetKey));
        if index.Some? {
          entries := entries[index.value := entries[index.value].(key := tztkey)];
        }
        assert entries == RenameFirst(es1, TzetKey, EveningKey(weekday));
        ghost var es2 := entries;
        index := FirstIndexOf(entries, ByKey(ShabbatEndsKey));
        if index.Some? {
          entries := entries[index.value := entries[index.value].(key := tztkey)];
        }
        assert entries == RenameFirst(es2, ShabbatEndsKey, EveningKey(weekday));
      }
    }

    /** `reset`: the weekday defaults, whatever the list held. */
    method Reset(ids: seq<Uuid>)
      requires |ids| == 13
      modifies this
      ensures entries == DefaultList(false, TzetKey, ids)
    {
      entries := DefaultList(false, TzetKey, ids);
    }
  }

  /** The add-new form of `SettingsView` and the callbacks its rows use. */
  class SettingsForm {
    const manager: ZmanimManager
    var newKey: string
    var newValue: string
    var newUnit: UnitType
    var newAlarmOffset: string
    var newMaGrazOption: MaGrazOption

    /** Whether the form holds its initial inputs. */
    predicate Cleared()
      reads this
    {
      newKey == "" && newValue == "" && newUnit == Hours && newAlarmOffset == "0" && newMaGrazOption == Ma
    }

    /** The unit picker offers only the user-selectable units, so the form never holds fixed hours. */
    predicate Valid()
      reads this
    {
      newUnit in UserSelectable
    }

    constructor (manager: ZmanimManager)
      ensures this.manager == manager && Cleared() && Valid()
    {
      this.manager := manager;
      newKey, newValue, newUnit, newAlarmOffset, newMaGrazOption := "", "", Hours, "0", Ma;
    }

    /** `addNew`: appends one custom entry built from the inputs, then clears them. */
    method AddNew(id: Uuid)
      requires Valid()
      modifies this, manager
      ensures manager.entries == old(manager.entries) +
        [AddedEntry(id, old(newKey), old(newValue), old(newUnit), old(newAlarmOffset), old(newMaGrazOption))]
      ensures manager.entries[|manager.entries| - 1].unit in UserSelectable
      ensures Cleared() && Valid()
    {
      var alot := (newUnit != Degrees && newMaGrazOption == Ma) || (newUnit == Degrees && newMaGrazOption == BeforeHatzot);
      var newEntry := NewEntry(id, newKey, newValue, newUnit, true, true, alot);
      newEntry := newEntry.(alarmOffset := newAlarmOffset);
      manager.entries := manager.entries + [newEntry];
      newKey := "";
      newValue := "";
      newUnit := Hours;
      newAlarmOffset := "0";
      newMaGrazOption := Ma;
    }

    /** The unit picker: only a user-selectable unit can be chosen. */
    method SelectUnit(u: UnitType)
      requires u in UserSelectable
      modifies this
      ensures newUnit == u && Valid()
      ensures newKey == old(newKey) && newValue == old(newValue)
      ensures newAlarmOffset == old(newAlarmOffset) && newMaGrazOption == old(newMaGrazOption)
    {
      newUnit := u;
    }

    /** `updateEntry`. */
    method UpdateEntry(entry: ZmanEntry)
      modifies manager
      ensures manager.entries == Replaced(old(manager.entries), entry)
    {
      var index := FirstIndexOf(manager.entries, ById(entry.id));
      if index.Some? {
        manager.entries := manager.entries[index.value := entry];
      }
    }

    /** `deleteEntry`. */
    method DeleteEntry(entry: ZmanEntry)
      modifies manager
      ensures manager.entries == Removed(old(manager.entries), entry.id)
    {
      var index := FirstIndexOf(manager.entries, ById(entry.id));
      if index.Some? {
        manager.entries := manager.entries[..index.value] + manager.entries[index.value + 1..];
      }
    }
  }
}
