/** The mood calendar screen (app/functions/mood-check.tsx): the month grid, the colour of a day from
    its score, the date-to-score map loaded from the mood store, and saving a score for a day.
    Calendar days are integer day numbers; day 0 is a Sunday, so `d % 7` is the weekday with
    Sunday as 0. */
module MoodCheck {
  import opened Common
  import Text
  import StorageTypes
  import MoodStorage

  // ---------------------------------------------------------------- the month grid

  /** The column headers, left to right. */
  const WEEK_DAYS: seq<string> := ["Mon", "Tue", "Wed", "Thu", "Fri", "Sat", "Sun"]

  /** Weekday names indexed by `d % 7`. */
  const DAY_NAMES: seq<string> := ["Sun", "Mon", "Tue", "Wed", "Thu", "Fri", "Sat"]

  function DayName(d: int): string
  {
    DAY_NAMES[d % 7]
  }

  /** date-fns' default first day of the week (Sunday), which the screen uses. */
  const SUNDAY: int := 0
  const MONDAY: int := 1

  /** `startOfWeek`: the latest day on or before d that falls on weekStartsOn. */
  function StartOfWeek(d: int, weekStartsOn: int): (s: int)
    requires 0 <= weekStartsOn < 7
    ensures s <= d < s + 7 && s % 7 == weekStartsOn
  {
    d - (d % 7 - weekStartsOn + 7) % 7
  }

  /** `endOfWeek`: the last day of d's week. */
  function EndOfWeek(d: int, weekStartsOn: int): (e: int)
    requires 0 <= weekStartsOn < 7
    ensures e - 7 < d <= e && (e + 1) % 7 == weekStartsOn
  {
    StartOfWeek(d, weekStartsOn) + 6
  }

  /** The days generateDays lists for the month [monthFirst, monthLast]: whole weeks, from the start
      of the first day's week to the end of the last day's week, every month day included. */
  function GridDays(monthFirst: int, monthLast: int, weekStartsOn: int): (days: seq<int>)
    requires monthFirst <= monthLast && 0 <= weekStartsOn < 7
    ensures |days| >= 7 && |days| % 7 == 0
    ensures forall i :: 0 <= i < |days| ==> days[i] == days[0] + i
    ensures days[0] % 7 == weekStartsOn && monthFirst - 7 < days[0] <= monthFirst
    ensures monthLast <= days[|days| - 1] < monthLast + 7
    ensures forall d :: monthFirst <= d <= monthLast ==> d in days
  {
    var start := StartOfWeek(monthFirst, weekStartsOn);
    var end := EndOfWeek(monthLast, weekStartsOn);
    var n := end - start + 1;
    assert n == 7 * ((StartOfWeek(monthLast, weekStartsOn) - start) / 7 + 1);
    var days := seq(n, i requires 0 <= i < n => start + i);
    assert forall d | monthFirst <= d <= monthLast :: d in days by {
      forall d | monthFirst <= d <= monthLast ensures d in days {
        assert days[d - start] == d;
      }
    }
    days
  }

  /** generateDays: a loop from the week start to the week end, one day at a time. */
  method GenerateDays(monthFirst: int, monthLast: int, weekStartsOn: int) returns (days: seq<int>)
    requires monthFirst <= monthLast && 0 <= weekStartsOn < 7
    ensures days == GridDays(monthFirst, monthLast, weekStartsOn)
  {
    var startDate := StartOfWeek(monthFirst, weekStartsOn);
    var endDate := EndOfWeek(monthLast, weekStartsOn);
    days := [];
    var day := startDate;
    while day <= endDate
      invariant startDate <= day <= endDate + 1
      invariant |days| == day - startDate
      invariant forall i :: 0 <= i < |days| ==> days[i] == startDate + i
    {
      days := days + [day];
      day := day + 1;
    }
  }

  /** A multiple of seven plus t, for t a weekday, falls on weekday t. */
  lemma WeeksPlus(n: int, t: int)
    requires 0 <= t < 7
    ensures (7 * n + t) % 7 == t
  {
  }

  /** The weekday of the day i places after a day whose weekday is w. */
  lemma ShiftedWeekday(a: int, i: int, w: int)
    requires 0 <= w < 7 && a % 7 == w && 0 <= i
    ensures (a + i) % 7 == (w + i % 7) % 7
    ensures w + i % 7 < 7 ==> (a + i) % 7 == w + i % 7
  {
    var n := a / 7 + i / 7;
    var t := w + i % 7;
    assert a + i == 7 * n + t;
    if t < 7 {
      WeeksPlus(n, t);
    } else {
      assert a + i == 7 * (n + 1) + (t - 7);
      WeeksPlus(n + 1, t - 7);
    }
  }

  /** Header column k names the weekday after weekday k. */
  lemma HeaderColumn(k: int)
    requires 0 <= k < 7
    ensures WEEK_DAYS[k] == DAY_NAMES[(k + 1) % 7] && WEEK_DAYS[k] != DAY_NAMES[k]
  {
  }

  /** In a grid starting on a Sunday, the cell i places in is mislabelled with the next day's name. */
  lemma SundayCell(start: int, i: int)
    requires start % 7 == SUNDAY && 0 <= i
    ensures DayName(start + i) != WEEK_DAYS[i % 7] && DayName(start + i + 1) == WEEK_DAYS[i % 7]
  {
    var k := i % 7;
    ShiftedWeekday(start, i, SUNDAY);
    ShiftedWeekday(start + i, 1, k);
    HeaderColumn(k);
  }

  /** In a grid starting on a Monday, the cell i places in carries its own day's name. */
  lemma MondayCell(start: int, i: int)
    requires start % 7 == MONDAY && 0 <= i
    ensures DayName(start + i) == WEEK_DAYS[i % 7]
  {
    ShiftedWeekday(start, i, MONDAY);
    HeaderColumn(i % 7);
  }

  /** In a Sunday-start grid no cell sits under its own day's name. */
  lemma SundayGridCellsMisnamed(days: seq<int>)
    requires |days| > 0 && days[0] % 7 == SUNDAY
    requires forall i :: 0 <= i < |days| ==> days[i] == days[0] + i
    ensures forall i :: 0 <= i < |days| ==> DayName(days[i]) != WEEK_DAYS[i % 7]
  {
    forall i | 0 <= i < |days| ensures DayName(days[i]) != WEEK_DAYS[i % 7] {
      SundayCell(days[0], i);
    }
  }

  /** In a Sunday-start grid every cell sits under the next day's name. */
  lemma SundayGridCellsNamedAfterNext(days: seq<int>)
    requires |days| > 0 && days[0] % 7 == SUNDAY
    requires forall i :: 0 <= i < |days| ==> days[i] == days[0] + i
    ensures forall i :: 0 <= i < |days| ==> DayName(days[i] + 1) == WEEK_DAYS[i % 7]
  {
    forall i | 0 <= i < |days| ensures DayName(days[i] + 1) == WEEK_DAYS[i % 7] {
      SundayCell(days[0], i);
    }
  }

  /** As the screen builds it, the grid starts its weeks on Sunday while the header starts on
      "Mon": every cell sits under the name of the day after it. */
  lemma HeaderMislabelsSundayGrid(monthFirst: int, monthLast: int)
    requires monthFirst <= monthLast
    ensures var days := GridDays(monthFirst, monthLast, SUNDAY);
      forall i :: 0 <= i < |days| ==> DayName(days[i]) != WEEK_DAYS[i % 7] && DayName(days[i] + 1) == WEEK_DAYS[i % 7]
  {
    var days := GridDays(monthFirst, monthLast, SUNDAY);
    SundayGridCellsMisnamed(days);
    SundayGridCellsNamedAfterNext(days);
  }

  /** A grid whose weeks start on Monday matches the header: every cell sits under its own day's name. */
  lemma HeaderMatchesMondayGrid(monthFirst: int, monthLast: int)
    requires monthFirst <= monthLast
    ensures var days := GridDays(monthFirst, monthLast, MONDAY);
      forall i :: 0 <= i < |days| ==> DayName(days[i]) == WEEK_DAYS[i % 7]
  {
    var days := GridDays(monthFirst, monthLast, MONDAY);
    forall i | 0 <= i < |days| ensures DayName(days[i]) == WEEK_DAYS[i % 7] {
      assert days[i] == days[0] + i;
      MondayCell(days[0], i);
    }
  }

  // ---------------------------------------------------------------- colours

  /** getMoodColor's hue: the score clamped to 1..10, then 12 degrees per step above 1. */
  function Hue(score: int): (h: int)
    ensures 0 <= h <= 108 && h % 12 == 0
    ensures 1 <= score <= 10 ==> h == (score - 1) * 12
    ensures score <= 1 ==> h == 0
    ensures score >= 10 ==> h == 108
  {
    var clamped := Max(1, Min(score, 10));
    (clamped - 1) * 12
  }

  /** A higher score never gets a lower hue, and distinct scores in 1..10 get distinct hues. */
  lemma HueMonotone(a: int, b: int)
    requires a <= b
    ensures Hue(a) <= Hue(b)
    ensures 1 <= a < b <= 10 ==> Hue(a) < Hue(b)
  {
  }

  /** The colour string of getMoodColor. */
  function MoodColor(score: int): string
  {
    "hsl(" + Text.Decimal(Hue(score)) + ", 90%, 70%)"
  }

  /** The hue can be read back from the colour string: it follows "hsl(" as a decimal number. */
  lemma MoodColorShowsHue(score: int)
    ensures |MoodColor(score)| > 4 && MoodColor(score)[..4] == "hsl("
    ensures Text.ParseInt(MoodColor(score)[4..]) == Some(Hue(score))
  {
    var d := Text.Decimal(Hue(score));
    var tail := ", 90%, 70%)";
    assert MoodColor(score) == "hsl(" + (d + tail);
    assert MoodColor(score)[4..] == d + tail;
    Text.ParseIntDecimalThen(Hue(score), tail);
  }

  /** The colour of a day cell: white when the day has no score or a score of 0, otherwise the
      mood colour. */
  function DayColor(score: Option<int>): (c: string)
    ensures score.None? || score == Some(0) ==> c == "#FFFFFF"
    ensures score.Some? && score.value != 0 ==> c == MoodColor(score.value)
  {
    match score
    case None => "#FFFFFF"
    case Some(s) => if s == 0 then "#FFFFFF" else MoodColor(s)
  }

  /** The colour of a day's cell in the grid, looked up in the date-to-score map. */
  function CellColor(moodData: map<string, int>, dateKey: string): (c: string)
    ensures dateKey !in moodData ==> c == "#FFFFFF"
  {
    DayColor(if dateKey in moodData then Some(moodData[dateKey]) else None)
  }

  // ---------------------------------------------------------------- the date-to-score map

  /** The entry gives the date a numeric score. */
  predicate Scored(e: StorageTypes.MoodEntry, date: string)
  {
    e.date == date && e.moodScore.Some?
  }

  /** Position i holds the last entry scoring the date. */
  predicate LastScoredAt(es: seq<StorageTypes.MoodEntry>, date: string, i: int)
  {
    0 <= i < |es| && Scored(es[i], date) && forall j :: i < j < |es| ==> !Scored(es[j], date)
  }

  /** The map the load effect builds: one key per date with a numeric score, later entries
      overwriting earlier ones. */
  function MoodMapOf(es: seq<StorageTypes.MoodEntry>): map<string, int>
  {
    if es == [] then map[]
    else
      var m := MoodMapOf(es[..|es| - 1]);
      var e := es[|es| - 1];
      if e.moodScore.Some? then m[e.date := e.moodScore.value] else m
  }

  /** A date is in the map exactly when some entry scores it, and its value is the score of the
      last such entry. */
  lemma {:induction false} MoodMapOfSpec(es: seq<StorageTypes.MoodEntry>)
    ensures forall date :: date in MoodMapOf(es) <==> exists i :: 0 <= i < |es| && Scored(es[i], date)
    ensures forall date, i :: LastScoredAt(es, date, i) ==> date in MoodMapOf(es) && MoodMapOf(es)[date] == es[i].moodScore.value
  {
    if es != [] {
      var init := es[..|es| - 1];
      var e := es[|es| - 1];
      MoodMapOfSpec(init);
      forall date ensures date in MoodMapOf(es) <==> exists i :: 0 <= i < |es| && Scored(es[i], date) {
        if date in MoodMapOf(es) && !Scored(e, date) {
          assert date in MoodMapOf(init);
          var i :| 0 <= i < |init| && Scored(init[i], date);
          assert es[i] == init[i];
        }
        if exists i :: 0 <= i < |es| && Scored(es[i], date) {
          var i :| 0 <= i < |es| && Scored(es[i], date);
          if i < |init| { assert init[i] == es[i]; }
        }
      }
      forall date, i | LastScoredAt(es, date, i)
        ensures date in MoodMapOf(es) && MoodMapOf(es)[date] == es[i].moodScore.value
      {
        if i < |init| {
          assert init[i] == es[i];
          assert LastScoredAt(init, date, i);
        }
      }
    }
  }

  /** The load effect's forEach. */
  method BuildMoodMap(entries: seq<StorageTypes.MoodEntry>) returns (m: map<string, int>)
    ensures m == MoodMapOf(entries)
  {
    m := map[];
    var i := 0;
    while i < |entries|
      invariant 0 <= i <= |entries|
      invariant m == MoodMapOf(entries[..i])
    {
      var e := entries[i];
      assert entries[..i + 1][..i] == entries[..i];
      if e.moodScore.Some? {
        m := m[e.date := e.moodScore.value];
      }
      i := i + 1;
    }
    assert entries[..i] == entries;
  }

  // ---------------------------------------------------------------- saving a score

  /** A calendar date as the screen's selected day. */
  datatype CivilDate = CivilDate(year: int, month: int, day: int)

  type Day = d: CivilDate | 0 <= d.year <= 9999 && 1 <= d.month <= 12 && 1 <= d.day <= 31
    witness CivilDate(2000, 1, 1)

  /** `format(day, "yyyy-MM-dd")`. */
  function DateKey(d: Day): (key: string)
    ensures StorageTypes.IsDateString(key)
    ensures Text.DigitsValue(key[..4]) == d.year
    ensures Text.DigitsValue(key[5..7]) == d.month
    ensures Text.DigitsValue(key[8..]) == d.day
  {
    var y := Text.PadStart(Text.Decimal(d.year), 4, '0');
    Text.DecimalLength(d.year, 4);
    Text.ZeroPadValue(Text.Decimal(d.year), 4);
    var mm, dd := Text.Pad2(d.month), Text.Pad2(d.day);
    JoinDate(y, mm, dd);
    y + ['-'] + mm + ['-'] + dd
  }

  /** Four, two and two digits joined with dashes make a date string that gives the fields back. */
  lemma JoinDate(y: string, m: string, d: string)
    requires |y| == 4 && |m| == 2 && |d| == 2
    requires Text.AllDigits(y) && Text.AllDigits(m) && Text.AllDigits(d)
    ensures var key := y + ['-'] + m + ['-'] + d;
      StorageTypes.IsDateString(key) && key[..4] == y && key[5..7] == m && key[8..] == d
  {
    var key := y + ['-'] + m + ['-'] + d;
    assert key[..4] == y && key[5..7] == m && key[8..] == d;
  }

  /** handleSaveMood's condition: a day is selected and the text parses to an integer in 1..10. */
  predicate SaveAccepted(selectedDay: Option<Day>, text: string)
  {
    var score := Text.ParseInt(text);
    selectedDay.Some? && score.Some? && 1 <= score.value <= 10
  }

  /** The text of any score 1..10, typed as digits, is accepted for a selected day. */
  lemma TypedScoreAccepted(day: Day, score: nat)
    requires 1 <= score <= 10
    ensures SaveAccepted(Some(day), Text.Decimal(score))
    ensures Text.ParseInt(Text.Decimal(score)) == Some(score)
  {
    Text.ParseIntDecimal(score);
  }

  /** The calendar screen's state. */
  class MoodCalendar {
    var modalVisible: bool
    var mood: string
    var selectedDay: Option<Day>
    var moodData: map<string, int>

    constructor ()
      ensures !modalVisible && mood == "" && selectedDay.None? && moodData == map[]
    {
      modalVisible, mood, selectedDay, moodData := false, "", None, map[];
    }

    /** The load effect: the map built from every stored entry replaces the screen's map; a
        failed read is logged and changes nothing. */
    method Load(store: MoodStorage.MoodStore, readOk: bool)
      modifies this
      ensures readOk ==> moodData == MoodMapOf(store.AllEntries())
      ensures !readOk ==> moodData == old(moodData)
      ensures modalVisible == old(modalVisible) && mood == old(mood) && selectedDay == old(selectedDay)
    {
      if readOk {
        var m := BuildMoodMap(store.AllEntries());
        moodData := m;
      }
    }

    /** handleDayPress: selects the day and opens the modal. */
    method HandleDayPress(day: Day)
      modifies this
      ensures selectedDay == Some(day) && modalVisible
      ensures mood == old(mood) && moodData == old(moodData)
    {
      selectedDay := Some(day);
      modalVisible := true;
    }

    /** The accepted branch of handleSaveMood: the score goes to storage for the key, and once
        that write succeeds, into the map. */
    method RecordScore(store: MoodStorage.MoodStore, key: string, v: int, freshId: string, now: string)
      returns (e: StorageTypes.MoodEntry)
      requires 1 <= v <= 10
      modifies this, store
      ensures e == MoodStorage.NewMoodEntry(old(store.AllEntries()), key, Finite(v as real), None, None, freshId, now)
      ensures store.blob == Some(MoodStorage.Upserted(old(store.AllEntries()), e))
      ensures moodData == old(moodData)[key := v]
      ensures modalVisible == old(modalVisible) && mood == old(mood) && selectedDay == old(selectedDay)
      ensures store.lastMoodDate == Some(key)
      ensures MoodStorage.EntryByDate(store.AllEntries(), key) == Some(e) && e.moodScore == Some(v)
      ensures forall d :: d != key ==>
                MoodStorage.EntryByDate(store.AllEntries(), d) == MoodStorage.EntryByDate(old(store.AllEntries()), d)
    {
      e := store.SetMoodForDate(key, Finite(v as real), None, None, freshId, now);
      MoodStorage.NormalizeKeepsValidScore(v);
      forall d | d != key
        ensures MoodStorage.EntryByDate(store.AllEntries(), d) == MoodStorage.EntryByDate(old(store.AllEntries()), d)
      {
        MoodStorage.UpsertedKeepsOtherDates(old(store.AllEntries()), e, d);
      }
      moodData := moodData[key := v];
    }

    /** handleSaveMood: with a selected day and a score 1..10, writes the score for the day's key
        and, once the write succeeds, records it in the map; in every case the modal closes and
        the text is cleared. */
    method HandleSaveMood(store: MoodStorage.MoodStore, writeOk: bool, freshId: string, now: string)
      returns (saved: bool)
      modifies this, store
      ensures saved <==> SaveAccepted(old(selectedDay), old(mood)) && writeOk
      ensures !modalVisible && mood == "" && selectedDay == old(selectedDay)
      ensures saved ==>
        var key := DateKey(old(selectedDay).value);
        var score := Text.ParseInt(old(mood)).value;
        && moodData == old(moodData)[key := score]
        && store.lastMoodDate == Some(key)
        && MoodStorage.EntryByDate(store.AllEntries(), key).Some?
        && MoodStorage.EntryByDate(store.AllEntries(), key).value.moodScore == Some(score)
        && forall d :: d != key ==>
             MoodStorage.EntryByDate(store.AllEntries(), d) == MoodStorage.EntryByDate(old(store.AllEntries()), d)
      ensures !saved ==> moodData == old(moodData) && store.blob == old(store.blob)
                         && store.lastMoodDate == old(store.lastMoodDate)
    {
      saved := false;
      var moodScore := Text.ParseInt(mood);
      if selectedDay.Some? && moodScore.Some? && 1 <= moodScore.value <= 10 && writeOk {
        var _ := RecordScore(store, DateKey(selectedDay.value), moodScore.value, freshId, now);
        saved := true;
      }
      modalVisible := false;
      mood := "";
    }
  }
}
