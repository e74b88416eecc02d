/** The daily mood store (app/services/moodStorage.ts): one list of mood entries under the MOODS key,
    at most one per date, plus the LAST_MOOD_DATE key. */
module MoodStorage {
  import opened Common
  import opened StorageTypes
  import Text
  import Seqs

  predicate HasDate(es: seq<MoodEntry>, date: string)
  {
    exists i :: 0 <= i < |es| && es[i].date == date
  }

  /** One entry per date. */
  predicate UniqueDates(es: seq<MoodEntry>)
  {
    forall i, j :: 0 <= i < j < |es| ==> es[i].date != es[j].date
  }

  /** Every entry carries a numeric score in 1..10. */
  predicate ScoresInRange(es: seq<MoodEntry>)
  {
    forall i :: 0 <= i < |es| ==> es[i].moodScore.Some? && 1 <= es[i].moodScore.value <= 10
  }

  // ---------------------------------------------------------------- score normalisation

  /** `Math.min(10, Math.max(1, Math.round(Number(moodScore) || 1)))`: NaN and 0 fall back to 1,
      finite values are rounded to the nearest integer and clamped to 1..10. */
  function NormalizeScore(n: Num): (s: int)
    ensures 1 <= s <= 10
    ensures n.NaN? || n == Finite(0.0) || n.NegInf? ==> s == 1
    ensures n.PosInf? ==> s == 10
    ensures n.Finite? && n.r < 0.5 ==> s == 1
    ensures n.Finite? && n.r >= 10.5 ==> s == 10
    ensures n.Finite? && 0.5 <= n.r < 10.5 ==> (s as real) - 0.5 <= n.r < (s as real) + 0.5
  {
    match n
    case NaN => 1
    case PosInf => 10
    case NegInf => 1
    case Finite(r) => if r == 0.0 then 1 else Min(10, Max(1, Round(r)))
  }

  /** A score that is already a whole number in 1..10 is stored unchanged. */
  lemma NormalizeKeepsValidScore(k: int)
    requires 1 <= k <= 10
    ensures NormalizeScore(Finite(k as real)) == k
  {
  }

  // ---------------------------------------------------------------- queries

  /** getEntryByDate: the first entry for the date, or null. */
  function EntryByDate(es: seq<MoodEntry>, date: string): (r: Option<MoodEntry>)
    ensures r.None? <==> !HasDate(es, date)
    ensures r.Some? ==> r.value.date == date && exists i :: FirstWithDate(es, date, i) && es[i] == r.value
  {
    Seqs.Find(es, (e: MoodEntry) => e.date == date)
  }

  /** Position i holds the first entry for the date. */
  predicate FirstWithDate(es: seq<MoodEntry>, date: string, i: int)
  {
    0 <= i < |es| && es[i].date == date && forall j :: 0 <= j < i ==> es[j].date != date
  }

  /** startDate <= date <= endDate, comparing the date strings. */
  predicate InRange(e: MoodEntry, startDate: string, endDate: string)
  {
    Text.StrLe(startDate, e.date) && Text.StrLe(e.date, endDate)
  }

  /** getEntriesByDateRange. */
  function EntriesInRange(es: seq<MoodEntry>, startDate: string, endDate: string): (r: seq<MoodEntry>)
    ensures Seqs.IsSubsequence(r, es)
    ensures forall i :: 0 <= i < |r| ==> InRange(r[i], startDate, endDate)
    ensures forall i :: 0 <= i < |es| && InRange(es[i], startDate, endDate) ==> es[i] in r
  {
    Seqs.Filter(es, (e: MoodEntry) => InRange(e, startDate, endDate))
  }

  /** The reduce of getMoodStats: numeric scores are added, anything else counts 0. */
  function ScoreSum(es: seq<MoodEntry>): int
  {
    if es == [] then 0 else ScoreSum(es[..|es| - 1]) + es[|es| - 1].moodScore.GetOr(0)
  }

  /** Scores in 1..10 add up to between n and 10n. */
  lemma {:induction false} ScoreSumBounds(es: seq<MoodEntry>)
    requires ScoresInRange(es)
    ensures |es| <= ScoreSum(es) <= 10 * |es|
  {
    if es != [] {
      ScoreSumBounds(es[..|es| - 1]);
    }
  }

  datatype MoodStats = MoodStats(totalEntries: nat, averageMood: real)

  /** getMoodStats: the number of entries in range and their average score, rounded to one decimal. */
  function GetMoodStats(es: seq<MoodEntry>, startDate: string, endDate: string): (st: MoodStats)
    ensures st.totalEntries == |EntriesInRange(es, startDate, endDate)|
    ensures st.totalEntries == 0 ==> st.averageMood == 0.0
  {
    var inRange := EntriesInRange(es, startDate, endDate);
    var average := if |inRange| > 0 then (ScoreSum(inRange) as real) / (|inRange| as real) else 0.0;
    MoodStats(|inRange|, (Round(average * 10.0) as real) / 10.0)
  }

  /** When every stored score is in 1..10, a non-empty range averages to a value in 1..10. */
  lemma MoodStatsAverageInRange(es: seq<MoodEntry>, startDate: string, endDate: string)
    requires ScoresInRange(es)
    requires GetMoodStats(es, startDate, endDate).totalEntries > 0
    ensures 1.0 <= GetMoodStats(es, startDate, endDate).averageMood <= 10.0
  {
    var inRange := EntriesInRange(es, startDate, endDate);
    assert ScoresInRange(inRange) by {
      forall i | 0 <= i < |inRange|
        ensures inRange[i].moodScore.Some? && 1 <= inRange[i].moodScore.value <= 10
      {
        var j :| 0 <= j < |es| && es[j] == inRange[i];
      }
    }
    ScoreSumBounds(inRange);
    RoundedAverageInRange(ScoreSum(inRange), |inRange|);
  }

  /** A sum between n and 10n averages, after rounding to one decimal, to a value in 1..10. */
  lemma RoundedAverageInRange(sum: int, n: int)
    requires 0 < n && n <= sum <= 10 * n
    ensures var average := (sum as real) / (n as real);
      1.0 <= (Round(average * 10.0) as real) / 10.0 <= 10.0
  {
    var nr := n as real;
    var average := (sum as real) / nr;
    QuotientAtLeast(sum as real, nr, 1.0);
    QuotientAtMost(sum as real, nr, 10.0);
    var k := Round(average * 10.0);
    assert 10 <= k <= 100;
  }

  /** getMoodTrends once its range is fixed: the entries in range sorted by date, ascending. */
  function MoodTrends(es: seq<MoodEntry>, startDate: string, endDate: string): (r: seq<MoodEntry>)
    ensures multiset(r) == multiset(EntriesInRange(es, startDate, endDate))
    ensures forall i, j :: 0 <= i < j < |r| ==> Text.StrLe(r[i].date, r[j].date)
    ensures forall i :: 0 <= i < |r| ==> InRange(r[i], startDate, endDate)
  {
    var inRange := EntriesInRange(es, startDate, endDate);
    var r := Seqs.SortBy(inRange, (e: MoodEntry) => e.date, Seqs.Ascending);
    forall i | 0 <= i < |r| ensures InRange(r[i], startDate, endDate) {
      assert r[i] in multiset(inRange);
    }
    r
  }

  // ---------------------------------------------------------------- the new lists

  /** The entry setMoodForDate writes: the existing entry's id and createdAt when the date is
      already stored, a fresh id and the current time otherwise; score, notes and activities are
      always the new ones. */
  function NewMoodEntry(es: seq<MoodEntry>, date: string, moodScore: Num, notes: Option<string>,
                        activities: Option<seq<string>>, freshId: string, now: string): (e: MoodEntry)
    ensures e.date == date && e.moodScore == Some(NormalizeScore(moodScore))
    ensures e.notes == notes && e.activities == activities
    ensures HasDate(es, date) ==>
              (exists k :: FirstWithDate(es, date, k) && e.id == es[k].id && e.createdAt == es[k].createdAt)
    ensures !HasDate(es, date) ==> e.id == freshId && e.createdAt == now
  {
    var score := Some(NormalizeScore(moodScore));
    match Seqs.FindIndex(es, (x: MoodEntry) => x.date == date)
    case Some(k) => MoodEntry(es[k].id, date, score, notes, activities, es[k].createdAt)
    case None => MoodEntry(freshId, date, score, notes, activities, now)
  }

  /** The list setMoodForDate saves: the first entry with the same date replaced, or e appended. */
  function Upserted(es: seq<MoodEntry>, e: MoodEntry): seq<MoodEntry>
  {
    match Seqs.FindIndex(es, (x: MoodEntry) => x.date == e.date)
    case Some(k) => es[k := e]
    case None => es + [e]
  }

  /** An upsert grows the list by one for a new date and keeps its length otherwise; entries for
      other dates keep their place. */
  lemma UpsertedShape(es: seq<MoodEntry>, e: MoodEntry)
    ensures var r := Upserted(es, e);
      && (HasDate(es, e.date) ==> |r| == |es|)
      && (!HasDate(es, e.date) ==> |r| == |es| + 1 && r[|es|] == e)
      && (forall i :: 0 <= i < |es| && es[i].date != e.date ==> r[i] == es[i])
  {
  }

  /** After an upsert the date's entry is the new one. */
  lemma UpsertedFinds(es: seq<MoodEntry>, e: MoodEntry)
    ensures EntryByDate(Upserted(es, e), e.date) == Some(e)
  {
    var r := Upserted(es, e);
    var k := match Seqs.FindIndex(es, (x: MoodEntry) => x.date == e.date) case Some(k) => k case None => |es|;
    assert FirstWithDate(r, e.date, k) && r[k] == e;
    var i :| FirstWithDate(r, e.date, i) && r[i] == EntryByDate(r, e.date).value;
    FirstWithDateUnique(r, e.date, i, k);
  }

  /** An upsert changes no other date's entry: looking up any other date finds what it found before. */
  lemma UpsertedKeepsOtherDates(es: seq<MoodEntry>, e: MoodEntry, date: string)
    requires date != e.date
    ensures EntryByDate(Upserted(es, e), date) == EntryByDate(es, date)
  {
    var r := Upserted(es, e);
    if HasDate(es, date) {
      var found := EntryByDate(es, date);
      assert found.Some?;
      var i :| FirstWithDate(es, date, i) && es[i] == found.value;
      EntryByDateAt(es, date, i);
      UpsertedKeepsFirst(es, e, date, i);
      EntryByDateAt(r, date, i);
    } else {
      UpsertedShape(es, e);
      assert !HasDate(r, date);
    }
  }

  /** The first entry for another date keeps its place and its value through an upsert. */
  lemma UpsertedKeepsFirst(es: seq<MoodEntry>, e: MoodEntry, date: string, i: int)
    requires date != e.date && FirstWithDate(es, date, i)
    ensures FirstWithDate(Upserted(es, e), date, i) && Upserted(es, e)[i] == es[i]
  {
    UpsertedShape(es, e);
  }

  /** The entry found for a date is the one at its first position. */
  lemma EntryByDateAt(es: seq<MoodEntry>, date: string, i: int)
    requires FirstWithDate(es, date, i)
    ensures EntryByDate(es, date) == Some(es[i])
  {
    var j :| FirstWithDate(es, date, j) && es[j] == EntryByDate(es, date).value;
    FirstWithDateUnique(es, date, i, j);
  }

  lemma FirstWithDateUnique(es: seq<MoodEntry>, date: string, i: int, k: int)
    requires FirstWithDate(es, date, i) && FirstWithDate(es, date, k)
    ensures i == k
  {
  }

  /** An upsert keeps one entry per date and keeps every score in range. */
  lemma UpsertedKeepsInvariant(es: seq<MoodEntry>, e: MoodEntry)
    requires UniqueDates(es)
    ensures UniqueDates(Upserted(es, e))
    ensures ScoresInRange(es) && e.moodScore.Some? && 1 <= e.moodScore.value <= 10
            ==> ScoresInRange(Upserted(es, e))
  {
    var r := Upserted(es, e);
    if !HasDate(es, e.date) {
      assert forall i :: 0 <= i < |es| ==> r[i] == es[i];
    }
  }

  /** The list deleteEntry saves. */
  function WithoutDate(es: seq<MoodEntry>, date: string): (r: seq<MoodEntry>)
    ensures Seqs.IsSubsequence(r, es)
    ensures !HasDate(r, date)
    ensures forall i :: 0 <= i < |es| && es[i].date != date ==> es[i] in r
  {
    Seqs.Filter(es, (e: MoodEntry) => e.date != date)
  }

  lemma WithoutDateShrinksIff(es: seq<MoodEntry>, date: string)
    ensures |WithoutDate(es, date)| < |es| <==> HasDate(es, date)
  {
    Seqs.FilterKeepsAll(es, (e: MoodEntry) => e.date != date);
  }

  // ---------------------------------------------------------------- the store

  /** The mood store: `blob` is the list under MOODS, `lastMoodDate` the value under
      LAST_MOOD_DATE (None when nothing has been saved). */
  class MoodStore {
    var blob: Option<seq<MoodEntry>>
    var lastMoodDate: Option<string>

    constructor ()
      ensures blob.None? && lastMoodDate.None?
    {
      blob := None;
      lastMoodDate := None;
    }

    /** getAllEntries: the saved list, or an empty one when nothing is stored. */
    function AllEntries(): (r: seq<MoodEntry>)
      reads this
      ensures blob.None? ==> r == []
      ensures blob.Some? ==> r == blob.value
    {
      blob.GetOr([])
    }

    /** setMoodForDate: replaces the date's entry in place or appends a new one, then records the
        date under LAST_MOOD_DATE. */
    method SetMoodForDate(date: string, moodScore: Num, notes: Option<string>, activities: Option<seq<string>>,
                          freshId: string, now: string) returns (e: MoodEntry)
      modifies this
      ensures e == NewMoodEntry(old(AllEntries()), date, moodScore, notes, activities, freshId, now)
      ensures blob == Some(Upserted(old(AllEntries()), e))
      ensures lastMoodDate == Some(date)
      ensures EntryByDate(AllEntries(), date) == Some(e)
      ensures UniqueDates(old(AllEntries())) ==> UniqueDates(AllEntries())
    {
      var entries := AllEntries();
      var existingIndex := Seqs.FindIndex(entries, (x: MoodEntry) => x.date == date);
      var normalizedScore := NormalizeScore(moodScore);
      if existingIndex.Some? {
        var k := existingIndex.value;
        e := MoodEntry(entries[k].id, date, Some(normalizedScore), notes, activities, entries[k].createdAt);
        entries := entries[k := e];
      } else {
        e := MoodEntry(freshId, date, Some(normalizedScore), notes, activities, now);
        entries := entries + [e];
      }
      blob := Some(entries);
      lastMoodDate := Some(date);
      UpsertedFinds(old(AllEntries()), e);
      if UniqueDates(old(AllEntries())) {
        UpsertedKeepsInvariant(old(AllEntries()), e);
      }
    }

    /** deleteEntry: false and nothing saved when no entry has the date; otherwise every entry for
        the date is removed. */
    method DeleteEntry(date: string) returns (deleted: bool)
      modifies this
      ensures deleted <==> HasDate(old(AllEntries()), date)
      ensures deleted ==> blob == Some(WithoutDate(old(AllEntries()), date))
      ensures !deleted ==> blob == old(blob)
      ensures lastMoodDate == old(lastMoodDate)
    {
      var entries := AllEntries();
      var filtered := Seqs.Filter(entries, (e: MoodEntry) => e.date != date);
      WithoutDateShrinksIff(entries, date);
      if |filtered| == |entries| {
        return false;
      }
      blob := Some(filtered);
      return true;
    }
  }
}
