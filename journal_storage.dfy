/** The journal store (app/services/journalStorage.ts): one list of journal entries under the
    JOURNALS key, rewritten as a whole by every change. */
module JournalStorage {
  import opened Common
  import opened StorageTypes
  import Text
  import Seqs

  /** What createEntry receives: an entry without id and createdAt. */
  datatype JournalDraft = JournalDraft(
    updatedAt: Option<string>,
    text: Option<string>,
    voiceUri: Option<string>,
    voiceDuration: Option<int>,
    mood: Option<MoodLevel>,
    moodScore: Option<real>,
    tags: Option<seq<string>>)

  /** A `Partial<JournalEntry>` for updateEntry: each present field overrides the stored one. */
  datatype JournalPatch = JournalPatch(
    id: Option<string>,
    createdAt: Option<string>,
    text: Option<string>,
    voiceUri: Option<string>,
    voiceDuration: Option<int>,
    mood: Option<MoodLevel>,
    moodScore: Option<real>,
    tags: Option<seq<string>>)

  predicate HasId(es: seq<JournalEntry>, id: string)
  {
    exists i :: 0 <= i < |es| && es[i].id == id
  }

  predicate UniqueIds(es: seq<JournalEntry>)
  {
    forall i, j :: 0 <= i < j < |es| ==> es[i].id != es[j].id
  }

  /** Every entry's mood score, when present, lies in 1..10. */
  predicate ScoresInRange(es: seq<JournalEntry>)
  {
    forall i :: 0 <= i < |es| ==> ScoreInRange(es[i].moodScore)
  }

  // ---------------------------------------------------------------- queries

  /** getEntry: the first entry with the id, or null. */
  function GetEntry(es: seq<JournalEntry>, id: string): (r: Option<JournalEntry>)
    ensures r.None? <==> !HasId(es, id)
    ensures r.Some? ==> r.value.id == id && r.value in es
    ensures r.Some? ==> exists i :: 0 <= i < |es| && es[i] == r.value && forall j :: 0 <= j < i ==> es[j].id != id
  {
    Seqs.Find(es, (e: JournalEntry) => e.id == id)
  }

  /** The calendar date of an entry: its createdAt text before the first 'T'. */
  function EntryDate(e: JournalEntry): string
  {
    Text.UpToFirst(e.createdAt, 'T')
  }

  predicate InRange(e: JournalEntry, startDate: string, endDate: string)
  {
    Text.StrLe(startDate, EntryDate(e)) && Text.StrLe(EntryDate(e), endDate)
  }

  /** getEntriesByDateRange. */
  function EntriesInRange(es: seq<JournalEntry>, startDate: string, endDate: string): (r: seq<JournalEntry>)
    ensures Seqs.IsSubsequence(r, es)
    ensures forall i :: 0 <= i < |r| ==> InRange(r[i], startDate, endDate)
    ensures forall i :: 0 <= i < |es| && InRange(es[i], startDate, endDate) ==> es[i] in r
  {
    Seqs.Filter(es, (e: JournalEntry) => InRange(e, startDate, endDate))
  }

  /** An ISO timestamp's date part is its first ten characters. */
  lemma EntryDateOfIsoTimestamp(e: JournalEntry, day: string, time: string)
    requires IsDateString(day) && e.createdAt == day + ['T'] + time
    ensures EntryDate(e) == day
  {
    assert 'T' !in day by {
      forall i | 0 <= i < |day| ensures day[i] != 'T' {
        if i < 4 { assert day[..4][i] == day[i]; }
        else if 5 <= i < 7 { assert day[5..7][i - 5] == day[i]; }
        else if 8 <= i { assert day[8..][i - 8] == day[i]; }
      }
    }
    assert e.createdAt[|day|] == 'T';
    assert e.createdAt[..|day|] == day;
  }

  /** getEntriesByMood. */
  function EntriesByMood(es: seq<JournalEntry>, mood: MoodLevel): (r: seq<JournalEntry>)
    ensures Seqs.IsSubsequence(r, es)
    ensures forall i :: 0 <= i < |r| ==> r[i].mood == Some(mood)
    ensures forall i :: 0 <= i < |es| && es[i].mood == Some(mood) ==> es[i] in r
  {
    Seqs.Filter(es, (e: JournalEntry) => e.mood == Some(mood))
  }

  /** getEntriesWithVoice. */
  function EntriesWithVoice(es: seq<JournalEntry>): (r: seq<JournalEntry>)
    ensures Seqs.IsSubsequence(r, es)
    ensures forall i :: 0 <= i < |r| ==> r[i].voiceUri.Some?
    ensures forall i :: 0 <= i < |es| && es[i].voiceUri.Some? ==> es[i] in r
  {
    Seqs.Filter(es, (e: JournalEntry) => e.voiceUri.Some?)
  }

  predicate HasTag(e: JournalEntry, tag: string)
  {
    e.tags.Some? && tag in e.tags.value
  }

  /** getEntriesByTag. */
  function EntriesByTag(es: seq<JournalEntry>, tag: string): (r: seq<JournalEntry>)
    ensures Seqs.IsSubsequence(r, es)
    ensures forall i :: 0 <= i < |r| ==> HasTag(r[i], tag)
    ensures forall i :: 0 <= i < |es| && HasTag(es[i], tag) ==> es[i] in r
  {
    Seqs.Filter(es, (e: JournalEntry) => HasTag(e, tag))
  }

  /** The filter of searchEntries: the lower-cased term occurs in the lower-cased text or in
      some lower-cased tag. */
  predicate MatchesSearch(e: JournalEntry, term: string)
  {
    || (e.text.Some? && Text.Includes(Text.ToLower(e.text.value), term))
    || (e.tags.Some? && exists i :: 0 <= i < |e.tags.value| && Text.Includes(Text.ToLower(e.tags.value[i]), term))
  }

  /** searchEntries. */
  function SearchEntries(es: seq<JournalEntry>, searchTerm: string): (r: seq<JournalEntry>)
    ensures Seqs.IsSubsequence(r, es)
    ensures forall i :: 0 <= i < |r| ==> MatchesSearch(r[i], Text.ToLower(searchTerm))
    ensures forall i :: 0 <= i < |es| && MatchesSearch(es[i], Text.ToLower(searchTerm)) ==> es[i] in r
  {
    var term := Text.ToLower(searchTerm);
    Seqs.Filter(es, (e: JournalEntry) => MatchesSearch(e, term))
  }

  /** Searching ignores the case of the term. */
  lemma SearchIgnoresTermCase(es: seq<JournalEntry>, searchTerm: string)
    ensures SearchEntries(es, Text.ToLower(searchTerm)) == SearchEntries(es, searchTerm)
  {
    Text.ToLowerIdempotent(searchTerm);
  }

  /** The end index `slice(0, end)` stops at: negative ends count from the back. */
  function SliceEnd(length: nat, end: int): (k: nat)
    ensures k <= length
    ensures end >= 0 ==> k == Min(end, length)
    ensures end < 0 ==> k == Max(length + end, 0)
  {
    if end < 0 then (if length + end < 0 then 0 else length + end)
    else if end < length then end else length
  }

  /** getRecentEntries: the entries newest first (by createdAt), then `slice(0, limit)`. */
  function RecentEntries(es: seq<JournalEntry>, limit: int): (r: seq<JournalEntry>)
    ensures |r| == SliceEnd(|es|, limit)
    ensures forall i, j :: 0 <= i < j < |r| ==> Text.StrLe(r[j].createdAt, r[i].createdAt)
    ensures multiset(r) <= multiset(es)
    ensures forall i, e :: 0 <= i < |r| && e in multiset(es) - multiset(r) ==> Text.StrLe(e.createdAt, r[i].createdAt)
  {
    var sorted := Seqs.SortBy(es, (e: JournalEntry) => e.createdAt, Seqs.Descending);
    var k := SliceEnd(|sorted|, limit);
    assert sorted == sorted[..k] + sorted[k..];
    Seqs.PrefixComesFirst(sorted, k, (e: JournalEntry) => e.createdAt, Seqs.Descending);
    sorted[..k]
  }

  /** With a limit of at least the number of entries, every entry is returned. */
  lemma RecentEntriesAll(es: seq<JournalEntry>, limit: int)
    requires limit >= |es|
    ensures multiset(RecentEntries(es, limit)) == multiset(es)
  {
    var sorted := Seqs.SortBy(es, (e: JournalEntry) => e.createdAt, Seqs.Descending);
    assert sorted[..|sorted|] == sorted;
  }

  // ---------------------------------------------------------------- the new lists

  /** The record createEntry builds. */
  function NewEntry(draft: JournalDraft, id: string, now: string): (e: JournalEntry)
    ensures e.id == id && e.createdAt == now
    ensures e.text == draft.text && e.voiceUri == draft.voiceUri && e.tags == draft.tags
    ensures e.updatedAt == draft.updatedAt && e.voiceDuration == draft.voiceDuration
    ensures e.mood == draft.mood && e.moodScore == draft.moodScore
  {
    JournalEntry(id, now, draft.updatedAt, draft.text, draft.voiceUri, draft.voiceDuration,
                 draft.mood, draft.moodScore, draft.tags)
  }

  /** The entry updateEntry writes: the old fields, overridden by those present in the patch, with
      a new updatedAt. */
  function Merge(e: JournalEntry, patch: JournalPatch, now: string): (m: JournalEntry)
    ensures m.updatedAt == Some(now)
    ensures patch.id.None? ==> m.id == e.id
    ensures patch.id.Some? ==> m.id == patch.id.value
    ensures patch.createdAt.None? ==> m.createdAt == e.createdAt
    ensures patch.createdAt.Some? ==> m.createdAt == patch.createdAt.value
    ensures patch.text.None? ==> m.text == e.text
    ensures patch.text.Some? ==> m.text == patch.text
    ensures patch.voiceUri.None? ==> m.voiceUri == e.voiceUri
    ensures patch.voiceUri.Some? ==> m.voiceUri == patch.voiceUri
    ensures patch.voiceDuration.None? ==> m.voiceDuration == e.voiceDuration
    ensures patch.voiceDuration.Some? ==> m.voiceDuration == patch.voiceDuration
    ensures patch.mood.None? ==> m.mood == e.mood
    ensures patch.mood.Some? ==> m.mood == patch.mood
    ensures patch.moodScore.None? ==> m.moodScore == e.moodScore
    ensures patch.moodScore.Some? ==> m.moodScore == patch.moodScore
    ensures patch.tags.None? ==> m.tags == e.tags
    ensures patch.tags.Some? ==> m.tags == patch.tags
  {
    JournalEntry(
      patch.id.GetOr(e.id),
      patch.createdAt.GetOr(e.createdAt),
      Some(now),
      Override(patch.text, e.text),
      Override(patch.voiceUri, e.voiceUri),
      Override(patch.voiceDuration, e.voiceDuration),
      Override(patch.mood, e.mood),
      Override(patch.moodScore, e.moodScore),
      Override(patch.tags, e.tags))
  }

  /** A patch whose score is in range keeps the entry's score in range. */
  lemma MergeKeepsScoreInRange(e: JournalEntry, patch: JournalPatch, now: string)
    requires ScoreInRange(e.moodScore) && ScoreInRange(patch.moodScore)
    ensures ScoreInRange(Merge(e, patch, now).moodScore)
  {
  }

  /** Replacing one entry by its merge with an in-range patch keeps every score in range. */
  lemma UpdateKeepsScoresInRange(es: seq<JournalEntry>, k: nat, patch: JournalPatch, now: string)
    requires ScoresInRange(es) && k < |es| && ScoreInRange(patch.moodScore)
    ensures ScoresInRange(es[k := Merge(es[k], patch, now)])
  {
    MergeKeepsScoreInRange(es[k], patch, now);
  }

  /** An empty patch only renews updatedAt. */
  lemma MergeEmptyPatch(e: JournalEntry, now: string)
    ensures Merge(e, JournalPatch(None, None, None, None, None, None, None, None), now) == e.(updatedAt := Some(now))
  {
  }

  /** The list deleteEntry saves. */
  function WithoutId(es: seq<JournalEntry>, id: string): (r: seq<JournalEntry>)
    ensures Seqs.IsSubsequence(r, es)
    ensures !HasId(r, id)
    ensures forall i :: 0 <= i < |es| && es[i].id != id ==> es[i] in r
  {
    Seqs.Filter(es, (e: JournalEntry) => e.id != id)
  }

  lemma WithoutIdShrinksIff(es: seq<JournalEntry>, id: string)
    ensures |WithoutId(es, id)| < |es| <==> HasId(es, id)
  {
    Seqs.FilterKeepsAll(es, (e: JournalEntry) => e.id != id);
  }

  /** Appending an entry with a fresh id keeps ids unique. */
  lemma AppendKeepsUniqueIds(es: seq<JournalEntry>, e: JournalEntry)
    requires UniqueIds(es) && !HasId(es, e.id)
    ensures UniqueIds(es + [e])
  {
    var r := es + [e];
    assert forall i :: 0 <= i < |es| ==> r[i] == es[i];
  }

  /** Updating in place with a patch that leaves the id alone keeps ids unique. */
  lemma MergeKeepsUniqueIds(es: seq<JournalEntry>, k: nat, patch: JournalPatch, now: string)
    requires UniqueIds(es) && k < |es| && patch.id.None?
    ensures UniqueIds(es[k := Merge(es[k], patch, now)])
  {
  }

  // ---------------------------------------------------------------- the store

  /** The journal store: `blob` is what is saved under JOURNALS (None when nothing has been saved). */
  class JournalStore {
    var blob: Option<seq<JournalEntry>>

    constructor ()
      ensures blob.None?
    {
      blob := None;
    }

    /** getAllEntries: the saved list, or an empty one when nothing is stored. */
    function AllEntries(): (r: seq<JournalEntry>)
      reads this
      ensures blob.None? ==> r == []
      ensures blob.Some? ==> r == blob.value
    {
      blob.GetOr([])
    }

    /** createEntry: appends one entry with the fresh id and the current time. */
    method CreateEntry(draft: JournalDraft, freshId: string, now: string) returns (e: JournalEntry)
      modifies this
      ensures e == NewEntry(draft, freshId, now)
      ensures blob == Some(old(AllEntries()) + [e])
      ensures UniqueIds(old(AllEntries())) && !HasId(old(AllEntries()), freshId) ==> UniqueIds(AllEntries())
      ensures ScoresInRange(old(AllEntries())) && ScoreInRange(draft.moodScore) ==> ScoresInRange(AllEntries())
    {
      e := NewEntry(draft, freshId, now);
      var entries := AllEntries();
      entries := entries + [e];
      blob := Some(entries);
      if UniqueIds(old(AllEntries())) && !HasId(old(AllEntries()), freshId) {
        AppendKeepsUniqueIds(old(AllEntries()), e);
      }
    }

    /** updateEntry: null and nothing saved for an unknown id; otherwise the first entry with the
        id is merged with the patch and stamped, and no other entry changes. */
    method UpdateEntry(id: string, patch: JournalPatch, now: string) returns (r: Option<JournalEntry>)
      modifies this
      ensures r.None? <==> !HasId(old(AllEntries()), id)
      ensures r.None? ==> blob == old(blob)
      ensures r.Some? ==> exists k :: 0 <= k < |old(AllEntries())| && old(AllEntries())[k].id == id
                            && (forall j :: 0 <= j < k ==> old(AllEntries())[j].id != id)
                            && r.value == Merge(old(AllEntries())[k], patch, now)
                            && blob == Some(old(AllEntries())[k := r.value])
      ensures ScoresInRange(old(AllEntries())) && ScoreInRange(patch.moodScore) ==> ScoresInRange(AllEntries())
    {
      var entries := AllEntries();
      var index := Seqs.FindIndex(entries, (e: JournalEntry) => e.id == id);
      if index.None? {
        return None;
      }
      var k := index.value;
      if ScoresInRange(entries) && ScoreInRange(patch.moodScore) {
        UpdateKeepsScoresInRange(entries, k, patch, now);
      }
      entries := entries[k := Merge(entries[k], patch, now)];
      blob := Some(entries);
      r := Some(entries[k]);
    }

    /** deleteEntry: false and nothing saved when no entry has the id; otherwise every entry with
        the id is removed. */
    method DeleteEntry(id: string) returns (deleted: bool)
      modifies this
      ensures deleted <==> HasId(old(AllEntries()), id)
      ensures deleted ==> blob == Some(WithoutId(old(AllEntries()), id))
      ensures !deleted ==> blob == old(blob)
    {
      var entries := AllEntries();
      var filtered := Seqs.Filter(entries, (e: JournalEntry) => e.id != id);
      WithoutIdShrinksIff(entries, id);
      if |filtered| == |entries| {
        return false;
      }
      blob := Some(filtered);
      return true;
    }
  }
}
