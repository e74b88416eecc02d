# Serenify in Dafny

A model of the logic of Serenify, a React Native mental-health app:

- **Three local record stores.** Emergency contacts, daily mood entries and journal entries are each one list saved under one storage key and rewritten whole.
- **Two state machines.** The deep-breathing exercise and the voice recorder.
- **The screens' validators and handlers.** Sign-up, log-in, adding a contact, the emergency screen, the mood calendar and the AI-psychiatrist chat.
- **Two server routes.** Chat with the model, and audio-journal transcription with a mood score.

Each source file becomes one Dafny module:

- **Imperative code becomes classes.** This covers the stores, the recorder, the breathing panel and the screens' state. Methods carry `modifies this` and state the whole new state.
- **Pure code becomes functions and lemmas.** This covers the queries, the mappings, the guard chains and the routes.
- **Shared helpers are separate modules:**
  - `Common`: Option, JavaScript numbers and rounding.
  - `Text`: the JavaScript string operations (trim, lower-casing, includes, split, padStart, parseInt, UTF-16 length).
  - `Seqs`: findIndex, find, filter and a sort by key.

**How the stores are modelled.** A store's `blob` field is what is saved under its key; `None` means nothing is saved. `AllContacts`/`AllEntries` is what `getAll…` loads: the list, or an empty one.

**What stands in for outside effects.** The following become parameters giving their outcome:

- ids and timestamps;
- the outcome of a storage write;
- the audio library's replies;
- the model's answers;
- `JSON.parse`.

**Quirks the model keeps as the code has them:**

- A mood entry carries `moodScore`, which is what `setMoodForDate` writes, although the declared type names a `mood` field.
- The mood hue tops out at 108°, not the 120° its comment states.
- The contacts store appends a new contact, but the emergency screen puts it first in its own list (`EmergencyScreen.PrependDiffersFromAppend`).
- `updateContact` with `isPrimary` clears the other primaries even when the id turns out to be absent.

**Order.** `Text.StrLe`, the lexicographic order on characters, is what `<=` on ISO date strings computes. It also stands in for `localeCompare`'s locale collation, which it does not match in general (collation puts "alice" before "Bob", `Text.StrLe` after); the model relies only on its being a total order. Journal entries are ordered by their ISO `createdAt` text.

**The calendar.** Calendar days are integer day numbers; day 0 is a Sunday, so `d % 7` is the weekday.

## Model

| member | source | states |
|---|---|---|
| Common.Round | app/services/moodStorage.ts:50 | `Math.round` gives the integer nearest to x, halves rounding up |
| Common.Override | app/services/contactsStorage.ts:89-93 | one optional field of `{...current, ...patch}`: the patch's value when present, the current one otherwise |
| Text.BlankIffAllSpace | app/Signup.tsx:33 | `!s.trim()` holds exactly when every character is whitespace |
| Text.TrimStart | app/AddContact.tsx:19 | drops exactly the leading whitespace: the result is a suffix that starts with a non-space |
| Text.TrimEnd | app/AddContact.tsx:19 | drops exactly the trailing whitespace: the result is a prefix that ends with a non-space |
| Text.Trim | app/AddContact.tsx:19 | `trim()` is TrimStart then TrimEnd; it has no contract of its own, and the result is described by TrimHasNoOuterSpace and TrimIdempotent |
| Text.TrimHasNoOuterSpace | app/AddContact.tsx:19 | a trimmed string has no whitespace at either end |
| Text.TrimIdempotent | app/AddContact.tsx:19 | trimming twice is trimming once |
| Text.ToLowerIdempotent | app/services/audioJournalService.ts:31 | lower-casing twice is lower-casing once |
| Text.ToLower | app/services/audioJournalService.ts:31 | same length, each character lower-cased in place |
| Text.IncludesChar | app/Login.tsx:31 | `includes` of a one-character string is membership |
| Text.IndexOf | app/api/audio-journal+api.ts:118 | the first occurrence of a character, -1 exactly when absent |
| Text.LastIndexOf | app/services/audioJournalService.ts:31 | the last occurrence of a character, -1 exactly when absent |
| Text.Split | app/services/journalStorage.ts:88 | `split` on a character: at least one piece, and no piece contains the separator |
| Text.JoinSplit | app/services/journalStorage.ts:88 | joining the pieces of a split with the separator gives the string back |
| Text.SplitJoin | app/services/journalStorage.ts:88 | splitting separator-free pieces joined with the separator gives the same pieces back |
| Text.JoinCons | app/services/journalStorage.ts:88 | joining a piece in front of a non-empty list puts it and one separator in front |
| Text.SplitFirstPiece | app/services/journalStorage.ts:88 | `split(c)[0]` is the text before the first separator |
| Text.SplitAt | app/services/journalStorage.ts:88 | a part without the separator is the first piece of the split |
| Text.StrLeTotal | app/services/contactsStorage.ts:47 | the string order used for localeCompare is total |
| Text.StrLeTransitive | app/services/moodStorage.ts:142 | the string order is transitive |
| Text.StrLeAntisymmetric | app/services/moodStorage.ts:142 | the string order is antisymmetric |
| Text.PadStart | app/services/voiceRecordingService.ts:246 | `padStart` keeps the string as the suffix and fills to the width |
| Text.Pad2 | app/services/voiceRecordingService.ts:246 | two digit characters whose value is n |
| Text.Pad2IsPadStart | app/services/voiceRecordingService.ts:246 | the two digits are `n.toString().padStart(2, '0')` |
| Text.ZeroPadValue | app/services/voiceRecordingService.ts:246 | zero-padding a digit string keeps it all digits with the same value |
| Text.DecimalLength | app/functions/mood-check.tsx:108 | a number below 10^k has at most k decimal digits |
| Text.Decimal | app/services/voiceRecordingService.ts:246 | `String(n)`: at least one digit, with value n |
| Text.ParseIntDecimal | app/functions/mood-check.tsx:106 | `parseInt` of a number's decimal text is that number |
| Text.ParseIntDecimalThen | app/functions/mood-check.tsx:106 | `parseInt` stops at the first non-digit, so trailing text does not change the value |
| Text.ParseIntDigitsThen | app/functions/mood-check.tsx:106 | `parseInt` of digits followed by a non-digit reads the digits' value |
| Text.ParseInt | app/functions/mood-check.tsx:106 | `parseInt(s, 10)`: leading whitespace, an optional sign, then the longest digit prefix, null with no digit; it has no contract of its own, and its values are stated by ParseIntDecimal, ParseIntDecimalThen and ParseIntDigitsThen |
| Text.Utf16Length | app/Signup.tsx:35 | `.length` counts UTF-16 units: between one and two per character |
| Seqs.FindIndex | app/services/contactsStorage.ts:83 | `findIndex`: the first matching position, None exactly when nothing matches |
| Seqs.Find | app/services/contactsStorage.ts:26 | `find`: the first matching element, None exactly when nothing matches |
| Seqs.Filter | app/services/contactsStorage.ts:104 | `filter` gives an in-order sub-list whose elements all match, holding every matching element of the input |
| Seqs.FilterCounts | app/services/contactsStorage.ts:104 | a matching value occurs in the result as often as in the input; a non-matching one never |
| Seqs.FilterKeepsAll | app/services/contactsStorage.ts:106 | a filter that drops nothing returns the same list |
| Seqs.SortBy | app/services/moodStorage.ts:142 | sorting by a key: sorted and a permutation of the input |
| Seqs.PrefixComesFirst | app/services/journalStorage.ts:128 | the first k items of a sorted list come before every item left out |
| StorageTypes.KeyString | app/services/storageTypes.ts:53-59 | every storage key begins with "@serenify:" |
| StorageTypes.KeysDistinct | app/services/storageTypes.ts:53-59 | distinct keys name distinct storage slots |
| StorageTypes.GetMoodInfo | app/services/storageTypes.ts:62-74 | each mood level has one emoji, a label and a `#rrggbb` colour |
| StorageTypes.MoodInfoDistinct | app/services/storageTypes.ts:63-72 | distinct mood levels have distinct emoji, labels and colours |
| ContactsStorage.ContactsStore.AllContacts | app/services/contactsStorage.ts:16-19 | nothing stored reads as an empty list |
| ContactsStorage.ContactsStore.ContactCount | app/services/contactsStorage.ts:175-178 | the count is the length of the stored list |
| ContactsStorage.GetContact | app/services/contactsStorage.ts:24-27 | the first contact with the id, null exactly when none has it |
| ContactsStorage.GetPrimaryContact | app/services/contactsStorage.ts:32-35 | the first primary contact, null exactly when none is primary |
| ContactsStorage.ContactsSorted | app/services/contactsStorage.ts:40-49 | a permutation with primaries first, then by name within each group |
| ContactsStorage.SortKeyOrder | app/services/contactsStorage.ts:42-48 | the sort key orders primaries first, then names |
| ContactsStorage.SortKey | app/services/contactsStorage.ts:42-48 | the comparator as a key; it has no contract of its own, and its order is stated by SortKeyOrder |
| ContactsStorage.ByRelationship | app/services/contactsStorage.ts:117-120 | exactly the contacts with that relationship, in order |
| ContactsStorage.SearchContacts | app/services/contactsStorage.ts:125-133 | exactly the contacts matching the name, phone or relationship rule, in order |
| ContactsStorage.SearchEmptyTermKeepsAll | app/services/contactsStorage.ts:125-133 | the empty term matches every contact |
| ContactsStorage.NewContact | app/services/contactsStorage.ts:60-64 | the new contact has the fresh id and the time, no updatedAt, and every field of the input |
| ContactsStorage.ClearedPrimariesSpec | app/services/contactsStorage.ts:161-170 | only the excepted id can remain primary; every other primary is cleared and stamped with the time; non-primary and excepted contacts are unchanged; ids, names, phones, relationships, notes and createdAt are kept |
| ContactsStorage.ClearedPrimaries | app/services/contactsStorage.ts:161-170 | the same number of contacts, each one cleared unless it carries the excepted id or is not primary |
| ContactsStorage.Merge | app/services/contactsStorage.ts:89-93 | for every field, a value present in the patch replaces the old one and an absent one keeps it; updatedAt is the time |
| ContactsStorage.WithoutId | app/services/contactsStorage.ts:104 | removes exactly the contacts with the id, keeping the order |
| ContactsStorage.AddPrimaryIsOnlyPrimary | app/services/contactsStorage.ts:56-67 | a contact added as primary is the only primary one afterwards |
| ContactsStorage.AddKeepsWellFormed | app/services/contactsStorage.ts:54-71 | adding with a fresh id keeps ids unique and at most one primary |
| ContactsStorage.PrimaryAt | app/services/contactsStorage.ts:146-152 | the same number of contacts, the one at the index the only primary and stamped with the time; every other field kept, other contacts' updatedAt included |
| ContactsStorage.PrimaryAtIsOnlyPrimary | app/services/contactsStorage.ts:138-156 | setPrimaryContact leaves the first contact with the id as the only primary |
| ContactsStorage.WithoutIdShrinksIff | app/services/contactsStorage.ts:104-108 | the filter shrinks the list exactly when the id is present |
| ContactsStorage.WithoutIdKeepsWellFormed | app/services/contactsStorage.ts:102-112 | deleting keeps ids unique and at most one primary |
| ContactsStorage.SubsequenceKeepsWellFormed | app/services/contactsStorage.ts:104 | any order-preserving sub-list of a well-formed list is well-formed |
| ContactsStorage.SubsequenceMembers | app/services/contactsStorage.ts:104 | the elements of a sub-list are elements of the list |
| ContactsStorage.ContactsStore.ClearPrimaryFlags | app/services/contactsStorage.ts:161-170 | the loop saves the list with every other primary flag cleared and stamped |
| ContactsStorage.ContactsStore.AddContact | app/services/contactsStorage.ts:54-71 | one contact more, the new one last; earlier ones unchanged unless primaries were cleared; well-formedness kept |
| ContactsStorage.ContactsStore.UpdateContact | app/services/contactsStorage.ts:76-97 | null exactly for an absent id, having cleared primaries anyway; otherwise the first match is merged and saved |
| ContactsStorage.ContactsStore.DeleteContact | app/services/contactsStorage.ts:102-112 | true exactly when the id is present; then the list without it is saved, else nothing is saved |
| ContactsStorage.ContactsStore.SetPrimaryContact | app/services/contactsStorage.ts:138-156 | false with nothing saved for an absent id; otherwise the first match becomes the only primary |
| MoodStorage.NormalizeScore | app/services/moodStorage.ts:50 | the score is clamped to 1..10 and rounded to the nearest integer; NaN and 0 give 1 |
| MoodStorage.NormalizeKeepsValidScore | app/services/moodStorage.ts:50 | an integer score in 1..10 is stored unchanged |
| MoodStorage.EntryByDate | app/services/moodStorage.ts:24-27 | the first entry with the date, null exactly when no entry has it |
| MoodStorage.EntriesInRange | app/services/moodStorage.ts:92-95 | exactly the entries whose date lies between the bounds, in order |
| MoodStorage.ScoreSumBounds | app/services/moodStorage.ts:120 | with scores in 1..10 the total is between n and 10n |
| MoodStorage.GetMoodStats | app/services/moodStorage.ts:114-127 | the count of entries in range; average 0 when there are none |
| MoodStorage.MoodStatsAverageInRange | app/services/moodStorage.ts:120-125 | with scores in 1..10 the rounded average lies in 1..10 |
| MoodStorage.RoundedAverageInRange | app/services/moodStorage.ts:121-125 | an average of n scores in 1..10, rounded to tenths, stays in 1..10 |
| MoodStorage.MoodTrends | app/services/moodStorage.ts:137-142 | the in-range entries, sorted by date, as a permutation |
| MoodStorage.NewMoodEntry | app/services/moodStorage.ts:50-59 | an existing date keeps its id and createdAt; a new date gets the fresh id and the time |
| MoodStorage.Upserted | app/services/moodStorage.ts:61-65 | the upsert of setMoodForDate; it has no contract of its own, and its shape and lookups are stated by UpsertedShape, UpsertedFinds and UpsertedKeepsOtherDates |
| MoodStorage.UpsertedShape | app/services/moodStorage.ts:61-65 | an existing date is replaced in place; otherwise the entry is appended |
| MoodStorage.UpsertedFinds | app/services/moodStorage.ts:61-65 | after the upsert, looking the date up finds the new entry |
| MoodStorage.UpsertedKeepsOtherDates | app/services/moodStorage.ts:47-65 | after the upsert, looking up any other date finds what it found before |
| MoodStorage.UpsertedKeepsFirst | app/services/moodStorage.ts:61-65 | the first position of another date, and the entry there, are unchanged by the upsert |
| MoodStorage.EntryByDateAt | app/services/moodStorage.ts:24-27 | the lookup returns the entry at the first position holding the date |
| MoodStorage.FirstWithDateUnique | app/services/moodStorage.ts:47 | the first position holding a date is unique |
| MoodStorage.UpsertedKeepsInvariant | app/services/moodStorage.ts:40-71 | the upsert keeps one entry per date and scores in range |
| MoodStorage.WithoutDate | app/services/moodStorage.ts:150 | removes exactly the entries with the date, keeping the order |
| MoodStorage.WithoutDateShrinksIff | app/services/moodStorage.ts:150-154 | the filter shrinks the list exactly when the date is present |
| MoodStorage.MoodStore.SetMoodForDate | app/services/moodStorage.ts:40-71 | saves the upserted list and the last mood date; the date now finds the entry; one entry per date is kept |
| MoodStorage.MoodStore.DeleteEntry | app/services/moodStorage.ts:148-158 | true exactly when the date is present; then the filtered list is saved, else nothing is saved |
| MoodStorage.MoodStore.AllEntries | app/services/moodStorage.ts:16-19 | nothing stored reads as an empty list; otherwise the saved list |
| JournalStorage.GetEntry | app/services/journalStorage.ts:24-27 | the first entry with the id, null exactly when none has it |
| JournalStorage.EntriesInRange | app/services/journalStorage.ts:85-91 | exactly the entries whose createdAt date lies between the bounds, in order |
| JournalStorage.EntryDateOfIsoTimestamp | app/services/journalStorage.ts:88 | the text before 'T' in an ISO timestamp is its date |
| JournalStorage.EntriesByMood | app/services/journalStorage.ts:96-99 | exactly the entries with that mood, in order |
| JournalStorage.EntriesWithVoice | app/services/journalStorage.ts:104-107 | exactly the entries with a voice recording, in order |
| JournalStorage.EntriesByTag | app/services/journalStorage.ts:134-137 | exactly the entries carrying the tag, in order |
| JournalStorage.SearchEntries | app/services/journalStorage.ts:112-119 | exactly the entries whose text or a tag contains the lower-cased term, in order |
| JournalStorage.SearchIgnoresTermCase | app/services/journalStorage.ts:114 | the search term's case does not matter |
| JournalStorage.SliceEnd | app/services/journalStorage.ts:128 | `slice(0, end)` keeps min(end, n) items, or n+end for a negative end |
| JournalStorage.RecentEntries | app/services/journalStorage.ts:124-129 | `slice(0, limit)` of the entries sorted newest first: SliceEnd(n, limit) of them, drawn from the store, and no entry left out is newer than one returned |
| JournalStorage.RecentEntriesAll | app/services/journalStorage.ts:124-129 | a limit of at least the count returns every entry |
| JournalStorage.NewEntry | app/services/journalStorage.ts:33-37 | the new entry has the fresh id and the time, and every field of the draft |
| JournalStorage.Merge | app/services/journalStorage.ts:57-61 | for every field, a value present in the patch replaces the old one and an absent one keeps it; updatedAt is the time |
| JournalStorage.MergeKeepsScoreInRange | app/services/journalStorage.ts:57-61 | merging with an in-range patch score keeps the score in 1..10 |
| JournalStorage.UpdateKeepsScoresInRange | app/services/journalStorage.ts:57-63 | replacing one entry by its merge with an in-range patch keeps every score in 1..10 |
| JournalStorage.MergeEmptyPatch | app/services/journalStorage.ts:57-61 | an empty patch only renews updatedAt |
| JournalStorage.WithoutId | app/services/journalStorage.ts:72 | removes exactly the entries with the id, keeping the order |
| JournalStorage.WithoutIdShrinksIff | app/services/journalStorage.ts:72-76 | the filter shrinks the list exactly when the id is present |
| JournalStorage.AppendKeepsUniqueIds | app/services/journalStorage.ts:39-41 | appending an entry with a fresh id keeps ids unique |
| JournalStorage.MergeKeepsUniqueIds | app/services/journalStorage.ts:57-61 | a patch without an id keeps ids unique |
| JournalStorage.JournalStore.AllEntries | app/services/journalStorage.ts:16-19 | nothing stored reads as an empty list |
| JournalStorage.JournalStore.CreateEntry | app/services/journalStorage.ts:32-44 | the new entry is appended; a fresh id keeps ids unique; in-range scores stay in range |
| JournalStorage.JournalStore.UpdateEntry | app/services/journalStorage.ts:49-65 | null with nothing saved exactly for an absent id; otherwise the match is merged and saved; in-range scores stay in range |
| JournalStorage.JournalStore.DeleteEntry | app/services/journalStorage.ts:70-80 | true exactly when the id is present; then the filtered list is saved, else nothing is saved |
| VoiceRecording.PermissionGranted | app/services/voiceRecordingService.ts:23-31 | granted exactly for the status "granted"; an exception counts as refused |
| VoiceRecording.DurationSeconds | app/services/voiceRecordingService.ts:153-158 | whole seconds of the reported duration, or of the elapsed time when it is absent or 0 |
| VoiceRecording.FormatDuration | app/services/voiceRecordingService.ts:240-249 | formatDuration; it has no contract of its own, and its text is stated by FormatDurationRoundTrip and FormatDurationPieces |
| VoiceRecording.ClockText | app/services/voiceRecordingService.ts:245-248 | the `H:MM:SS` or `M:SS` text; it has no contract of its own, and its reading back is stated by ClockTextReadsBack |
| VoiceRecording.FormatDurationRoundTrip | app/services/voiceRecordingService.ts:240-249 | the clock text reads back as the same seconds, in three fields from one hour on and two below |
| VoiceRecording.FormatDurationPieces | app/services/voiceRecordingService.ts:241-248 | the text splits on ':' into hours, padded minutes and padded seconds |
| VoiceRecording.ClockArithmetic | app/services/voiceRecordingService.ts:241-245 | the minutes and seconds fields are below 60, and the three fields add back to the seconds |
| VoiceRecording.ClockTextPieces | app/services/voiceRecordingService.ts:245-248 | the `H:MM:SS` or `M:SS` text splits on ':' into exactly its fields |
| VoiceRecording.ClockTextReadsBack | app/services/voiceRecordingService.ts:245-248 | the text of any hours, minutes and seconds reads back as their total in seconds |
| VoiceRecording.VoiceRecorder.IsRecording | app/services/voiceRecordingService.ts:146-148 | true exactly while a recording is held |
| VoiceRecording.VoiceRecorder.StartRecording | app/services/voiceRecordingService.ts:49-77 | succeeds exactly with permission, audio mode and a created recording; a failure changes nothing |
| VoiceRecording.VoiceRecorder.StopRecording | app/services/voiceRecordingService.ts:82-120 | null when idle; otherwise the recording is released; success keeps the uri and resets the start time |
| VoiceRecording.VoiceRecorder.CancelRecording | app/services/voiceRecordingService.ts:222-235 | releases a held recording; a failure is swallowed and changes nothing |
| AudioJournalService.Extension | app/services/audioJournalService.ts:31 | the lower-cased text after the last '.', without a '.' |
| AudioJournalService.MimeForExtension | app/services/audioJournalService.ts:32-40 | m4a, wav and ogg map to their types; everything else to audio/mp3 |
| AudioJournalService.MimeTypeOf | app/services/audioJournalService.ts:31-40 | the type of a file name is the type of its extension; it has no contract of its own, and its behaviour is stated by MimeTypeOfName and MimeTypeIgnoresCase |
| AudioJournalService.MimeTypeIgnoresCase | app/services/audioJournalService.ts:31-40 | the extension's case does not matter |
| AudioJournalService.AfterLastLower | app/services/audioJournalService.ts:31 | lower-casing commutes with taking the text after the last '.' |
| AudioJournalService.LastIndexOfLower | app/services/audioJournalService.ts:31 | lower-casing does not move the last '.' |
| AudioJournalService.MimeTypeOfName | app/services/audioJournalService.ts:31-40 | only the text after the last '.' decides the type |
| AudioJournalService.FailureResponse | app/services/audioJournalService.ts:56-63 | failure reply with the fixed error, and the error's message or "Unknown error" |
| AudioJournalService.ProcessAudioJournal | app/services/audioJournalService.ts:21-64 | a failed read or post gives the failure reply; otherwise the decoded reply as is |
| AudioJournalService.FailureIsUnsuccessful | app/services/audioJournalService.ts:56-63 | whatever fails, the caller gets success false |
| Therapy.TickState | app/functions/therapy.tsx:62-90 | one interval tick: count down, or move to the next phase; the fourth exhale ends the exercise |
| Therapy.TickProgress | app/functions/therapy.tsx:62-90 | a tick keeps the state valid and takes exactly one second off what remains |
| Therapy.RunsToCompletion | app/functions/therapy.tsx:62-101 | the exercise runs until its remaining seconds are spent, then stops with 4 cycles done |
| Therapy.SessionLength | app/functions/therapy.tsx:21-25 | a session lasts 48 ticks |
| Therapy.Breathing.Start | app/functions/therapy.tsx:55-60 | ignored while running; otherwise a running exercise at inhale, 4 seconds, cycle 0 |
| Therapy.Breathing.Tick | app/functions/therapy.tsx:62-90 | the state after one tick; a valid state stays valid |
| Therapy.Breathing.Stop | app/functions/therapy.tsx:93-101 | stops at inhale with 4 seconds and keeps the cycle count |
| Therapy.Breathing.Reset | app/functions/therapy.tsx:103-107 | stops and sets the cycle count back to 0 |
| MoodCheck.StartOfWeek | app/functions/mood-check.tsx:44 | the latest day on or before d that falls on the week's first weekday |
| MoodCheck.EndOfWeek | app/functions/mood-check.tsx:45 | the last day of d's week |
| MoodCheck.GridDays | app/functions/mood-check.tsx:43-54 | whole consecutive weeks covering every day of the month |
| MoodCheck.GenerateDays | app/functions/mood-check.tsx:43-54 | the loop lists exactly the grid days |
| MoodCheck.HeaderMislabelsSundayGrid | app/functions/mood-check.tsx:44-57 | with Sunday-start weeks every cell sits under the next day's name |
| MoodCheck.HeaderMatchesMondayGrid | app/functions/mood-check.tsx:44-57 | with Monday-start weeks every cell sits under its own day's name |
| MoodCheck.SundayGridCellsMisnamed | app/functions/mood-check.tsx:44-57 | in Sunday-start weeks no cell is under its own day's name |
| MoodCheck.SundayGridCellsNamedAfterNext | app/functions/mood-check.tsx:44-57 | in Sunday-start weeks each cell is under the following day's name |
| MoodCheck.Hue | app/functions/mood-check.tsx:93-99 | the clamped score times 12 degrees above 1: 0 to 108 |
| MoodCheck.HueMonotone | app/functions/mood-check.tsx:95-99 | higher scores never get lower hues; distinct valid scores get distinct hues |
| MoodCheck.MoodColor | app/functions/mood-check.tsx:93-103 | getMoodColor; it has no contract of its own, and its text is stated by MoodColorShowsHue |
| MoodCheck.MoodColorShowsHue | app/functions/mood-check.tsx:102 | the colour string is "hsl(" followed by the hue |
| MoodCheck.DayColor | app/functions/mood-check.tsx:159 | white for no score or 0, otherwise the mood colour |
| MoodCheck.CellColor | app/functions/mood-check.tsx:157-159 | a day missing from the map is white |
| MoodCheck.MoodMapOf | app/functions/mood-check.tsx:71-76 | the map built by the load effect; it has no contract of its own, and its content is stated by MoodMapOfSpec |
| MoodCheck.MoodMapOfSpec | app/functions/mood-check.tsx:71-76 | the map holds exactly the scored dates, each with its last score |
| MoodCheck.BuildMoodMap | app/functions/mood-check.tsx:71-76 | the forEach builds exactly that map |
| MoodCheck.DateKey | app/functions/mood-check.tsx:108 | `yyyy-MM-dd` text whose fields read back as year, month and day |
| MoodCheck.JoinDate | app/functions/mood-check.tsx:108 | joining three fields with '-' gives a date string whose slices are those fields |
| MoodCheck.SaveAccepted | app/functions/mood-check.tsx:106-107 | handleSaveMood's condition; a predicate without a contract, stated by TypedScoreAccepted |
| MoodCheck.TypedScoreAccepted | app/functions/mood-check.tsx:106-107 | a score 1..10 typed as digits is accepted for a selected day |
| MoodCheck.MoodCalendar.Load | app/functions/mood-check.tsx:66-84 | a successful read replaces the map with the one built from every entry |
| MoodCheck.MoodCalendar.HandleDayPress | app/functions/mood-check.tsx:60-63 | selects the day and opens the modal |
| MoodCheck.MoodCalendar.RecordScore | app/functions/mood-check.tsx:111-113 | the score is stored for the key and set in the map; the key then finds the stored entry, and every other date finds what it found before |
| MoodCheck.MoodCalendar.HandleSaveMood | app/functions/mood-check.tsx:105-121 | saves exactly for a selected day, a score 1..10 and a successful write, leaving other dates' entries as they were; the modal closes and the text clears |
| Auth.BadEmailIffNoAt | app/Signup.tsx:34 | an email is rejected exactly when it has no '@' |
| Auth.HandleCreate | app/Signup.tsx:32-43 | each message exactly when its check is the first to fail; created exactly when all pass |
| Auth.LoginForm.HandleLogin | app/Login.tsx:30-42 | the email error first, then the password error; cleared and greeting exactly when both pass; the error left is LoginError of the fields |
| Auth.LoginError | app/Login.tsx:31-39 | the error is empty exactly when email and password pass |
| Auth.CreatedCanLogIn | app/Login.tsx:31-38 | an account sign-up accepts passes the log-in checks |
| Auth.AstralCharactersCountTwice | app/Signup.tsx:35 | three astral characters already make six UTF-16 units |
| AddContactForm.HandleAdd | app/AddContact.tsx:14-24 | nothing exactly for a blank name or phone; otherwise trimmed fields and an empty relationship dropped |
| AddContactForm.RecordFieldsAreTrimmed | app/AddContact.tsx:19 | name and phone are non-empty with no outer whitespace |
| AddContactForm.HandleAddIdempotent | app/AddContact.tsx:19 | feeding a record back through the form gives the same record |
| EmergencyScreen.DialUrl | app/functions/EmergencyContact.tsx:24-25 | `tel:` on Android, `telprompt:` elsewhere, followed by 999 |
| EmergencyScreen.DialUrlEndsWithNumber | app/functions/EmergencyContact.tsx:24-25 | every dial URL ends in 999 |
| EmergencyScreen.ToSave | app/functions/EmergencyContact.tsx:102 | trimmed name, phone and relationship, the empty relationship kept |
| EmergencyScreen.PrependDiffersFromAppend | app/functions/EmergencyContact.tsx:105 | the screen's list and the store hold the same contacts in a different order |
| EmergencyScreen.SupportCircle.Load | app/functions/EmergencyContact.tsx:47-59 | a successful read replaces the local list with the stored one |
| EmergencyScreen.SupportCircle.HandleAddContact | app/functions/EmergencyContact.tsx:95-114 | blank fields or a failed save change nothing; a save puts the contact first and resets the form |
| EmergencyScreen.SupportCircle.SaveContact | app/functions/EmergencyContact.tsx:103-109 | the store appends the new contact while the screen's list puts it first; the form is cleared and closed |
| Psychiatrist.ToHistory | app/functions/psychiatrist.tsx:40-43 | "user" maps to role user, every other sender to assistant |
| Psychiatrist.MapToHistory | app/functions/psychiatrist.tsx:40-43 | each message mapped, in order |
| Psychiatrist.HistoryFor | app/functions/psychiatrist.tsx:34-43 | the mapped suffix from the first user message; it starts with a user turn when there is one |
| Psychiatrist.HistoryEndsWithNewMessage | app/functions/psychiatrist.tsx:34-39 | the history starts with a user turn and ends with the new message |
| Psychiatrist.ReplyText | app/functions/psychiatrist.tsx:49-59 | the answer on success; otherwise the error or a fallback; a fixed text on a throw; never empty |
| Psychiatrist.FailedAnswerShowsError | app/functions/psychiatrist.tsx:52-55 | an unusable answer shows its error, or the fallback when it has none |
| Psychiatrist.ChatScreen.HandleSend | app/functions/psychiatrist.tsx:26-62 | blank input changes nothing; otherwise one user message and exactly one AI reply, its id from the second clock reading, appended, input cleared |
| GeminiChatApi.SystemPrompt | app/api/gemini-chat+api.ts:50-51 | the environment's prompt when set and non-empty, else the default |
| GeminiChatApi.ToTurn | app/api/gemini-chat+api.ts:74-77 | role user stays user; every other role becomes model |
| GeminiChatApi.MapToTurns | app/api/gemini-chat+api.ts:74-77 | each item mapped, in order |
| GeminiChatApi.MapToTurnsCons | app/api/gemini-chat+api.ts:68-77 | mapping the prompt put in front of the history puts its turn in front |
| GeminiChatApi.FromFirstUser | app/api/gemini-chat+api.ts:60-61 | the suffix from the first user item, empty exactly when there is none |
| GeminiChatApi.CallFor | app/api/gemini-chat+api.ts:55-85 | plain generation without history; the prompt before the message with no user item; otherwise a chat |
| GeminiChatApi.ChatHistoryStartsWithUser | app/api/gemini-chat+api.ts:68-77 | the chat history opens with the system prompt and a user turn, and all roles are user or model |
| GeminiChatApi.UserHistoryUsesChat | app/api/gemini-chat+api.ts:55-81 | a history holding a user item is always sent as a chat |
| GeminiChatApi.History | app/api/gemini-chat+api.ts:23 | a missing history is an empty one |
| GeminiChatApi.ServerError | app/api/gemini-chat+api.ts:99-104 | 500 with the fixed error and the details |
| GeminiChatApi.Post | app/api/gemini-chat+api.ts:18-106 | 400 exactly for a missing, empty or non-string message; 500 for a missing key; with a key, generated text is a 200 carrying it and a throw is the server error |
| AudioJournalApi.MimeOrDefault | app/api/audio-journal+api.ts:30-58 | the given type when non-empty, else audio/mp3 |
| AudioJournalApi.ReadRequest | app/api/audio-journal+api.ts:27-64 | lower-cased content type: multipart reads the file, json the body, anything else is a 400 |
| AudioJournalApi.ContentTypeIgnoresCase | app/api/audio-journal+api.ts:27 | the header's case does not matter |
| AudioJournalApi.JsonCandidate | app/api/audio-journal+api.ts:118 | from the first '{' to the last '}', none exactly when no '}' follows a '{' |
| AudioJournalApi.NoBraceAfterFirst | app/api/audio-journal+api.ts:118 | when the last '}' precedes the first '{', no '}' follows any '{' |
| AudioJournalApi.Failure | app/api/audio-journal+api.ts:38-41 | an unsuccessful reply with the status, error and details |
| AudioJournalApi.Validate | app/api/audio-journal+api.ts:124-171 | 200 exactly for a string transcript and a number score in [1, 10], returned as parsed |
| AudioJournalApi.Post | app/api/audio-journal+api.ts:24-186 | early replies pass through; empty audio is a 400; a missing key is a 500; a model throw is the internal error; text without a JSON object is a parse failure; otherwise the validated parse |
| AudioJournalApi.SuccessHasScoreInRange | app/api/audio-journal+api.ts:147-171 | a successful reply carries a transcript and a score in [1, 10] |

## Left out

- Storage write failures inside the stores are not modelled: every store method saves. The screens take the outcome of a write as a parameter, and on a failure they leave the store as it was.
- `MoodStorage.MoodStore.SetMoodForDate`: the case where the list is saved but the later LAST_MOOD_DATE write fails is not modelled.
- JSON encoding of the stored blobs is not modelled. A store's list is kept as a value.
- `Text.ToLower` lower-cases ASCII letters only. JavaScript's `toLowerCase` also maps other alphabets.
- `ContactsStorage.Merge` and `JournalStorage.Merge` treat a patch field as absent or present. A field present with the value `undefined` is not distinguished.
- Ids, `Date.now()` and ISO timestamps are inputs. A fresh id is assumed distinct where a lemma needs it.
- `Common.Round` works on exact reals, not IEEE doubles.
- The 1/10 rounding of `averageMood` is exact too, so binary floating-point effects are not modelled.
- setTodayMood, getTodayMood, hasLoggedToday and the mood store's getRecentEntries are not modelled. They read the clock and call the modelled operations.
- The date bounds getMoodTrends computes from the clock are not modelled. `MoodStorage.MoodTrends` takes the bounds as inputs.
- `JournalStorage.JournalStore.CreateEntry` and `UpdateEntry` do not check a mood score's range, as the code does not; the range of 1 to 10 is kept only when callers supply in-range scores.
- `Seqs.SortBy`: the order among items with equal keys is not stated. The contract gives sortedness and a permutation only.
- `ContactsStorage.ContactsSorted` orders names by `Text.StrLe`, not by `localeCompare`'s locale collation. Collation tables are not modelled.
- `JournalStorage.RecentEntries` orders by the ISO createdAt text, not by `new Date(...).getTime()`. Date parsing is not modelled.
- The conversion from a grid day number to a calendar date is not modelled, and neither are month navigation (handlePrevMonth, handleNextMonth) or "today".
- `MoodCheck.DateKey` covers years 0 to 9999 only.
- `VoiceRecording.FormatDuration` takes whole non-negative seconds. Negative or fractional seconds are not modelled.
- checkPermissions, getStatus, playRecording, deleteRecording and getRecordingInfo are not modelled. They are thin calls into the audio library and the file system.
- Gemini, fetch, the file read and the audio library are not modelled; only the branching around them is.
- `AudioJournalApi.ReadRequest`: a JSON `audioBase64` or `mimeType` of a non-string type is not modelled.
- `AudioJournalApi.ReadRequest`: a `null` JSON body is treated as a thrown read.
- `AudioJournalApi.Post`: `JSON.parse` is an input, and a score of any JSON number is read as a real.
- `GeminiChatApi.Post`: a history that is not an array is not modelled.
- Timers are not modelled; the breathing interval is one `Tick` step.
- Animations, Linking, alerts and navigation are not modelled, beyond the dial URL and the alert texts.
- The `mounted` flag of the load effects is not modelled.
- `Psychiatrist.ChatScreen.HandleSend` appends the AI reply in the same step as the user message. Other sends that interleave with the asynchronous call are not modelled.
- The duplicate emergency screen, the placeholder recorder in newJournal, geminiService, storageService and the presentational files are not part of this model.

## Findings

| source | as written | input that shows it | evidently intended | confidence | as-written member | corrected member |
|---|---|---|---|---|---|---|
| app/functions/mood-check.tsx:44-57 | the grid's weeks start on Sunday (date-fns' default) while the header row reads Mon…Sun | any month: the first column holds Sundays under the heading "Mon" | weeks starting on Monday (`weekStartsOn: 1`) to match the header | not executed; high | MoodCheck.HeaderMislabelsSundayGrid | MoodCheck.HeaderMatchesMondayGrid |
