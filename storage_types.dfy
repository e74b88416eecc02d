/** The records kept by the three stores, the mood levels with their display table, and the
    storage keys (app/services/storageTypes.ts). */
module StorageTypes {
  import opened Common
  import Text

  datatype MoodLevel = VeryHappy | Happy | Neutral | Sad | VerySad | Anxious | Angry | Tired

  /** A journal entry. Optional fields are `None` when the key is absent. */
  datatype JournalEntry = JournalEntry(
    id: string,
    createdAt: string,
    updatedAt: Option<string>,
    text: Option<string>,
    voiceUri: Option<string>,
    voiceDuration: Option<int>,
    mood: Option<MoodLevel>,
    moodScore: Option<real>,
    tags: Option<seq<string>>)

  /** A daily mood entry as the mood store writes it. The declared type names a `mood` field, but
      every writer stores `moodScore`; `None` stands for an entry without a numeric `moodScore`
      (such as one written in the declared shape). */
  datatype MoodEntry = MoodEntry(
    id: string,
    date: string,
    moodScore: Option<int>,
    notes: Option<string>,
    activities: Option<seq<string>>,
    createdAt: string)

  /** An emergency contact. An absent `isPrimary` and `false` behave alike everywhere, so the
      flag is a plain bool. */
  datatype EmergencyContact = EmergencyContact(
    id: string,
    name: string,
    phone: string,
    relationship: Option<string>,
    isPrimary: bool,
    notes: Option<string>,
    createdAt: string,
    updatedAt: Option<string>)

  /** A `YYYY-MM-DD` date: four digits, a dash, two digits, a dash, two digits. */
  predicate IsDateString(d: string)
  {
    && |d| == 10
    && Text.AllDigits(d[..4]) && d[4] == '-'
    && Text.AllDigits(d[5..7]) && d[7] == '-'
    && Text.AllDigits(d[8..])
  }

  /** The declared range of a journal entry's AI mood score: a number from 1 to 10 when present. */
  predicate ScoreInRange(score: Option<real>)
  {
    score.Some? ==> 1.0 <= score.value <= 10.0
  }

  // ---------------------------------------------------------------- storage keys

  datatype StorageKey = Journals | Moods | EmergencyContacts | LastMoodDate | Settings

  const KEY_PREFIX: string := "@serenify:"

  /** The string each key stands for under STORAGE_KEYS. */
  function KeyString(k: StorageKey): (s: string)
    ensures |KEY_PREFIX| < |s| && s[..|KEY_PREFIX|] == KEY_PREFIX
  {
    match k
    case Journals => "@serenify:journals"
    case Moods => "@serenify:moods"
    case EmergencyContacts => "@serenify:emergency_contacts"
    case LastMoodDate => "@serenify:last_mood_date"
    case Settings => "@serenify:settings"
  }

  /** No two stores share a key. */
  lemma KeysDistinct(a: StorageKey, b: StorageKey)
    requires a != b
    ensures KeyString(a) != KeyString(b)
  {
  }

  // ---------------------------------------------------------------- display table

  datatype MoodInfo = MoodInfo(emoji: string, labelText: string, color: string)

  /** getMoodInfo: the emoji, label and colour shown for a mood level. */
  function GetMoodInfo(m: MoodLevel): (info: MoodInfo)
    ensures |info.emoji| == 1 && info.labelText != []
    ensures |info.color| == 7 && info.color[0] == '#'
  {
    match m
    case VeryHappy => MoodInfo("\U{1F604}", "Very Happy", "#34D399")
    case Happy => MoodInfo("\U{1F642}", "Happy", "#60A5FA")
    case Neutral => MoodInfo("\U{1F610}", "Neutral", "#9CA3AF")
    case Sad => MoodInfo("\U{1F614}", "Sad", "#FBBF24")
    case VerySad => MoodInfo("\U{1F622}", "Very Sad", "#F87171")
    case Anxious => MoodInfo("\U{1F630}", "Anxious", "#FB923C")
    case Angry => MoodInfo("\U{1F620}", "Angry", "#EF4444")
    case Tired => MoodInfo("\U{1F634}", "Tired", "#A78BFA")
  }

  /** Different mood levels are shown differently: labels (the source's `label`), emojis and colours are all distinct. */
  lemma MoodInfoDistinct(a: MoodLevel, b: MoodLevel)
    requires a != b
    ensures GetMoodInfo(a).labelText != GetMoodInfo(b).labelText
    ensures GetMoodInfo(a).emoji != GetMoodInfo(b).emoji
    ensures GetMoodInfo(a).color != GetMoodInfo(b).color
  {
  }
}
