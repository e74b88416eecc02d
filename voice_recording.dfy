/** The voice recorder (app/services/voiceRecordingService.ts): idle or holding one recording, with
    the uri of the last finished recording and the start time of the current one. The audio
    library's calls are inputs giving their outcome. */
module VoiceRecording {
  import opened Common
  import Text

  /** A recording object handed out by the audio library, identified by a number. */
  datatype Recording = Recording(handle: nat)

  /** What the permission request reports: a status string, or an exception. */
  datatype PermissionReply = Status(status: string) | PermissionThrew

  /** What stopping and unloading the recording reports: its final duration in milliseconds
      (None when absent), or an exception. */
  datatype UnloadReply = Unloaded(durationMillis: Option<int>) | UnloadThrew

  /** What stopRecording hands back: null, a finished recording, or a thrown error. */
  datatype StopResult = NoRecording | Stopped(uri: string, duration: int) | StopThrew

  /** requestPermissions: true only for the status "granted"; an exception counts as refused. */
  function PermissionGranted(reply: PermissionReply): (granted: bool)
    ensures granted <==> reply == Status("granted")
  {
    match reply
    case Status(s) => s == "granted"
    case PermissionThrew => false
  }

  /** calculateDuration: whole seconds of the reported duration when it is present and non-zero,
      otherwise of the time elapsed since the start. */
  function DurationSeconds(durationMillis: Option<int>, now: int, startTime: int): (d: int)
    ensures durationMillis.Some? && durationMillis.value != 0 ==>
              d * 1000 <= durationMillis.value < (d + 1) * 1000
    ensures (durationMillis.None? || durationMillis.value == 0) ==>
              d * 1000 <= now - startTime < (d + 1) * 1000
  {
    if durationMillis.Some? && durationMillis.value != 0 then durationMillis.value / 1000
    else (now - startTime) / 1000
  }

  // ---------------------------------------------------------------- formatDuration

  /** formatDuration: whole hours, minutes below 60 and seconds below 60 of the total. */
  function FormatDuration(seconds: nat): (r: string)
  {
    var hrs := seconds / 3600;
    var mins := (seconds % 3600) / 60;
    var secs := seconds % 60;
    ClockText(hrs, mins, secs)
  }

  /** The text formatDuration builds from its three fields: `H:MM:SS` when there are hours,
      `M:SS` otherwise. Minutes and seconds are padded with `padStart(2, '0')`, which is what
      Pad2 computes (Text.Pad2IsPadStart). */
  function ClockText(hrs: nat, mins: nat, secs: nat): string
    requires mins < 60 && secs < 60
  {
    if hrs > 0 then Text.Decimal(hrs) + [':'] + Text.Pad2(mins) + [':'] + Text.Pad2(secs)
    else Text.Decimal(mins) + [':'] + Text.Pad2(secs)
  }

  /** Reads a clock text back: `H:MM:SS` or `M:SS` with two-digit minutes and seconds below 60. */
  function ClockValue(s: string): (r: Option<nat>)
  {
    ClockParts(Text.Split(s, ':'))
  }

  /** The value of the ':'-separated fields of a clock text. */
  function ClockParts(p: seq<string>): (r: Option<nat>)
  {
    if |p| == 3 && p[0] != [] && |p[1]| == 2 && |p[2]| == 2
       && Text.AllDigits(p[0]) && Text.AllDigits(p[1]) && Text.AllDigits(p[2])
       && Text.DigitsValue(p[1]) < 60 && Text.DigitsValue(p[2]) < 60
    then Some(Text.DigitsValue(p[0]) * 3600 + Text.DigitsValue(p[1]) * 60 + Text.DigitsValue(p[2]))
    else if |p| == 2 && p[0] != [] && |p[1]| == 2
       && Text.AllDigits(p[0]) && Text.AllDigits(p[1])
       && Text.DigitsValue(p[0]) < 60 && Text.DigitsValue(p[1]) < 60
    then Some(Text.DigitsValue(p[0]) * 60 + Text.DigitsValue(p[1]))
    else None
  }

  lemma DigitsHaveNoColon(s: string)
    requires Text.AllDigits(s)
    ensures ':' !in s
  {
  }

  /** Three digit strings joined with ':' split back into the three. */
  lemma SplitJoin3(a: string, b: string, c: string)
    requires Text.AllDigits(a) && Text.AllDigits(b) && Text.AllDigits(c)
    ensures Text.Split(a + [':'] + b + [':'] + c, ':') == [a, b, c]
  {
    DigitsHaveNoColon(a);
    DigitsHaveNoColon(b);
    assert a + [':'] + b + [':'] + c == a + [':'] + (b + [':'] + c);
    Text.SplitAt(a, ':', b + [':'] + c);
    SplitJoin2(b, c);
  }

  /** Two digit strings joined with ':' split back into the two. */
  lemma SplitJoin2(a: string, b: string)
    requires Text.AllDigits(a) && Text.AllDigits(b)
    ensures Text.Split(a + [':'] + b, ':') == [a, b]
  {
    DigitsHaveNoColon(a);
    DigitsHaveNoColon(b);
    Text.SplitAt(a, ':', b);
  }

  /** Hours, minutes below 60 and seconds below 60 add back up to the total. */
  lemma ClockArithmetic(seconds: nat)
    ensures (seconds % 3600) / 60 < 60 && seconds % 60 < 60
    ensures seconds == (seconds / 3600) * 3600 + ((seconds % 3600) / 60) * 60 + seconds % 60
    ensures seconds / 3600 > 0 <==> seconds >= 3600
  {
  }

  /** The clock text splits on ':' into its fields. */
  lemma ClockTextPieces(h: nat, m: nat, sec: nat)
    requires m < 60 && sec < 60
    ensures Text.Split(ClockText(h, m, sec), ':')
            == if h > 0 then [Text.Decimal(h), Text.Pad2(m), Text.Pad2(sec)] else [Text.Decimal(m), Text.Pad2(sec)]
  {
    if h > 0 {
      SplitJoin3(Text.Decimal(h), Text.Pad2(m), Text.Pad2(sec));
    } else {
      SplitJoin2(Text.Decimal(m), Text.Pad2(sec));
    }
  }

  /** The pieces formatDuration joins with ':' come back apart when the text is split on ':'. */
  lemma FormatDurationPieces(seconds: nat)
    ensures var p := Text.Split(FormatDuration(seconds), ':');
      var secs := Text.Pad2(seconds % 60);
      if seconds >= 3600 then p == [Text.Decimal(seconds / 3600), Text.Pad2((seconds % 3600) / 60), secs]
      else p == [Text.Decimal((seconds % 3600) / 60), secs]
  {
    ClockArithmetic(seconds);
    ClockTextPieces(seconds / 3600, (seconds % 3600) / 60, seconds % 60);
  }

  /** Well-formed hours, minutes and seconds fields read back as their total. */
  lemma ThreeFields(hs: string, ms: string, ss: string)
    requires hs != [] && |ms| == 2 && |ss| == 2
    requires Text.AllDigits(hs) && Text.AllDigits(ms) && Text.AllDigits(ss)
    requires Text.DigitsValue(ms) < 60 && Text.DigitsValue(ss) < 60
    ensures ClockParts([hs, ms, ss])
            == Some(Text.DigitsValue(hs) * 3600 + Text.DigitsValue(ms) * 60 + Text.DigitsValue(ss))
  {
  }

  /** Well-formed minutes and seconds fields read back as their total. */
  lemma TwoFields(ms: string, ss: string)
    requires ms != [] && |ss| == 2 && Text.AllDigits(ms) && Text.AllDigits(ss)
    requires Text.DigitsValue(ms) < 60 && Text.DigitsValue(ss) < 60
    ensures ClockParts([ms, ss]) == Some(Text.DigitsValue(ms) * 60 + Text.DigitsValue(ss))
  {
  }

  /** The clock text of hours, minutes and seconds reads back as their total. */
  lemma ClockTextReadsBack(h: nat, m: nat, sec: nat)
    requires m < 60 && sec < 60
    ensures ClockValue(ClockText(h, m, sec)) == Some(h * 3600 + m * 60 + sec)
  {
    if h > 0 {
      HoursReadBack(h, m, sec);
    } else {
      MinutesReadBack(m, sec);
    }
  }

  /** `H:MM:SS` reads back as its total. */
  lemma HoursReadBack(h: nat, m: nat, sec: nat)
    requires 0 < h && m < 60 && sec < 60
    ensures ClockValue(ClockText(h, m, sec)) == Some(h * 3600 + m * 60 + sec)
  {
    var hs, ms, ss := Text.Decimal(h), Text.Pad2(m), Text.Pad2(sec);
    SplitJoin3(hs, ms, ss);
    ThreeFields(hs, ms, ss);
    ReadsBack(hs + [':'] + ms + [':'] + ss, [hs, ms, ss], h * 3600 + m * 60 + sec);
  }

  /** `M:SS` reads back as its total. */
  lemma MinutesReadBack(m: nat, sec: nat)
    requires m < 60 && sec < 60
    ensures ClockValue(ClockText(0, m, sec)) == Some(m * 60 + sec)
  {
    var ms, ss := Text.Decimal(m), Text.Pad2(sec);
    SplitJoin2(ms, ss);
    TwoFields(ms, ss);
    ReadsBack(ms + [':'] + ss, [ms, ss], m * 60 + sec);
  }

  /** A text whose fields read back as a value reads back as that value. */
  lemma ReadsBack(text: string, fields: seq<string>, value: nat)
    requires Text.Split(text, ':') == fields && ClockParts(fields) == Some(value)
    ensures ClockValue(text) == Some(value)
  {
  }

  /** formatDuration loses nothing: the clock text reads back as the same number of seconds, in
      three fields from one hour on and in two below it. */
  lemma FormatDurationRoundTrip(seconds: nat)
    ensures ClockValue(FormatDuration(seconds)) == Some(seconds)
    ensures |Text.Split(FormatDuration(seconds), ':')| == (if seconds >= 3600 then 3 else 2)
  {
    var h, m, sec := seconds / 3600, (seconds % 3600) / 60, seconds % 60;
    var text := FormatDuration(seconds);
    ClockArithmetic(seconds);
    assert text == ClockText(h, m, sec);
    assert ClockValue(text) == Some(seconds) by {
      ClockTextReadsBack(h, m, sec);
    }
    assert |Text.Split(text, ':')| == (if h > 0 then 3 else 2) by {
      ClockTextPieces(h, m, sec);
    }
  }

  // ---------------------------------------------------------------- the recorder

  class VoiceRecorder {
    var recording: Option<Recording>
    var recordingUri: Option<string>
    var startTime: int

    constructor ()
      ensures recording.None? && recordingUri.None? && startTime == 0
    {
      recording := None;
      recordingUri := None;
      startTime := 0;
    }

    /** isRecording. */
    function IsRecording(): (b: bool)
      reads this
      ensures b <==> recording.Some?
    {
      recording != None
    }

    /** startRecording: asks for permission, sets the audio mode and creates a recording; any
        failure is thrown with no field touched. On success the recording is held, the start time
        is now and the last uri is forgotten. */
    method StartRecording(permission: PermissionReply, audioModeOk: bool, created: Option<Recording>, now: int)
      returns (ok: bool)
      modifies this
      ensures ok <==> PermissionGranted(permission) && audioModeOk && created.Some?
      ensures !PermissionGranted(permission) ==> !ok
      ensures ok ==> recording == created && startTime == now && recordingUri.None?
      ensures !ok ==> recording == old(recording) && recordingUri == old(recordingUri) && startTime == old(startTime)
    {
      var hasPermission := PermissionGranted(permission);
      if !hasPermission {
        return false;
      }
      if !audioModeOk || created.None? {
        return false;
      }
      recording := created;
      startTime := now;
      recordingUri := None;
      return true;
    }

    /** stopRecording: null with nothing changed when idle. Otherwise the recording is released
        either way; on success (a non-empty uri) the uri is kept and the start time reset. */
    method StopRecording(unload: UnloadReply, audioModeOk: bool, uri: Option<string>, now: int)
      returns (r: StopResult)
      modifies this
      ensures old(recording).None? ==> r == NoRecording && recording.None?
                                       && recordingUri == old(recordingUri) && startTime == old(startTime)
      ensures old(recording).Some? ==> recording.None? && r != NoRecording
      ensures old(recording).Some? && r.StopThrew? ==> recordingUri == old(recordingUri) && startTime == old(startTime)
      ensures r.Stopped? <==> old(recording).Some? && unload.Unloaded? && audioModeOk && uri.Some? && uri.value != []
      ensures r.Stopped? ==> recordingUri == Some(r.uri) && r.uri == uri.value && startTime == 0
                             && r.duration == DurationSeconds(unload.durationMillis, now, old(startTime))
    {
      if recording.None? {
        return NoRecording;
      }
      if unload.UnloadThrew? || !audioModeOk || uri.None? || uri.value == [] {
        recording := None;
        return StopThrew;
      }
      var duration := DurationSeconds(unload.durationMillis, now, startTime);
      recordingUri := uri;
      recording := None;
      startTime := 0;
      return Stopped(uri.value, duration);
    }

    /** cancelRecording: releases a held recording and resets the start time; a failure is
        swallowed and leaves every field as it was. */
    method CancelRecording(unloadOk: bool, audioModeOk: bool)
      modifies this
      ensures recordingUri == old(recordingUri)
      ensures old(recording).Some? && unloadOk && audioModeOk ==> recording.None? && startTime == 0
      ensures !(old(recording).Some? && unloadOk && audioModeOk) ==>
                recording == old(recording) && startTime == old(startTime)
    {
      if recording.Some? {
        if unloadOk && audioModeOk {
          recording := None;
          startTime := 0;
        }
      }
    }
  }
}
