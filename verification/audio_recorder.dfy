/** `formatTime` of components/chat/AudioRecorderModal.tsx: a whole number
    of seconds as `mm:ss`, each part written in decimal and padded on the
    left with zeros to at least two digits. */
module AudioRecorder {

  import opened Wrappers
  import opened Text
  import opened AiService
  import opened ChatMessage

  function DigitChar(d: nat): (c: char)
    requires d < 10
    ensures IsDigit(c) && (c as int) - ('0' as int) == d
  {
    (('0' as int) + d) as char
  }

  /** `n.toString()` for a whole number. */
  function Decimal(n: nat): (r: string)
    ensures 1 <= |r| && AllDigits(r)
    ensures n < 10 ==> |r| == 1
    ensures 10 <= n < 100 ==> |r| == 2
    ensures n >= 10 ==> |r| >= 2
  {
    if n < 10 then [DigitChar(n)] else Decimal(n / 10) + [DigitChar(n % 10)]
  }

  /** The number a string of decimal digits denotes. */
  function DigitsValue(s: string): nat
    requires AllDigits(s)
  {
    if |s| == 0 then 0
    else DigitsValue(s[..|s| - 1]) * 10 + ((s[|s| - 1] as int) - ('0' as int))
  }

  lemma {:induction false} DecimalValue(n: nat)
    ensures DigitsValue(Decimal(n)) == n
  {
    if n >= 10 {
      DecimalValue(n / 10);
      var r := Decimal(n);
      assert r[..|r| - 1] == Decimal(n / 10);
    }
  }

  function Zeros(k: nat): (r: string)
    ensures |r| == k && AllDigits(r)
    ensures forall i :: 0 <= i < k ==> r[i] == '0'
  {
    if k == 0 then "" else "0" + Zeros(k - 1)
  }

  /** `s.padStart(width, '0')` */
  function PadStart(s: string, width: nat): (r: string)
    ensures |r| == if |s| >= width then |s| else width
    ensures r[|r| - |s|..] == s
  {
    if |s| >= width then s else Zeros(width - |s|) + s
  }

  /** Leading zeros do not change a number. */
  lemma {:induction false} LeadingZerosValue(k: nat, s: string)
    requires AllDigits(s)
    ensures AllDigits(Zeros(k) + s) && DigitsValue(Zeros(k) + s) == DigitsValue(s)
    decreases |s|, k
  {
    var z := Zeros(k) + s;
    assert AllDigits(z) by {
      forall i | 0 <= i < |z| ensures IsDigit(z[i]) {
        if i >= k { assert z[i] == s[i - k]; }
      }
    }
    if |s| == 0 {
      if k > 0 {
        assert z[..|z| - 1] == Zeros(k - 1) + "" by { assert Zeros(k)[..k - 1] == Zeros(k - 1); }
        LeadingZerosValue(k - 1, "");
      }
    } else {
      assert z[..|z| - 1] == Zeros(k) + s[..|s| - 1];
      LeadingZerosValue(k, s[..|s| - 1]);
    }
  }

  /** `formatTime(seconds)` */
  function FormatTime(seconds: nat): string {
    Clock(seconds / 60, seconds % 60)
  }

  /** Minutes and seconds, each padded to two digits, around a colon. */
  function Clock(minutes: nat, secs: nat): string {
    PadStart(Decimal(minutes), 2) + ":" + PadStart(Decimal(secs), 2)
  }

  /** Reading `mm:ss` back: two digit strings around one colon, the
      seconds below 60. */
  function ParseTime(s: string): Option<nat> {
    ParseParts(Split(s, ':'))
  }

  function ParseParts(parts: seq<string>): Option<nat> {
    if |parts| == 2 && AllDigits(parts[0]) && AllDigits(parts[1]) && DigitsValue(parts[1]) < 60
    then Some(DigitsValue(parts[0]) * 60 + DigitsValue(parts[1]))
    else None
  }

  lemma PaddedDecimal(n: nat)
    ensures AllDigits(PadStart(Decimal(n), 2)) && DigitsValue(PadStart(Decimal(n), 2)) == n
  {
    DecimalValue(n);
    var d := Decimal(n);
    if |d| < 2 {
      LeadingZerosValue(2 - |d|, d);
    }
  }

  /** The display reads back as the number of seconds it was made from. */
  lemma FormatTimeRoundTrip(seconds: nat)
    ensures ParseTime(FormatTime(seconds)) == Some(seconds)
  {
    ClockRoundTrip(seconds / 60, seconds % 60);
    assert (seconds / 60) * 60 + seconds % 60 == seconds;
  }

  lemma ClockRoundTrip(minutes: nat, secs: nat)
    requires secs < 60
    ensures ParseTime(Clock(minutes, secs)) == Some(minutes * 60 + secs)
  {
    var mm, ss := PadStart(Decimal(minutes), 2), PadStart(Decimal(secs), 2);
    PaddedDecimal(minutes);
    PaddedDecimal(secs);
    ParseJoined(mm, ss);
  }

  /** The display is the whole minutes and the remaining seconds, each a
      digit string, around one colon. */
  lemma FormatTimeParts(seconds: nat)
    ensures var parts := Split(FormatTime(seconds), ':');
      && |parts| == 2 && AllDigits(parts[0]) && AllDigits(parts[1])
      && DigitsValue(parts[0]) == seconds / 60
      && DigitsValue(parts[1]) == seconds % 60
  {
    ClockParts(seconds / 60, seconds % 60);
  }

  lemma ClockParts(minutes: nat, secs: nat)
    ensures var parts := Split(Clock(minutes, secs), ':');
      && |parts| == 2 && AllDigits(parts[0]) && AllDigits(parts[1])
      && DigitsValue(parts[0]) == minutes
      && DigitsValue(parts[1]) == secs
  {
    var mm, ss := PadStart(Decimal(minutes), 2), PadStart(Decimal(secs), 2);
    PaddedDecimal(minutes);
    PaddedDecimal(secs);
    SplitAtColon(mm, ss);
  }

  /** Conversely, whatever reads back as n is the minutes of n and its
      remaining seconds around a colon. */
  lemma ParseTimeSound(s: string, n: nat)
    requires ParseTime(s) == Some(n)
    ensures var parts := Split(s, ':');
      && |parts| == 2 && AllDigits(parts[0]) && AllDigits(parts[1])
      && DigitsValue(parts[0]) == n / 60
      && DigitsValue(parts[1]) == n % 60
  {
    var parts := Split(s, ':');
    ParseThroughParts(s, parts);
    MinutesAndSeconds(DigitsValue(parts[0]), DigitsValue(parts[1]));
  }

  lemma MinutesAndSeconds(minutes: nat, secs: nat)
    requires secs < 60
    ensures (minutes * 60 + secs) / 60 == minutes && (minutes * 60 + secs) % 60 == secs
  {
  }

  /** Two digit strings around a colon read back as minutes and seconds. */
  lemma ParseJoined(mm: string, ss: string)
    requires AllDigits(mm) && AllDigits(ss) && DigitsValue(ss) < 60
    ensures ParseTime(mm + ":" + ss) == Some(DigitsValue(mm) * 60 + DigitsValue(ss))
  {
    SplitAtColon(mm, ss);
    ParseThroughParts(mm + ":" + ss, [mm, ss]);
    PartsValue(mm, ss);
  }

  lemma ParseThroughParts(s: string, parts: seq<string>)
    requires Split(s, ':') == parts
    ensures ParseTime(s) == ParseParts(parts)
  {
  }

  lemma PartsValue(mm: string, ss: string)
    requires AllDigits(mm) && AllDigits(ss) && DigitsValue(ss) < 60
    ensures ParseParts([mm, ss]) == Some(DigitsValue(mm) * 60 + DigitsValue(ss))
  {
  }

  lemma SplitAtColon(mm: string, ss: string)
    requires AllDigits(mm) && AllDigits(ss)
    ensures Split(mm + ":" + ss, ':') == [mm, ss]
  {
    DigitsHaveNoColon(mm);
    DigitsHaveNoColon(ss);
    var parts := [mm, ss];
    assert Join(parts, ':') == mm + ":" + ss by {
      assert parts[1..] == [ss];
    }
    SplitJoin(parts, ':');
  }

  lemma DigitsHaveNoColon(s: string)
    requires AllDigits(s)
    ensures ':' !in s
  {
  }

  /** Under 100 minutes the display is always five characters, `mm:ss`. */
  lemma FormatTimeShape(seconds: nat)
    requires seconds < 6000
    ensures |FormatTime(seconds)| == 5 && FormatTime(seconds)[2] == ':'
  {
    ClockShape(seconds / 60, seconds % 60);
  }

  lemma ClockShape(minutes: nat, secs: nat)
    requires minutes < 100 && secs < 100
    ensures |Clock(minutes, secs)| == 5 && Clock(minutes, secs)[2] == ':'
  {
    var mm, ss := PadStart(Decimal(minutes), 2), PadStart(Decimal(secs), 2);
    assert |mm| == 2 && |ss| == 2;
  }

  /** A recording that has just started shows `00:00`. */
  lemma FormatTimeAtStart()
    ensures FormatTime(0) == "00:00"
  {
    assert Decimal(0) == "0";
    assert PadStart("0", 2) == "00";
  }

  /** The playback side of the recorder: the object URL of the finished
      recording, if any, whether an audio element exists yet, and whether it
      is playing. */
  datatype Player = Player(audioUrl: Option<string>, hasElement: bool, playing: bool)

  /** `togglePlayback()`: nothing without a recording; otherwise the audio
      element is created on first use and play and pause alternate. */
  function TogglePlayback(p: Player): (r: Player)
    ensures p.audioUrl.None? ==> r == p
    ensures p.audioUrl.Some? ==> r.audioUrl == p.audioUrl && r.hasElement && r.playing != p.playing
  {
    if p.audioUrl.None? then p
    else Player(p.audioUrl, true, !p.playing)
  }

  /** Toggling twice with a recording present returns to the same playing
      state, with the element in place. */
  lemma TogglePlaybackTwice(p: Player)
    requires p.audioUrl.Some?
    ensures TogglePlayback(TogglePlayback(p)) == p.(hasElement := true)
  {
  }

  const VoiceType := "audio/webm"

  /** What `handleSend` hands on: the file passed to `onSend`, and whether the
      modal was closed. */
  datatype Handoff = Handoff(sent: Option<File>, closed: bool)

  /** `handleSend()`. The recording is fetched back from its URL (the
      `fetched` outcome, its size in bytes) and wrapped as
      `voice-<now>.webm` of type `audio/webm`; a failed fetch is swallowed. */
  function HandleSend(audioUrl: Option<string>, fetched: Result<nat>, now: nat): (r: Handoff)
    ensures r.closed <==> r.sent.Some?
    ensures r.sent.Some? <==> audioUrl.Some? && fetched.Ok?
    ensures r.sent.Some? ==>
      r.sent.value == File("voice-" + Decimal(now) + ".webm", VoiceType, fetched.value)
  {
    if audioUrl.None? then Handoff(None, false)
    else match fetched
      case Ok(size) => Handoff(Some(File("voice-" + Decimal(now) + ".webm", VoiceType, size)), true)
      case Err(_) => Handoff(None, false)
  }

  /** A sent voice note is shown in the transcript with the audio player. */
  lemma SentVoiceIsAudio(audioUrl: Option<string>, fetched: Result<nat>, now: nat)
    requires HandleSend(audioUrl, fetched, now).sent.Some?
    ensures KindOf(HandleSend(audioUrl, fetched, now).sent.value.mimeType) == AudioKind
  {
    assert StartsWith(VoiceType, "audio/") by { assert VoiceType[..6] == "audio/"; }
  }
}
