/** The speech recorder (frontend/src/modals/RecordMemoryModal.js; the
    older frontend/src/components/modals/RecordMemoryModal.js has the same
    state machine and formatter). Three views, idle, recording and saved;
    a one-second interval counts seconds only while recording; the recorded
    title is handed to the caller's `onSaveSpeech` when it is not blank. */
module RecordMemory {
  import opened Base
  import opened Text

  datatype RecordState = Idle | Recording | Saved

  /** One field of `formatTime`: `n.toString().padStart(2, '0')`. */
  function TwoDigitField(n: nat): (r: string)
    ensures |r| >= 2 && AllDigits(r) && ParseDigits(r) == n
    ensures n < 100 ==> |r| == 2
    ensures n >= 10 ==> r[0] != '0'
  {
    ParseDecimalDigits(n);
    ParsePadded(DecimalDigits(n), 2);
    PadStart(DecimalDigits(n), 2, '0')
  }

  /** `formatTime`: whole minutes and remaining seconds, each written in
      decimal and left-padded with '0' to at least two digits, joined by ':'. */
  function FormatTime(seconds: nat): (r: string)
    ensures |r| >= 5 && r[|r| - 3] == ':'
    ensures AllDigits(MinutesPart(r)) && ParseDigits(MinutesPart(r)) == seconds / 60
    ensures AllDigits(SecondsPart(r)) && ParseDigits(SecondsPart(r)) == seconds % 60
    ensures seconds < 6000 ==> |r| == 5
    ensures seconds >= 600 ==> r[0] != '0'
  {
    var minutes := TwoDigitField(seconds / 60);
    var secs := TwoDigitField(seconds % 60);
    assert seconds < 6000 ==> seconds / 60 < 100;
    assert seconds >= 600 ==> seconds / 60 >= 10;
    JoinedFields(minutes, secs);
    minutes + ":" + secs
  }

  /** Everything before the ":" of a clock text "M..M:SS". */
  function MinutesPart(t: string): string
    requires |t| >= 3
  {
    t[..|t| - 3]
  }

  /** The last two characters of a clock text. */
  function SecondsPart(t: string): string
    requires |t| >= 2
  {
    t[|t| - 2..]
  }

  lemma JoinedFields(a: string, b: string)
    requires |b| == 2
    ensures var r := a + ":" + b;
      |r| == |a| + 3 && MinutesPart(r) == a && r[|r| - 3] == ':' && SecondsPart(r) == b
  {
    var r := a + ":" + b;
    assert r[..|r| - 3] == a;
    assert r[|r| - 2..] == b;
  }

  /** Reads "MM:SS" (any number of minute digits, two second digits in
      00..59) back into seconds. */
  function ParseClock(t: string): (r: Option<nat>)
    ensures r.Some? ==> |t| >= 4 && t[|t| - 3] == ':'
  {
    if |t| >= 4 && t[|t| - 3] == ':' && AllDigits(MinutesPart(t)) && AllDigits(SecondsPart(t))
       && ParseDigits(SecondsPart(t)) < 60
    then Some(60 * ParseDigits(MinutesPart(t)) + ParseDigits(SecondsPart(t)))
    else None
  }

  /** The displayed time always reads back as the timer value, so two
      different timer values never display alike. */
  lemma FormatTimeRoundTrip(seconds: nat, other: nat)
    ensures ParseClock(FormatTime(seconds)) == Some(seconds)
    ensures FormatTime(seconds) == FormatTime(other) ==> seconds == other
  {
    ReadBack(seconds);
    ReadBack(other);
  }

  lemma ReadBack(seconds: nat)
    ensures ParseClock(FormatTime(seconds)) == Some(seconds)
  {
    var r := FormatTime(seconds);
    var m, sc := ParseDigits(MinutesPart(r)), ParseDigits(SecondsPart(r));
    assert m == seconds / 60 && sc == seconds % 60;
    assert 60 * (seconds / 60) + seconds % 60 == seconds && seconds % 60 < 60;
    assert ParseClock(r) == Some(60 * m + sc);
  }

  /** Under 100 minutes the display is exactly "MM:SS". */
  lemma FormatTimeShape(seconds: nat)
    requires seconds < 6000
    ensures |FormatTime(seconds)| == 5 && FormatTime(seconds)[2] == ':'
    ensures forall i :: 0 <= i < 5 && i != 2 ==> IsDigit(FormatTime(seconds)[i])
    ensures '0' <= FormatTime(seconds)[3] <= '5'
  {
    var r := FormatTime(seconds);
    var sp := SecondsPart(r);
    assert r[..2] == MinutesPart(r) && r[3..] == sp;
    assert IsDigit(r[0]) && IsDigit(r[1]);
    assert sp[0] == r[3] && sp[1] == r[4];
    assert seconds % 60 < 60;
    SecondsField(sp);
  }

  /** A two-digit numeral below 60 starts with 0..5. */
  lemma SecondsField(sp: string)
    requires |sp| == 2 && AllDigits(sp) && ParseDigits(sp) < 60
    ensures '0' <= sp[0] <= '5' && IsDigit(sp[1])
  {
    assert sp[..1] == [sp[0]];
    assert [sp[0]][..0] == [];
    assert ParseDigits(sp) == 10 * DigitValue(sp[0]) + DigitValue(sp[1]);
  }

  class Recorder {
    var recordState: RecordState
    var timer: nat
    var title: string

    constructor ()
      ensures recordState == Idle && timer == 0 && title == ""
    {
      recordState, timer, title := Idle, 0, "";
    }

    /** The text shown under the microphone while recording. */
    function Display(): (r: string)
      reads this
      ensures ParseClock(r) == Some(timer)
    {
      FormatTimeRoundTrip(timer, timer);
      FormatTime(timer)
    }

    /** One firing of the one-second interval: it exists only while
        recording, so in idle and saved the timer is frozen. */
    method Tick()
      modifies this
      ensures timer == if old(recordState) == Recording then old(timer) + 1 else old(timer)
      ensures recordState == old(recordState) && title == old(title)
    {
      if recordState == Recording {
        timer := timer + 1;
      }
    }

    /** `startRecording`. */
    method StartRecording()
      modifies this
      ensures recordState == Recording && timer == old(timer) && title == old(title)
    {
      recordState := Recording;
    }

    /** The title input's `onChange`. */
    method SetTitle(t: string)
      modifies this
      ensures title == t && recordState == old(recordState) && timer == old(timer)
    {
      title := t;
    }

    /** `saveRecording`: always moves to saved; `speech` is the argument
        passed to `onSaveSpeech`, which is called only for a non-blank title
        (the title itself, untrimmed). */
    method SaveRecording() returns (speech: Option<string>)
      modifies this
      ensures recordState == Saved && timer == old(timer) && title == old(title)
      ensures speech == if IsBlank(old(title)) then None else Some(old(title))
    {
      if !IsBlank(title) {
        speech := Some(title);
      } else {
        speech := None;
      }
      recordState := Saved;
    }

    /** `resetRecording` ("New Recording"). */
    method ResetRecording()
      modifies this
      ensures recordState == Idle && timer == 0 && title == ""
    {
      timer, title, recordState := 0, "", Idle;
    }
  }
}
