// The input manager: the events of a frame, qwerty note input with its octave,
// the capture of MIDI note-on/note-off messages into recorded notes, and the
// editing of text and numbers by typed characters.
//
// The key bindings, the keyboard and the MIDI device are not modelled: what
// they yield on a frame (the events whose qwerty or MIDI bindings fired, the
// typed characters, whether backspace is down, the polled MIDI messages)
// arrives as parameters of `Update`.

module InputManager {
  import opened Common

  type Byte = x: nat | x < 256

  /** The application-level input events. */
  datatype InputEvent =
    | Quit | AppTTS | StatusTTS | InputTTS | FileTTS | StopTTS
    | ToggleAlphanumericInput | UpDirectory | DownDirectory | SelectFile
    | NextPath | PreviousPath | CloseOpenFile
    | C | CSharp | D | DSharp | E | F | FSharp | G | GSharp | A | ASharp | B
    | OctaveUp | OctaveDown
    | Undo | Redo | NextPanel | PreviousPanel
    | Arm | PianoRollToggleTracks | PianoRollPreviousTrack | PianoRollNextTrack
    | InputBeatLeft | InputBeatRight | CopyNotes | CutNotes | DeleteNotes | PasteNotes
    | PreviousExportSetting | NextExportSetting
    | PreviousExportSettingValue | NextExportSettingValue | ToggleExportSettingBoolean
    | Other(name: string)

  /** The events that survive while a text field takes alphanumeric input. */
  const ALLOWED_DURING_ALPHANUMERIC_INPUT: seq<InputEvent> := [
    Quit, AppTTS, StatusTTS, InputTTS, FileTTS, ToggleAlphanumericInput,
    UpDirectory, DownDirectory, SelectFile, NextPath, PreviousPath, CloseOpenFile]

  const MAX_OCTAVE: nat := 9

  /** A three-byte MIDI channel message. */
  datatype MidiMessage = MidiMessage(status: Byte, key: Byte, velocity: Byte)

  /** A captured note-on, and whether its key has been released. */
  datatype NoteOn = NoteOn(note: MidiMessage, off: bool)

  /** Note-on status bytes: 0x90 to 0x9F, one per channel. */
  predicate IsNoteOnStatus(s: Byte)
  {
    0x90 <= s <= 0x9F
  }

  /** Note-off status bytes: 0x80 to 0x8F, one per channel. */
  predicate IsNoteOffStatus(s: Byte)
  {
    0x80 <= s <= 0x8F
  }

  /** Keeps the events allowed during alphanumeric input, in order. */
  function KeepAllowed(events: seq<InputEvent>): (r: seq<InputEvent>)
    ensures |r| <= |events|
  {
    if events == [] then []
    else
      var head := if events[0] in ALLOWED_DURING_ALPHANUMERIC_INPUT then [events[0]] else [];
      head + KeepAllowed(events[1..])
  }

  /** The kept events are exactly the allowed ones among the frame's events. */
  lemma {:induction false} KeepAllowedExactly(events: seq<InputEvent>, e: InputEvent)
    ensures e in KeepAllowed(events) <==> e in events && e in ALLOWED_DURING_ALPHANUMERIC_INPUT
  {
    if events != [] {
      KeepAllowedExactly(events[1..], e);
      assert events == [events[0]] + events[1..];
    }
  }

  // Qwerty notes.

  /** The semitone of the twelve note events, C = 0 to B = 11. */
  function Semitone(e: InputEvent): Option<nat>
  {
    match e
    case C => Some(0)
    case CSharp => Some(1)
    case D => Some(2)
    case DSharp => Some(3)
    case E => Some(4)
    case F => Some(5)
    case FSharp => Some(6)
    case G => Some(7)
    case GSharp => Some(8)
    case A => Some(9)
    case ASharp => Some(10)
    case B => Some(11)
    case _ => None
  }

  /** The note-on a qwerty note key sends: channel 0, a key counted down from the
      top octave, and the input volume. */
  function QwertyMessage(octave: nat, semitone: nat, volume: Byte): (m: MidiMessage)
    requires octave <= MAX_OCTAVE && semitone < 12
    ensures IsNoteOnStatus(m.status) && m.key <= 119 && m.velocity == volume
    ensures m.key % 12 == semitone
  {
    MidiMessage(144, (MAX_OCTAVE - octave) * 12 + semitone, volume)
  }

  /** Distinct octaves or semitones play distinct keys. */
  lemma QwertyMessageInjective(o1: nat, s1: nat, o2: nat, s2: nat, volume: Byte)
    requires o1 <= MAX_OCTAVE && s1 < 12 && o2 <= MAX_OCTAVE && s2 < 12
    requires QwertyMessage(o1, s1, volume) == QwertyMessage(o2, s2, volume)
    ensures o1 == o2 && s1 == s2
  {
    var k := (MAX_OCTAVE - o1) * 12 + s1;
    assert k / 12 == MAX_OCTAVE - o1;
    assert k == (MAX_OCTAVE - o2) * 12 + s2;
    assert k / 12 == MAX_OCTAVE - o2;
  }

  /** The octave and the notes played after a sequence of qwerty events. */
  datatype QwertyOut = QwertyOut(octave: nat, played: seq<MidiMessage>)

  /** One qwerty event: a note key plays a note, octave keys move the octave
      within 0 to 9, other events change nothing. */
  function QwertyStep(q: QwertyOut, e: InputEvent, volume: Byte): (r: QwertyOut)
    requires q.octave <= MAX_OCTAVE
    ensures r.octave <= MAX_OCTAVE
  {
    match Semitone(e)
    case Some(s) => q.(played := q.played + [QwertyMessage(q.octave, s, volume)])
    case None =>
      if e == OctaveUp && q.octave < MAX_OCTAVE then q.(octave := q.octave + 1)
      else if e == OctaveDown && q.octave > 0 then q.(octave := q.octave - 1)
      else q
  }

  /** The qwerty events of a frame, applied in order. */
  function QwertyRun(events: seq<InputEvent>, octave: nat, volume: Byte): (r: QwertyOut)
    requires octave <= MAX_OCTAVE
    ensures r.octave <= MAX_OCTAVE
  {
    if events == [] then QwertyOut(octave, [])
    else QwertyStep(QwertyRun(events[..|events| - 1], octave, volume), events[|events| - 1], volume)
  }

  /** The number of note events in a sequence. */
  function NoteEventCount(events: seq<InputEvent>): nat
  {
    if events == [] then 0
    else NoteEventCount(events[..|events| - 1]) + (if Semitone(events[|events| - 1]).Some? then 1 else 0)
  }

  /** Every note event plays exactly one note; the octave keys play nothing. */
  lemma {:induction false} QwertyRunPlaysOnePerNote(events: seq<InputEvent>, octave: nat, volume: Byte)
    requires octave <= MAX_OCTAVE
    ensures |QwertyRun(events, octave, volume).played| == NoteEventCount(events)
  {
    if events != [] {
      QwertyRunPlaysOnePerNote(events[..|events| - 1], octave, volume);
    }
  }

  // MIDI capture.

  /** The velocity becomes the input volume exactly when the volume is in use. */
  function WithVolume(m: MidiMessage, useVolume: bool, volume: Byte): (r: MidiMessage)
    ensures r.status == m.status && r.key == m.key
    ensures r.velocity == if useVolume then volume else m.velocity
  {
    if useVolume then m.(velocity := volume) else m
  }

  /** Marks every pending note-on of `key` as released. */
  function MarkOff(pending: seq<NoteOn>, key: Byte): (r: seq<NoteOn>)
    ensures |r| == |pending|
    ensures forall i :: 0 <= i < |r| ==>
      r[i].note == pending[i].note && r[i].off == (pending[i].off || pending[i].note.key == key)
  {
    if pending == [] then []
    else [pending[0].(off := pending[0].off || pending[0].note.key == key)] + MarkOff(pending[1..], key)
  }

  /** The pending note-ons and the notes to play now. */
  datatype Capture = Capture(pending: seq<NoteOn>, played: seq<MidiMessage>)

  /** One MIDI message: a note-on is played (and remembered when armed); when
      armed, a note-off releases the pending note-ons of its key. */
  function CaptureStep(c: Capture, m: MidiMessage, armed: bool, useVolume: bool, volume: Byte): Capture
  {
    var c1 :=
      if IsNoteOnStatus(m.status) then
        var m2 := WithVolume(m, useVolume, volume);
        Capture(if armed then c.pending + [NoteOn(m2, false)] else c.pending, c.played + [m2])
      else c;
    if armed && IsNoteOffStatus(m.status) then c1.(pending := MarkOff(c1.pending, m.key)) else c1
  }

  /** The messages of a frame, applied in order; the notes played only grow. */
  function CaptureAll(c: Capture, msgs: seq<MidiMessage>, armed: bool, useVolume: bool, volume: Byte): (r: Capture)
    ensures c.played <= r.played
  {
    if msgs == [] then c
    else CaptureStep(CaptureAll(c, msgs[..|msgs| - 1], armed, useVolume, volume), msgs[|msgs| - 1], armed, useVolume, volume)
  }

  /** The note-on messages among `msgs`, in order, with the volume applied. */
  function NoteOnsOf(msgs: seq<MidiMessage>, useVolume: bool, volume: Byte): seq<MidiMessage>
  {
    if msgs == [] then []
    else
      var head := if IsNoteOnStatus(msgs[0].status) then [WithVolume(msgs[0], useVolume, volume)] else [];
      head + NoteOnsOf(msgs[1..], useVolume, volume)
  }

  lemma {:induction false} NoteOnsOfAppend(a: seq<MidiMessage>, m: MidiMessage, useVolume: bool, volume: Byte)
    ensures NoteOnsOf(a + [m], useVolume, volume) == NoteOnsOf(a, useVolume, volume) + NoteOnsOf([m], useVolume, volume)
  {
    if a != [] {
      assert (a + [m])[1..] == a[1..] + [m];
      NoteOnsOfAppend(a[1..], m, useVolume, volume);
    }
  }

  /** The notes played are exactly the frame's note-on messages, in order, armed or not. */
  lemma {:induction false} CapturePlaysNoteOns(c: Capture, msgs: seq<MidiMessage>, armed: bool, useVolume: bool, volume: Byte)
    ensures CaptureAll(c, msgs, armed, useVolume, volume).played == c.played + NoteOnsOf(msgs, useVolume, volume)
  {
    if msgs != [] {
      var init := msgs[..|msgs| - 1];
      CapturePlaysNoteOns(c, init, armed, useVolume, volume);
      NoteOnsOfAppend(init, msgs[|msgs| - 1], useVolume, volume);
      assert msgs == init + [msgs[|msgs| - 1]];
    }
  }

  /** Unarmed, nothing is remembered for recording. */
  lemma {:induction false} UnarmedCaptureKeepsPending(c: Capture, msgs: seq<MidiMessage>, useVolume: bool, volume: Byte)
    ensures CaptureAll(c, msgs, false, useVolume, volume).pending == c.pending
  {
    if msgs != [] {
      UnarmedCaptureKeepsPending(c, msgs[..|msgs| - 1], useVolume, volume);
    }
  }

  predicate AllOff(pending: seq<NoteOn>)
  {
    forall i :: 0 <= i < |pending| ==> pending[i].off
  }

  function NotesOf(pending: seq<NoteOn>): (r: seq<MidiMessage>)
    ensures |r| == |pending| && forall i :: 0 <= i < |r| ==> r[i] == pending[i].note
  {
    seq(|pending|, i requires 0 <= i < |pending| => pending[i].note)
  }

  /** Once every pending note-on is released, they all become new notes and the
      pending list empties; otherwise nothing moves. */
  function Flush(pending: seq<NoteOn>): (r: (seq<MidiMessage>, seq<NoteOn>))
    ensures pending != [] && AllOff(pending) ==> r == (NotesOf(pending), [])
    ensures !(pending != [] && AllOff(pending)) ==> r == ([], pending)
  {
    if pending != [] && AllOff(pending) then (NotesOf(pending), []) else ([], pending)
  }

  // Typed text and numbers.

  function Pow10(k: nat): (r: nat)
    ensures r >= 1
  {
    if k == 0 then 1 else 10 * Pow10(k - 1)
  }

  lemma {:induction false} DigitsValueAppend(a: string, b: string)
    requires AllDigits(a) && AllDigits(b)
    ensures AllDigits(a + b)
    ensures DigitsValue(a + b) == DigitsValue(a) * Pow10(|b|) + DigitsValue(b)
  {
    if b == [] {
      assert a + b == a;
    } else {
      var b0 := b[..|b| - 1];
      assert (a + b)[..|a + b| - 1] == a + b0;
      assert (a + b)[|a + b| - 1] == b[|b| - 1];
      DigitsValueAppend(a, b0);
      var x, p, y, d := DigitsValue(a), Pow10(|b0|), DigitsValue(b0), DigitValue(b[|b| - 1]);
      assert DigitsValue(b) == y * 10 + d;
      assert DigitsValue(a + b) == (x * p + y) * 10 + d;
      assert Pow10(|b|) == 10 * p;
      ShiftDistributes(x, p, y, d);
    }
  }

  lemma ShiftDistributes(x: nat, p: nat, y: nat, d: nat)
    ensures (x * p + y) * 10 + d == x * (10 * p) + (y * 10 + d)
  {
  }

  /** The typed characters that are ASCII digits, in order. */
  function DigitsOnly(chars: seq<char>): (r: string)
    ensures AllDigits(r) && |r| <= |chars|
  {
    if chars == [] then []
    else (if IsDigit(chars[0]) then [chars[0]] else []) + DigitsOnly(chars[1..])
  }

  /** The input manager's per-frame state. */
  class Input {
    var events: seq<InputEvent>
    var playNow: seq<MidiMessage>
    var noteOnEvents: seq<NoteOn>
    var newNotes: seq<MidiMessage>
    var qwertyOctave: nat
    var backspace: bool
    var pressedChars: seq<char>

    predicate Valid()
      reads this
    {
      qwertyOctave <= MAX_OCTAVE
    }

    constructor ()
      ensures Valid() && qwertyOctave == 4
      ensures events == [] && playNow == [] && noteOnEvents == [] && newNotes == []
      ensures !backspace && pressedChars == []
    {
      events, playNow, noteOnEvents, newNotes := [], [], [], [];
      qwertyOctave := 4;
      backspace, pressedChars := false, [];
    }

    /** `happened`: the event began on this frame. */
    predicate Happened(e: InputEvent)
      reads this
    {
      e in events
    }

    /** Plays a qwerty note now, and records it when armed. */
    method QwertyNote(semitone: nat, armed: bool, volume: Byte)
      requires Valid() && semitone < 12
      modifies this`playNow, this`newNotes
      ensures playNow == old(playNow) + [QwertyMessage(qwertyOctave, semitone, volume)]
      ensures newNotes == if armed then old(newNotes) + [QwertyMessage(qwertyOctave, semitone, volume)] else old(newNotes)
    {
      var m := QwertyMessage(qwertyOctave, semitone, volume);
      if armed {
        newNotes := newNotes + [m];
      }
      playNow := playNow + [m];
    }

    /** Applies one polled MIDI message to the pending note-ons and the notes to play. */
    method CaptureMessage(m: MidiMessage, armed: bool, useVolume: bool, volume: Byte)
      modifies this`noteOnEvents, this`playNow
      ensures Capture(noteOnEvents, playNow) == CaptureStep(Capture(old(noteOnEvents), old(playNow)), m, armed, useVolume, volume)
    {
      ghost var c0 := Capture(noteOnEvents, playNow);
      if IsNoteOnStatus(m.status) {
        var m2 := if useVolume then MidiMessage(m.status, m.key, volume) else m;
        if armed {
          noteOnEvents := noteOnEvents + [NoteOn(m2, false)];
        }
        playNow := playNow + [m2];
      }
      if armed && IsNoteOffStatus(m.status) {
        ghost var before, played := noteOnEvents, playNow;
        var j := 0;
        while j < |noteOnEvents|
          invariant 0 <= j <= |noteOnEvents| == |before|
          invariant playNow == played
          invariant forall k :: 0 <= k < j ==>
            noteOnEvents[k] == before[k].(off := before[k].off || before[k].note.key == m.key)
          invariant forall k :: j <= k < |noteOnEvents| ==> noteOnEvents[k] == before[k]
        {
          if noteOnEvents[j].note.key == m.key {
            noteOnEvents := noteOnEvents[j := noteOnEvents[j].(off := true)];
          }
          j := j + 1;
        }
        assert noteOnEvents == MarkOff(before, m.key);
      }
      assert IsNoteOnStatus(m.status) ==> !IsNoteOffStatus(m.status);
    }

    /** Moves the pending note-ons to the new notes once all of them are released. */
    method FlushNotes()
      modifies this`noteOnEvents, this`newNotes
      ensures newNotes == old(newNotes) + Flush(old(noteOnEvents)).0
      ensures noteOnEvents == Flush(old(noteOnEvents)).1
    {
      var allOff := true;
      var j := 0;
      while j < |noteOnEvents|
        invariant 0 <= j <= |noteOnEvents|
        invariant allOff <==> forall k :: 0 <= k < j ==> noteOnEvents[k].off
        invariant noteOnEvents == old(noteOnEvents) && newNotes == old(newNotes)
      {
        allOff := allOff && noteOnEvents[j].off;
        j := j + 1;
      }
      if |noteOnEvents| > 0 && allOff {
        assert AllOff(noteOnEvents);
        var i := 0;
        while i < |noteOnEvents|
          invariant 0 <= i <= |noteOnEvents|
          invariant newNotes == old(newNotes) + NotesOf(noteOnEvents)[..i]
          invariant noteOnEvents == old(noteOnEvents)
        {
          assert NotesOf(noteOnEvents)[..i + 1] == NotesOf(noteOnEvents)[..i] + [noteOnEvents[i].note];
          newNotes := newNotes + [noteOnEvents[i].note];
          i := i + 1;
        }
        assert NotesOf(noteOnEvents)[..i] == NotesOf(noteOnEvents);
        noteOnEvents := [];
      }
    }

    /** One frame of input.

        `keyEvents` are the events whose qwerty bindings fired, `midi` the
        messages polled from the MIDI device (`None` without one) and
        `midiEvents` the events whose MIDI bindings fired on them. */
    method Update(alphanumeric: bool, armed: bool, useVolume: bool, volume: nat,
                  backspaceDown: bool, chars: seq<char>, keyEvents: seq<InputEvent>,
                  midi: Option<seq<MidiMessage>>, midiEvents: seq<InputEvent>)
      requires Valid()
      modifies this
      ensures Valid()
      ensures backspace == backspaceDown && pressedChars == chars
      ensures var q := QwertyRun(keyEvents, old(qwertyOctave), volume % 256);
        && qwertyOctave == q.octave
        && events == (if alphanumeric then KeepAllowed(keyEvents) else keyEvents)
                     + (if !alphanumeric && midi.Some? then midiEvents else [])
        && if alphanumeric || midi.None? then
             && playNow == q.played
             && newNotes == (if armed then q.played else [])
             && noteOnEvents == old(noteOnEvents)
           else
             var c := CaptureAll(Capture(old(noteOnEvents), q.played), midi.value, armed, useVolume, volume % 256);
             && playNow == c.played
             && newNotes == (if armed then q.played else []) + Flush(c.pending).0
             && noteOnEvents == Flush(c.pending).1
    {
      newNotes := [];
      playNow := [];
      backspace := backspaceDown;
      pressedChars := chars;
      var vol: Byte := volume % 256;
      ghost var q := QwertyRun(keyEvents, qwertyOctave, vol);
      QwertyInput(keyEvents, armed, vol);
      assert playNow == [] + q.played == q.played;
      assert newNotes == [] + (if armed then q.played else []);
      events := if alphanumeric then KeepAllowed(keyEvents) else keyEvents;
      if !alphanumeric && midi.Some? {
        events := events + midiEvents;
        MidiInput(midi.value, armed, useVolume, vol);
      }
    }

    /** The qwerty part of a frame: note keys and octave keys, in order. */
    method QwertyInput(keyEvents: seq<InputEvent>, armed: bool, vol: Byte)
      requires Valid()
      modifies this`qwertyOctave, this`playNow, this`newNotes
      ensures Valid()
      ensures var q := QwertyRun(keyEvents, old(qwertyOctave), vol);
        && qwertyOctave == q.octave
        && playNow == old(playNow) + q.played
        && newNotes == old(newNotes) + (if armed then q.played else [])
    {
      var i := 0;
      while i < |keyEvents|
        invariant 0 <= i <= |keyEvents|
        invariant Valid()
        invariant var q := QwertyRun(keyEvents[..i], old(qwertyOctave), vol);
          && qwertyOctave == q.octave
          && playNow == old(playNow) + q.played
          && newNotes == old(newNotes) + (if armed then q.played else [])
      {
        assert keyEvents[..i + 1][..i] == keyEvents[..i];
        var e := keyEvents[i];
        ghost var q := QwertyRun(keyEvents[..i], old(qwertyOctave), vol);
        assert QwertyRun(keyEvents[..i + 1], old(qwertyOctave), vol) == QwertyStep(q, e, vol);
        match Semitone(e) {
          case Some(s) =>
            QwertyNote(s, armed, vol);
            assert old(playNow) + (q.played + [QwertyMessage(q.octave, s, vol)]) == old(playNow) + q.played + [QwertyMessage(q.octave, s, vol)];
            assert old(newNotes) + (q.played + [QwertyMessage(q.octave, s, vol)]) == old(newNotes) + q.played + [QwertyMessage(q.octave, s, vol)];
          case None =>
            if e == OctaveUp {
              if qwertyOctave < MAX_OCTAVE {
                qwertyOctave := qwertyOctave + 1;
              }
            } else if e == OctaveDown {
              if qwertyOctave > 0 {
                qwertyOctave := qwertyOctave - 1;
              }
            }
        }
        i := i + 1;
      }
      assert keyEvents[..i] == keyEvents;
    }

    /** The MIDI part of a frame: captures each message, then flushes the
        released notes. */
    method MidiInput(msgs: seq<MidiMessage>, armed: bool, useVolume: bool, vol: Byte)
      modifies this`noteOnEvents, this`playNow, this`newNotes
      ensures var c := CaptureAll(Capture(old(noteOnEvents), old(playNow)), msgs, armed, useVolume, vol);
        && playNow == c.played
        && newNotes == old(newNotes) + Flush(c.pending).0
        && noteOnEvents == Flush(c.pending).1
    {
      var k := 0;
      while k < |msgs|
        invariant 0 <= k <= |msgs|
        invariant Capture(noteOnEvents, playNow) == CaptureAll(Capture(old(noteOnEvents), old(playNow)), msgs[..k], armed, useVolume, vol)
        invariant newNotes == old(newNotes)
      {
        assert msgs[..k + 1][..k] == msgs[..k];
        CaptureMessage(msgs[k], armed, useVolume, vol);
        k := k + 1;
      }
      assert msgs[..k] == msgs;
      FlushNotes();
    }

    /** `modify_string`: backspace removes the last character (reporting whether
        there was one); otherwise the typed characters are appended (reporting
        whether there were any). */
    method ModifyString(s: string, chars: seq<char>) returns (modified: bool, r: string)
      ensures backspace ==> modified == (|s| > 0) && r == (if |s| > 0 then s[..|s| - 1] else s)
      ensures !backspace ==> modified == (|chars| > 0) && r == s + chars
    {
      if backspace {
        if |s| > 0 {
          r := s[..|s| - 1];
          modified := true;
        } else {
          r := s;
          modified := false;
        }
      } else if |chars| > 0 {
        r := s;
        var i := 0;
        while i < |chars|
          invariant 0 <= i <= |chars|
          invariant r == s + chars[..i]
        {
          r := r + [chars[i]];
          i := i + 1;
        }
        modified := true;
      } else {
        r := s;
        modified := false;
      }
    }

    /** `modify_u32`: edits the decimal text of `value` with the typed digits and
        reads it back, falling back to 0 when the text is not a 32-bit number.
        Backspace drops the last digit; typed digits are appended, and a number
        that overflows 32 bits becomes 0. */
    method ModifyU32(value: nat) returns (modified: bool, v: nat)
      requires value <= U32_MAX
      ensures v <= U32_MAX
      ensures backspace ==> modified && v == value / 10
      ensures !backspace ==> var d := DigitsOnly(pressedChars);
        && modified == (|d| > 0)
        && v == (if value * Pow10(|d|) + DigitsValue(d) <= U32_MAX then value * Pow10(|d|) + DigitsValue(d) else 0)
    {
      var digits := DigitsOnly(pressedChars);
      var text := NatToString(value);
      var edited;
      modified, edited := ModifyString(text, digits);
      var parsed := ParseU32(edited);
      v := match parsed case Some(x) => x case None => 0;
      if backspace {
        BackspaceDropsDigit(value);
      } else {
        TypedDigitsAppend(value, digits);
      }
    }
  }

  /** Deleting the last digit of a number's text reads back as the number divided
      by ten (a lone digit leaves empty text, which reads as the default 0). */
  lemma BackspaceDropsDigit(value: nat)
    requires value <= U32_MAX
    ensures var s := NatToString(value);
      (match ParseU32(s[..|s| - 1]) case Some(x) => x case None => 0) == value / 10
  {
    var s := NatToString(value);
    if value >= 10 {
      assert s[..|s| - 1] == NatToString(value / 10);
      ParseU32RoundTrip(value / 10);
    }
  }

  /** Appending digits to a number's text reads back as the shifted number plus
      the digits, when that fits in 32 bits. */
  lemma TypedDigitsAppend(value: nat, d: string)
    requires AllDigits(d)
    ensures var s := NatToString(value) + d;
      (match ParseU32(s) case Some(x) => x case None => 0)
      == (if value * Pow10(|d|) + DigitsValue(d) <= U32_MAX then value * Pow10(|d|) + DigitsValue(d) else 0)
  {
    var s := NatToString(value) + d;
    NatToStringRoundTrip(value);
    DigitsValueAppend(NatToString(value), d);
    assert s[0] == NatToString(value)[0];
  }
}
