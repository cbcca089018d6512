// The older input manager of the `cacophony_input` crate. Unlike the current
// one it never clears its note buffers, keeps MIDI velocities as they arrive
// and reads the MIDI device whether or not a text field takes input.

module LegacyInput {
  import opened Common
  import opened InputManager

  class Input {
    var events: seq<InputEvent>
    var noteOns: seq<MidiMessage>
    var noteOnEvents: seq<NoteOn>
    var newNotes: seq<MidiMessage>
    var backspace: bool
    var pressedChars: seq<char>

    constructor ()
      ensures events == [] && noteOns == [] && noteOnEvents == [] && newNotes == []
      ensures !backspace && pressedChars == []
    {
      events, noteOns, noteOnEvents, newNotes := [], [], [], [];
      backspace, pressedChars := false, [];
    }

    /** `happened`: the event began on this frame. */
    function Happened(e: InputEvent): (r: bool)
      reads this
      ensures r <==> exists i :: 0 <= i < |events| && events[i] == e
    {
      e in events
    }

    /** One frame of input: `keyEvents` are the events whose qwerty bindings
        fired, `midi` the polled messages (`None` without a MIDI device) and
        `midiEvents` the events whose MIDI bindings fired on them. The note
        buffers only grow. */
    method Update(armed: bool, backspaceDown: bool, chars: seq<char>, keyEvents: seq<InputEvent>,
                  midi: Option<seq<MidiMessage>>, midiEvents: seq<InputEvent>)
      modifies this
      ensures backspace == backspaceDown && pressedChars == chars
      ensures events == keyEvents + (if midi.Some? then midiEvents else [])
      ensures midi.None? ==> noteOns == old(noteOns) && newNotes == old(newNotes) && noteOnEvents == old(noteOnEvents)
      ensures midi.Some? ==>
        var c := CaptureAll(Capture(old(noteOnEvents), old(noteOns)), midi.value, armed, false, 0);
        && noteOns == c.played
        && newNotes == old(newNotes) + Flush(c.pending).0
        && noteOnEvents == Flush(c.pending).1
      ensures old(noteOns) <= noteOns && old(newNotes) <= newNotes
    {
      backspace := backspaceDown;
      pressedChars := chars;
      events := keyEvents;
      if midi.Some? {
        events := events + midiEvents;
        var msgs := midi.value;
        var k := 0;
        while k < |msgs|
          invariant 0 <= k <= |msgs|
          invariant Capture(noteOnEvents, noteOns) == CaptureAll(Capture(old(noteOnEvents), old(noteOns)), msgs[..k], armed, false, 0)
          invariant newNotes == old(newNotes)
          invariant backspace == backspaceDown && pressedChars == chars
          invariant events == keyEvents + midiEvents
        {
          assert msgs[..k + 1][..k] == msgs[..k];
          CaptureMessage(msgs[k], armed);
          k := k + 1;
        }
        assert msgs[..k] == msgs;
        FlushNotes();
      }
    }

    /** One polled message: a note-on is kept unchanged (and remembered when
        armed); when armed, a note-off releases the pending note-ons of its key. */
    method CaptureMessage(m: MidiMessage, armed: bool)
      modifies this`noteOnEvents, this`noteOns
      ensures Capture(noteOnEvents, noteOns) == CaptureStep(Capture(old(noteOnEvents), old(noteOns)), m, armed, false, 0)
    {
      if IsNoteOnStatus(m.status) {
        if armed {
          noteOnEvents := noteOnEvents + [NoteOn(m, false)];
        }
        noteOns := noteOns + [m];
      }
      if armed && IsNoteOffStatus(m.status) {
        ghost var before, played := noteOnEvents, noteOns;
        var j := 0;
        while j < |noteOnEvents|
          invariant 0 <= j <= |noteOnEvents| == |before|
          invariant forall i :: 0 <= i < j ==>
            noteOnEvents[i] == before[i].(off := before[i].off || before[i].note.key == m.key)
          invariant forall i :: j <= i < |noteOnEvents| ==> noteOnEvents[i] == before[i]
          invariant noteOns == played
        {
          if noteOnEvents[j].note.key == m.key {
            noteOnEvents := noteOnEvents[j := noteOnEvents[j].(off := true)];
          }
          j := j + 1;
        }
        assert noteOnEvents == MarkOff(before, m.key);
      }
      assert IsNoteOnStatus(m.status) ==> !IsNoteOffStatus(m.status);
    }

    /** Moves the pending note-ons to the new notes once all of them are released. */
    method FlushNotes()
      modifies this`noteOnEvents, this`newNotes
      ensures newNotes == old(newNotes) + Flush(old(noteOnEvents)).0
      ensures noteOnEvents == Flush(old(noteOnEvents)).1
    {
      if |noteOnEvents| > 0 && AllOff(noteOnEvents) {
        var i := 0;
        while i < |noteOnEvents|
          invariant 0 <= i <= |noteOnEvents|
          invariant newNotes == old(newNotes) + NotesOf(noteOnEvents)[..i]
          invariant noteOnEvents == old(noteOnEvents)
        {
          assert NotesOf(noteOnEvents)[..i + 1] == NotesOf(noteOnEvents)[..i] + [noteOnEvents[i].note];
          newNotes := newNotes + [noteOnEvents[i].note];
          i := i + 1;
        }
        assert NotesOf(noteOnEvents)[..i] == NotesOf(noteOnEvents);
        noteOnEvents := [];
      }
    }
  }
}
