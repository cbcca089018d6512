// The piano roll panel: its list of input beats, adding the notes played
// while armed, deleting, cutting, copying and pasting notes, the toggles, the
// multi-track scroll, and the order in which one frame's input is handled.
//
// The edit, select, time and view sub-panels are not part of this model; a
// frame they would handle is reported as such and changes nothing here.

module PianoRoll {
  import opened Common
  import opened Commands
  import InputManager
  import AudioConn
  import IoLayer

  // The beat list.

  /** `new`: the configured beats with the input beat appended when it is
      missing, and the index of the input beat. */
  function InitialBeats(configured: seq<nat>, beat: nat): (r: (seq<nat>, nat))
    ensures r.1 < |r.0| && r.0[r.1] == beat
    ensures |configured| <= |r.0| <= |configured| + 1 && r.0[..|configured|] == configured
  {
    match PositionOf(configured, beat)
    case Some(i) => (configured, i)
    case None => (configured + [beat], |configured|)
  }

  /** The index always points at the input beat: its first position when it
      is configured, otherwise the appended last entry. */
  lemma InitialBeatsRule(configured: seq<nat>, beat: nat)
    ensures var (beats, i) := InitialBeats(configured, beat);
      && i < |beats| && beats[i] == beat
      && (beat in configured ==> beats == configured && forall j :: 0 <= j < i ==> configured[j] != beat)
      && (beat !in configured ==> beats == configured + [beat] && i == |beats| - 1)
  {
  }

  // Deleting notes.

  /** The positions below `n` that are not in `indices`, ascending. */
  function KeptPositions(n: nat, indices: seq<nat>): (r: seq<nat>)
    ensures forall k :: 0 <= k < |r| ==> r[k] < n && r[k] !in indices
  {
    if n == 0 then []
    else KeptPositions(n - 1, indices) + if n - 1 in indices then [] else [n - 1]
  }

  /** The kept positions are exactly the unselected ones, each once, in
      increasing order. */
  lemma {:induction false} KeptPositionsExactly(n: nat, indices: seq<nat>)
    ensures forall j: nat :: j in KeptPositions(n, indices) <==> j < n && j !in indices
    ensures forall a, b :: 0 <= a < b < |KeptPositions(n, indices)| ==> KeptPositions(n, indices)[a] < KeptPositions(n, indices)[b]
  {
    if n > 0 {
      KeptPositionsExactly(n - 1, indices);
      var last: seq<nat> := if n - 1 in indices then [] else [n - 1];
      assert KeptPositions(n, indices) == KeptPositions(n - 1, indices) + last;
      forall j: nat ensures j in KeptPositions(n, indices) <==> j < n && j !in indices {
        assert j in KeptPositions(n, indices) <==> j in KeptPositions(n - 1, indices) || j in last;
        assert j in KeptPositions(n - 1, indices) <==> j < n - 1 && j !in indices;
      }
    }
  }

  /** The notes at the kept positions, in order: `delete_notes`'s filter. */
  function Remaining(notes: seq<Note>, indices: seq<nat>): seq<Note>
  {
    var p := KeptPositions(|notes|, indices);
    seq(|p|, k requires 0 <= k < |p| => notes[p[k]])
  }

  /** The state with the selected track's notes replaced. */
  function WithSelectedNotes(s: State, notes: seq<Note>): State
    requires SelectedTrack(s.music).Some?
  {
    var i := s.music.selected.value;
    var tracks := s.music.midiTracks;
    s.(music := s.music.(midiTracks := tracks[i := tracks[i].(notes := notes)]))
  }

  /** `delete_notes`: with selected notes on a selected track, removes them,
      deselects and returns the undo snapshot; otherwise nothing changes. */
  function DeleteNotes(s: State): (r: (State, Option<Snapshot>))
    ensures r.1.Some? <==> NoteIndices(s.selectMode).Some? && SelectedTrack(s.music).Some?
    ensures r.1.None? ==> r.0 == s
    ensures r.1.Some? ==> r.1.value == FromStates(s, r.0) && NoteIndices(r.0.selectMode).None?
  {
    match NoteIndices(s.selectMode)
    case None => (s, None)
    case Some(indices) =>
      match SelectedTrack(s.music)
      case None => (s, None)
      case Some(track) =>
        var s1 := WithSelectedNotes(s, Remaining(track.notes, indices)).(selectMode := Deselected(s.selectMode));
        (s1, Some(FromStates(s, s1)))
  }

  /** Deleting removes exactly the notes at the selected indices, keeps the
      others in their order, touches no other track, and clears the
      selection keeping its kind. */
  lemma DeleteNotesRule(s: State)
    ensures var (s1, snap) := DeleteNotes(s);
      && (snap.Some? <==> NoteIndices(s.selectMode).Some? && SelectedTrack(s.music).Some?)
      && (snap.None? ==> s1 == s)
      && (snap.Some? ==> snap.value == FromStates(s, s1))
    ensures NoteIndices(s.selectMode).Some? && SelectedTrack(s.music).Some? ==>
      var (s1, _) := DeleteNotes(s);
      var i := s.music.selected.value;
      var notes := s.music.midiTracks[i].notes;
      var indices := NoteIndices(s.selectMode).value;
      var p := KeptPositions(|notes|, indices);
      && s1.music.selected == s.music.selected
      && |s1.music.midiTracks| == |s.music.midiTracks|
      && (forall j :: 0 <= j < |s.music.midiTracks| && j != i ==> s1.music.midiTracks[j] == s.music.midiTracks[j])
      && |s1.music.midiTracks[i].notes| == |p|
      && (forall k :: 0 <= k < |p| ==> s1.music.midiTracks[i].notes[k] == notes[p[k]])
      && (forall j: nat :: j in p <==> j < |notes| && j !in indices)
      && (forall a, b :: 0 <= a < b < |p| ==> p[a] < p[b])
      && s1.selectMode.Single? == s.selectMode.Single? && NoteIndices(s1.selectMode).None?
  {
    if NoteIndices(s.selectMode).Some? && SelectedTrack(s.music).Some? {
      KeptPositionsExactly(|s.music.midiTracks[s.music.selected.value].notes|, NoteIndices(s.selectMode).value);
    }
  }

  // Pasting notes.

  /** The earliest start among the notes. */
  function MinStart(notes: seq<Note>): (m: nat)
    requires notes != []
    ensures exists i :: 0 <= i < |notes| && notes[i].start == m
    ensures forall i :: 0 <= i < |notes| ==> m <= notes[i].start
  {
    if |notes| == 1 then notes[0].start
    else
      var m := MinStart(notes[1..]);
      assert forall i :: 1 <= i < |notes| ==> notes[1..][i - 1] == notes[i];
      if notes[0].start <= m then notes[0].start else m
  }

  /** A note moved so that `minTime` lands on `cursor`. */
  function Moved(n: Note, minTime: nat, cursor: nat): Note
    requires minTime <= n.start && minTime <= n.end
  {
    n.(start := n.start - minTime + cursor, end := n.end - minTime + cursor)
  }

  /** `paste`'s shift: every copied note moved by `cursor - minTime`; `None`
      where an end before `minTime` underflows. */
  method Shift(copied: seq<Note>, minTime: nat, cursor: nat) returns (r: Option<seq<Note>>)
    requires forall i :: 0 <= i < |copied| ==> minTime <= copied[i].start
    ensures r.Some? <==> forall i :: 0 <= i < |copied| ==> minTime <= copied[i].end
    ensures r.Some? ==> |r.value| == |copied|
    ensures r.Some? ==> forall i :: 0 <= i < |copied| ==> r.value[i] == Moved(copied[i], minTime, cursor)
  {
    var notes: seq<Note> := [];
    var i := 0;
    while i < |copied|
      invariant 0 <= i <= |copied|
      invariant |notes| == i
      invariant forall j :: 0 <= j < i ==> minTime <= copied[j].end && notes[j] == Moved(copied[j], minTime, cursor)
    {
      if copied[i].end < minTime {
        return None;
      }
      notes := notes + [Moved(copied[i], minTime, cursor)];
      i := i + 1;
    }
    r := Some(notes);
  }

  /** The pasted notes start with the earliest one at the cursor and keep
      every duration and every offset between two notes. */
  lemma PastedShape(copied: seq<Note>, pasted: seq<Note>, cursor: nat)
    requires copied != []
    requires |pasted| == |copied|
    requires forall i :: 0 <= i < |copied| ==> MinStart(copied) <= copied[i].end
    requires forall i :: 0 <= i < |copied| ==> pasted[i] == Moved(copied[i], MinStart(copied), cursor)
    ensures exists i :: 0 <= i < |pasted| && pasted[i].start == cursor
    ensures forall i :: 0 <= i < |pasted| ==> cursor <= pasted[i].start
    ensures forall i :: 0 <= i < |pasted| ==> pasted[i].end - pasted[i].start == copied[i].end - copied[i].start
    ensures forall i, j :: 0 <= i < |pasted| && 0 <= j < |pasted| ==>
      pasted[i].start - pasted[j].start == copied[i].start - copied[j].start
    ensures forall i :: 0 <= i < |pasted| ==> pasted[i].note == copied[i].note && pasted[i].velocity == copied[i].velocity
  {
    var i :| 0 <= i < |copied| && copied[i].start == MinStart(copied);
    assert pasted[i].start == cursor;
  }

  // Toggles and modes.

  function ArmToggled(s: State): State
  {
    s.(input := s.input.(armed := !s.input.armed))
  }

  function TracksToggled(s: State): State
  {
    s.(singleTrack := !s.singleTrack)
  }

  /** Both toggles flip one flag only, and undo themselves. */
  lemma TogglesAreInvolutions(s: State)
    ensures ArmToggled(ArmToggled(s)) == s && TracksToggled(TracksToggled(s)) == s
    ensures ArmToggled(s).input.armed != s.input.armed && ArmToggled(s).(input := s.input) == s
    ensures TracksToggled(s).singleTrack != s.singleTrack && TracksToggled(s).(singleTrack := s.singleTrack) == s
  {
  }

  // Multi-track scroll.

  /** Previous track: one up when not on the first. */
  function PreviousTrack(s: State): (r: State)
    ensures r == s.(music := s.music.(selected := r.music.selected))
    ensures r.music.selected.Some? <==> s.music.selected.Some?
    ensures r.music.selected.Some? ==> r.music.selected.value <= s.music.selected.value
  {
    match s.music.selected
    case Some(sel) => if sel > 0 then s.(music := s.music.(selected := Some(sel - 1))) else s
    case None => s
  }

  /** Next track: one down when not on the last; `None` where `len - 1`
      underflows (no tracks). */
  function NextTrack(s: State): (r: Option<State>)
    ensures r.None? <==> s.music.selected.Some? && |s.music.midiTracks| == 0
    ensures r.Some? ==> r.value == s.(music := s.music.(selected := r.value.music.selected))
    ensures r.Some? ==> (r.value.music.selected.Some? <==> s.music.selected.Some?)
    ensures r.Some? && r.value.music.selected.Some? ==> r.value.music.selected.value >= s.music.selected.value
  {
    match s.music.selected
    case Some(sel) =>
      if |s.music.midiTracks| == 0 then None
      else if sel < |s.music.midiTracks| - 1 then Some(s.(music := s.music.(selected := Some(sel + 1))))
      else Some(s)
    case None => Some(s)
  }

  /** The scroll keeps a selection inside the track list, moves it by at most
      one, and changes nothing else. */
  lemma TrackScrollBounds(s: State)
    requires s.music.selected.Some? && s.music.selected.value < |s.music.midiTracks|
    ensures NextTrack(s).Some?
    ensures var p := PreviousTrack(s);
      && p.music.selected.Some? && p.music.selected.value < |s.music.midiTracks|
      && p == s.(music := s.music.(selected := p.music.selected))
      && (p != s <==> s.music.selected.value > 0)
    ensures var n := NextTrack(s).value;
      && n.music.selected.Some? && n.music.selected.value < |s.music.midiTracks|
      && n == s.(music := s.music.(selected := n.music.selected))
      && (n != s <==> s.music.selected.value + 1 < |s.music.midiTracks|)
  {
  }

  // One frame of input.

  datatype PianoRollEvent =
    | StatusTTS | InputTTS | PlayStop | CopyNotes | CutNotes | DeleteNotesEvent | PasteNotes | Arm
    | ToggleTracks | InputBeatLeft | InputBeatRight | SetEdit | SetSelect | SetTime | SetView
    | PreviousTrackEvent | NextTrackEvent

  /** Which branch of `update` handles a frame, in the source's order. */
  datatype Branch =
    | NoTrack | AddNotes | Speak | Play | Copy | Cut | Delete | Paste | ToggleArm | ToggleView
    | BeatLeft | BeatRight | Mode(mode: PianoRollMode) | Previous | Next | SubPanel

  function BranchOf(s: State, happened: set<PianoRollEvent>, newNotes: seq<InputManager.MidiMessage>): (b: Branch)
    ensures s.music.selected.None? <==> b == NoTrack
    ensures b == AddNotes <==> s.music.selected.Some? && s.input.armed && newNotes != []
  {
    if s.music.selected.None? then NoTrack
    else if s.input.armed && newNotes != [] then AddNotes
    else if StatusTTS in happened || InputTTS in happened then Speak
    else if PlayStop in happened then Play
    else if CopyNotes in happened then Copy
    else if CutNotes in happened then Cut
    else if DeleteNotesEvent in happened then Delete
    else if PasteNotes in happened then Paste
    else if Arm in happened then ToggleArm
    else if ToggleTracks in happened then ToggleView
    else if InputBeatLeft in happened then BeatLeft
    else if InputBeatRight in happened then BeatRight
    else if SetEdit in happened then Mode(Edit)
    else if SetSelect in happened then Mode(Select)
    else if SetTime in happened then Mode(Time)
    else if SetView in happened then Mode(View)
    else if !s.singleTrack && PreviousTrackEvent in happened then Previous
    else if !s.singleTrack && NextTrackEvent in happened then Next
    else SubPanel
  }

  /** What a frame leaves: the new state, the undo snapshot, the command lists
      sent, and whether a sub-panel would handle it instead. */
  datatype Outcome = Outcome(state: State, snapshot: Option<Snapshot>, sent: seq<seq<Command>>, subPanel: bool)

  /** The added notes: one per message, with its key and velocity, from the
      cursor for one beat. */
  function AddedNotes(messages: seq<InputManager.MidiMessage>, cursor: nat, beat: nat): seq<Note>
  {
    seq(|messages|, i requires 0 <= i < |messages| => Note(messages[i].key, messages[i].velocity, cursor, cursor + beat))
  }

  /** A branch's new state and undo snapshot as a frame's outcome, with no
      commands sent; `None` stays a panic. */
  function Undoable(p: Option<(State, Option<Snapshot>)>): Option<Outcome>
  {
    match p
    case Some((s1, snap)) => Some(Outcome(s1, snap, [], false))
    case None => None
  }

  /** A track scroll's outcome: undoable only when the selection moved. */
  function Scrolled(s: State, s1: State): Outcome
  {
    Outcome(s1, if s1 == s then None else Some(FromStates(s, s1)), [], false)
  }

  /** The input beat set to the beat under `index`, undoably; `None` where
      the index leaves the list. */
  function InputBeatSet(s: State, beats: seq<nat>, index: nat): Option<Outcome>
  {
    if index < |beats| then
      var s1 := s.(input := s.input.(beat := beats[index]));
      Some(Outcome(s1, Some(FromStates(s, s1)), [], false))
    else None
  }

  /** The add-notes branch on values: the recorded notes appended to the
      selected track and the cursor advanced by the beat, when the track's
      channel has a program. */
  function AddedAtCursor(s: State, messages: seq<InputManager.MidiMessage>, programs: map<nat, AudioConn.Program>): Option<(State, Option<Snapshot>)>
  {
    match SelectedTrack(s.music)
    case None => None
    case Some(track) =>
      if track.channel !in programs then Some((s, None))
      else
        var s0 := WithSelectedNotes(s, track.notes + AddedNotes(messages, s.time.cursor, s.input.beat));
        var s1 := s0.(time := s0.time.(cursor := s.time.cursor + s.input.beat));
        Some((s1, Some(FromStates(s, s1))))
  }

  /** The paste branch on values: the copied notes moved to the cursor and
      appended to the selected track; `None` where the shift underflows. */
  function Pasted(s: State, copied: seq<Note>): Option<(State, Option<Snapshot>)>
  {
    if copied == [] || SelectedTrack(s.music).None? then Some((s, None))
    else if !(forall i :: 0 <= i < |copied| ==> MinStart(copied) <= copied[i].end) then None
    else
      var s1 := WithSelectedNotes(s, SelectedTrack(s.music).value.notes + MovedAll(copied, s.time.cursor));
      Some((s1, Some(FromStates(s, s1))))
  }

  /** The piano roll panel's own state. */
  class PianoRollPanel {
    var beats: seq<nat>
    var beat: Index
    var copiedNotes: seq<Note>

    predicate Valid()
      reads this
    {
      beat.length == |beats| && beat.index < |beats|
    }

    /** `new`: `configured` are the beats of the configuration, in pulses. */
    constructor (inputBeat: nat, configured: seq<nat>)
      ensures (beats, beat.index) == InitialBeats(configured, inputBeat)
      ensures beat.length == |beats| && copiedNotes == []
      ensures Valid()
    {
      var i := 0;
      while i < |configured| && configured[i] != inputBeat
        invariant 0 <= i <= |configured|
        invariant forall j :: 0 <= j < i ==> configured[j] != inputBeat
      {
        i := i + 1;
      }
      var bs := configured;
      if i == |configured| {
        bs := bs + [inputBeat];
      }
      InitialBeatsRule(configured, inputBeat);
      beats := bs;
      beat := Index(i, |bs|);
      copiedNotes := [];
    }

    /** `set_input_beat`: moves the beat index and sets the input beat to the
        beat under it; `None` where the index leaves the list. */
    method SetInputBeat(up: bool, s: State, increment: (Index, bool) -> Index) returns (r: Option<(State, Snapshot)>)
      requires Valid()
      modifies this`beat
      ensures beat == increment(old(beat), up)
      ensures r.Some? <==> beat.index < |beats|
      ensures IncrementKeepsInRange(increment) ==> Valid() && r.Some?
      ensures r.Some? ==> r.value.0 == s.(input := s.input.(beat := beats[beat.index]))
      ensures r.Some? ==> r.value.1 == FromStates(s, r.value.0)
    {
      beat := increment(beat, up);
      if beat.index >= |beats| {
        return None;
      }
      var s1 := s.(input := s.input.(beat := beats[beat.index]));
      r := Some((s1, FromStates(s, s1)));
    }

    /** With an increment that stays in range, the beat index stays valid
        and setting the beat never fails. */
    lemma SetInputBeatKeepsValid(up: bool, increment: (Index, bool) -> Index)
      requires Valid() && IncrementKeepsInRange(increment)
      ensures increment(beat, up).length == |beats| && increment(beat, up).index < |beats|
    {
    }

    /** `copy_notes`: `selectedNotes` is what the selection's notes are, when
        there are any. */
    method CopySelection(selectedNotes: Option<seq<Note>>)
      modifies this`copiedNotes
      ensures copiedNotes == if selectedNotes.Some? then selectedNotes.value else old(copiedNotes)
    {
      if selectedNotes.Some? {
        copiedNotes := selectedNotes.value;
      }
    }

    /** The paste branch: the copied notes moved to the cursor are appended to
        the selected track; the copy buffer is kept. `None` where the shift
        underflows. */
    method Paste(s: State) returns (r: Option<(State, Option<Snapshot>)>)
      ensures copiedNotes == [] || SelectedTrack(s.music).None? ==> r == Some((s, None))
      ensures copiedNotes != [] && SelectedTrack(s.music).Some? ==>
        (r.Some? <==> forall i :: 0 <= i < |copiedNotes| ==> MinStart(copiedNotes) <= copiedNotes[i].end)
      ensures copiedNotes != [] && SelectedTrack(s.music).Some? && r.Some? ==> PastedInto(s, r.value.0, copiedNotes)
      ensures r.Some? && r.value.1.Some? ==> r.value.1.value == FromStates(s, r.value.0)
      ensures r == Pasted(s, copiedNotes)
    {
      if copiedNotes == [] {
        return Some((s, None));
      }
      var track := SelectedTrack(s.music);
      if track.None? {
        return Some((s, None));
      }
      var minTime := MinStart(copiedNotes);
      var shifted := Shift(copiedNotes, minTime, s.time.cursor);
      if shifted.None? {
        return None;
      }
      assert shifted.value == MovedAll(copiedNotes, s.time.cursor);
      var s1 := WithSelectedNotes(s, track.value.notes + shifted.value);
      r := Some((s1, Some(FromStates(s, s1))));
    }

    /** One frame of `update`, for the branches this model covers. */
    method Update(s: State, happened: set<PianoRollEvent>, newNotes: seq<InputManager.MidiMessage>,
                  programs: map<nat, AudioConn.Program>, playing: bool, framerate: nat, selectedNotes: Option<seq<Note>>,
                  increment: (Index, bool) -> Index, le: (Note, Note) -> bool, toSamples: nat -> nat)
      returns (r: Option<Outcome>)
      requires Valid()
      modifies this`beat, this`copiedNotes
      ensures IncrementKeepsInRange(increment) ==> Valid()
      ensures var b := BranchOf(s, happened, newNotes);
        && (b == NoTrack || b == Speak ==> r == Some(Outcome(s, None, [], false)))
        && (b == SubPanel ==> r == Some(Outcome(s, None, [], true)))
        && (b != Copy && b != Cut ==> copiedNotes == old(copiedNotes))
        && (b != BeatLeft && b != BeatRight ==> beat == old(beat))
        && (b == Play && playing ==> r == Some(Outcome(s, None, [[StopMusic]], false)))
        && (b == Play && !playing ==> r == Some(Outcome(s, None, [IoLayer.Combined(s.music, framerate, toSamples(s.time.playback), le, toSamples).0], false)))
        && (b == Delete ==> r == Some(Outcome(DeleteNotes(s).0, DeleteNotes(s).1, [], false)))
        && (b == Cut ==> r == Some(Outcome(DeleteNotes(s).0, DeleteNotes(s).1, [], false)))
        && (b == Copy || b == Cut ==> copiedNotes == if selectedNotes.Some? then selectedNotes.value else old(copiedNotes))
        && (b == ToggleArm ==> r == Some(Outcome(ArmToggled(s), Some(FromStates(s, ArmToggled(s))), [], false)))
        && (b == ToggleView ==> r == Some(Outcome(TracksToggled(s), Some(FromStates(s, TracksToggled(s))), [], false)))
        && (b.Mode? ==> r == Some(Outcome(s.(pianoRollMode := b.mode), Some(FromStates(s, s.(pianoRollMode := b.mode))), [], false)))
        && (b == AddNotes ==> r == Undoable(AddedAtCursor(s, newNotes, programs)))
        && (b.Paste? ==> r == Undoable(Pasted(s, copiedNotes)))
        && (b == Previous ==> r == Some(Scrolled(s, PreviousTrack(s))))
        && (b == Next ==> r == if NextTrack(s).None? then None else Some(Scrolled(s, NextTrack(s).value)))
        && (b == BeatLeft || b == BeatRight ==> beat == increment(old(beat), b == BeatRight))
        && (b == BeatLeft || b == BeatRight ==> r == InputBeatSet(s, beats, beat.index))
    {
      var b := BranchOf(s, happened, newNotes);
      match b {
        case NoTrack =>
          r := Some(Outcome(s, None, [], false));
        case AddNotes =>
          var added := AddNotesAtCursor(s, newNotes, programs);
          r := if added.Some? then Some(Outcome(added.value.0, added.value.1, [], false)) else None;
        case Speak =>
          r := Some(Outcome(s, None, [], false));
        case Play =>
          if playing {
            r := Some(Outcome(s, None, [[StopMusic]], false));
          } else {
            var commands, _ := IoLayer.CombineTracksToCommands(s.music, framerate, s.time.playback, le, toSamples);
            r := Some(Outcome(s, None, [commands], false));
          }
        case Copy =>
          CopySelection(selectedNotes);
          r := Some(Outcome(s, None, [], false));
        case Cut =>
          CopySelection(selectedNotes);
          var (s1, snap) := DeleteNotes(s);
          r := Some(Outcome(s1, snap, [], false));
        case Delete =>
          var (s1, snap) := DeleteNotes(s);
          r := Some(Outcome(s1, snap, [], false));
        case Paste =>
          var pasted := Paste(s);
          r := if pasted.Some? then Some(Outcome(pasted.value.0, pasted.value.1, [], false)) else None;
        case ToggleArm =>
          var s1 := ArmToggled(s);
          r := Some(Outcome(s1, Some(FromStates(s, s1)), [], false));
        case ToggleView =>
          var s1 := TracksToggled(s);
          r := Some(Outcome(s1, Some(FromStates(s, s1)), [], false));
        case BeatLeft =>
          var moved := SetInputBeat(false, s, increment);
          r := if moved.Some? then Some(Outcome(moved.value.0, Some(moved.value.1), [], false)) else None;
        case BeatRight =>
          var moved := SetInputBeat(true, s, increment);
          r := if moved.Some? then Some(Outcome(moved.value.0, Some(moved.value.1), [], false)) else None;
        case Mode(mode) =>
          var s1 := s.(pianoRollMode := mode);
          r := Some(Outcome(s1, Some(FromStates(s, s1)), [], false));
        case Previous =>
          var s1 := PreviousTrack(s);
          r := Some(Outcome(s1, if s1 == s then None else Some(FromStates(s, s1)), [], false));
        case Next =>
          var s1 := NextTrack(s);
          r := if s1.None? then None
               else Some(Outcome(s1.value, if s1.value == s then None else Some(FromStates(s, s1.value)), [], false));
        case SubPanel =>
          r := Some(Outcome(s, None, [], true));
      }
    }
  }

  /** The copied notes moved so that the earliest starts at `cursor`. */
  function MovedAll(copied: seq<Note>, cursor: nat): seq<Note>
    requires copied != []
    requires forall i :: 0 <= i < |copied| ==> MinStart(copied) <= copied[i].end
  {
    var m := MinStart(copied);
    seq(|copied|, i requires 0 <= i < |copied| => Moved(copied[i], m, cursor))
  }

  /** `s1` is `s` with the moved copied notes appended to the selected track. */
  predicate PastedInto(s: State, s1: State, copied: seq<Note>)
    requires copied != [] && SelectedTrack(s.music).Some?
  {
    && (forall i :: 0 <= i < |copied| ==> MinStart(copied) <= copied[i].end)
    && s1 == WithSelectedNotes(s, SelectedTrack(s.music).value.notes + MovedAll(copied, s.time.cursor))
  }

  /** The add-notes branch: with a program on the selected track's channel,
      one note per message is added from the cursor for one beat and the
      cursor advances by the beat; without one, nothing changes. `None` where
      the selection points past the tracks. */
  method AddNotesAtCursor(s: State, messages: seq<InputManager.MidiMessage>, programs: map<nat, AudioConn.Program>)
    returns (r: Option<(State, Option<Snapshot>)>)
    ensures r.Some? <==> SelectedTrack(s.music).Some?
    ensures r.Some? && SelectedTrack(s.music).value.channel !in programs ==> r.value == (s, None)
    ensures r.Some? && SelectedTrack(s.music).value.channel in programs ==>
      && r.value.1 == Some(FromStates(s, r.value.0))
      && r.value.0.time == s.time.(cursor := s.time.cursor + s.input.beat)
      && r.value.0 == WithSelectedNotes(s, SelectedTrack(s.music).value.notes + AddedNotes(messages, s.time.cursor, s.input.beat))
           .(time := r.value.0.time)
    ensures r == AddedAtCursor(s, messages, programs)
  {
    var track := SelectedTrack(s.music);
    if track.None? {
      return None;
    }
    if track.value.channel !in programs {
      return Some((s, None));
    }
    var cursor, beat := s.time.cursor, s.input.beat;
    var added: seq<Note> := [];
    var i := 0;
    while i < |messages|
      invariant 0 <= i <= |messages|
      invariant added == AddedNotes(messages[..i], cursor, beat)
    {
      added := added + [Note(messages[i].key, messages[i].velocity, cursor, cursor + beat)];
      i := i + 1;
    }
    assert messages[..i] == messages;
    var s1 := WithSelectedNotes(s, track.value.notes + added);
    s1 := s1.(time := s1.time.(cursor := cursor + beat));
    r := Some((s1, Some(FromStates(s, s1))));
  }
}
