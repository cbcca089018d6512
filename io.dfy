// The io layer's own logic: the notes and commands it sends to play or export
// the music, the multi-file export queue, the undo and redo stacks, and the
// track selection.
//
// `ppq_to_samples` is a parameter `toSamples` (pulses to samples at the
// framerate in use), `Index::increment` a parameter `increment`, and the
// ordering of notes a total preorder `le`.

module IoLayer {
  import opened Common
  import opened Sorting
  import opened Commands
  import AudioConn

  const MAX_UNDOS: nat := 100

  // Playback notes.

  /** Each note's velocity scaled by the track gain. */
  function Scaled(notes: seq<Note>, gain: nat): (r: seq<Note>)
    ensures |r| == |notes|
    ensures forall i :: 0 <= i < |notes| ==> r[i] == notes[i].(velocity := GainScaled(notes[i].velocity, gain))
  {
    seq(|notes|, i requires 0 <= i < |notes| => notes[i].(velocity := GainScaled(notes[i].velocity, gain)))
  }

  function PlaybackNotesOf(track: MidiTrack, le: (Note, Note) -> bool): seq<Note>
  {
    SortBy(Scaled(track.notes, track.gain), le)
  }

  /** `get_playback_notes` keeps every note, scales its velocity by the track
      gain, and sorts; at full gain the notes are the track's own. */
  lemma PlaybackNotesRule(track: MidiTrack, le: (Note, Note) -> bool)
    requires TotalPreorder(le)
    ensures |PlaybackNotesOf(track, le)| == |track.notes|
    ensures SortedBy(PlaybackNotesOf(track, le), le)
    ensures multiset(PlaybackNotesOf(track, le)) == multiset(Scaled(track.notes, track.gain))
    ensures track.gain == MAX_VOLUME ==> multiset(PlaybackNotesOf(track, le)) == multiset(track.notes)
  {
    SortBySorted(Scaled(track.notes, track.gain), le);
    if track.gain == MAX_VOLUME {
      assert Scaled(track.notes, track.gain) == track.notes;
    }
  }

  /** `get_playback_notes`. */
  method PlaybackNotes(track: MidiTrack, le: (Note, Note) -> bool) returns (notes: seq<Note>)
    ensures notes == PlaybackNotesOf(track, le)
  {
    notes := [];
    var i := 0;
    while i < |track.notes|
      invariant 0 <= i <= |track.notes|
      invariant notes == Scaled(track.notes, track.gain)[..i]
    {
      var n1 := track.notes[i].(velocity := GainScaled(track.notes[i].velocity, track.gain));
      notes := notes + [n1];
      i := i + 1;
    }
    assert Scaled(track.notes, track.gain)[..i] == Scaled(track.notes, track.gain);
    notes := SortBy(notes, le);
  }

  // Note commands.

  /** The notes whose start sample is not before `t0`, in order. */
  function Kept(notes: seq<Note>, toSamples: nat -> nat, t0: nat): (r: seq<Note>)
    ensures |r| <= |notes|
    ensures forall i :: 0 <= i < |r| ==> toSamples(r[i].start) >= t0
  {
    if notes == [] then []
    else
      var n := notes[|notes| - 1];
      Kept(notes[..|notes| - 1], toSamples, t0) + if toSamples(n.start) < t0 then [] else [n]
  }

  /** A `NoteOnAt` for each note, with its start and end sample. */
  function OnAts(channel: nat, notes: seq<Note>, toSamples: nat -> nat): (r: seq<Command>)
    ensures |r| == |notes|
    ensures forall i :: 0 <= i < |notes| ==>
      r[i] == NoteOnAt(channel, notes[i].note, notes[i].velocity, toSamples(notes[i].start), toSamples(notes[i].end))
  {
    if notes == [] then []
    else
      var n := notes[|notes| - 1];
      OnAts(channel, notes[..|notes| - 1], toSamples)
        + [NoteOnAt(channel, n.note, n.velocity, toSamples(n.start), toSamples(n.end))]
  }

  lemma OnAtsAppend(channel: nat, notes: seq<Note>, n: Note, toSamples: nat -> nat)
    ensures OnAts(channel, notes + [n], toSamples)
      == OnAts(channel, notes, toSamples) + [NoteOnAt(channel, n.note, n.velocity, toSamples(n.start), toSamples(n.end))]
  {
    assert (notes + [n])[..|notes|] == notes;
  }

  /** One track's note commands, as `combine_tracks_to_commands` builds
      them: a `NoteOnAt` for each note not starting before `t0`. */
  function KeptOnAts(channel: nat, notes: seq<Note>, toSamples: nat -> nat, t0: nat): seq<Command>
  {
    if notes == [] then []
    else
      var n := notes[|notes| - 1];
      KeptOnAts(channel, notes[..|notes| - 1], toSamples, t0)
        + if toSamples(n.start) < t0 then [] else [NoteOnAt(channel, n.note, n.velocity, toSamples(n.start), toSamples(n.end))]
  }

  /** The running end time over the notes not starting before `t0`. */
  function KeptEnd(t1: nat, notes: seq<Note>, toSamples: nat -> nat, t0: nat): (r: nat)
    ensures r >= t1
  {
    if notes == [] then t1
    else
      var n := notes[|notes| - 1];
      var before := KeptEnd(t1, notes[..|notes| - 1], toSamples, t0);
      if toSamples(n.start) < t0 || toSamples(n.end) <= before then before else toSamples(n.end)
  }

  /** Building the commands and the end time note by note is filtering the
      notes first, then making a command of each and taking the latest end. */
  lemma {:induction false} KeptFolds(channel: nat, t1: nat, notes: seq<Note>, toSamples: nat -> nat, t0: nat)
    ensures KeptOnAts(channel, notes, toSamples, t0) == OnAts(channel, Kept(notes, toSamples, t0), toSamples)
    ensures KeptEnd(t1, notes, toSamples, t0) == AudioConn.LastEnd(t1, Kept(notes, toSamples, t0), toSamples)
  {
    if notes != [] {
      var init := notes[..|notes| - 1];
      var n := notes[|notes| - 1];
      KeptFolds(channel, t1, init, toSamples, t0);
      if toSamples(n.start) >= t0 {
        var kept := Kept(init, toSamples, t0);
        assert Kept(notes, toSamples, t0) == kept + [n];
        OnAtsAppend(channel, kept, n, toSamples);
        LastEndAppend(t1, kept, n, toSamples);
      } else {
        assert Kept(notes, toSamples, t0) == Kept(init, toSamples, t0);
      }
    }
  }

  lemma LastEndAppend(t1: nat, notes: seq<Note>, n: Note, toSamples: nat -> nat)
    ensures AudioConn.LastEnd(t1, notes + [n], toSamples)
      == if AudioConn.LastEnd(t1, notes, toSamples) < toSamples(n.end) then toSamples(n.end) else AudioConn.LastEnd(t1, notes, toSamples)
  {
    assert (notes + [n])[..|notes|] == notes;
  }

  /** The note commands of every playable track, track by track. */
  function TracksOnAts(tracks: seq<MidiTrack>, le: (Note, Note) -> bool, toSamples: nat -> nat, t0: nat): seq<Command>
  {
    if tracks == [] then []
    else
      var t := tracks[|tracks| - 1];
      TracksOnAts(tracks[..|tracks| - 1], le, toSamples, t0) + KeptOnAts(t.channel, PlaybackNotesOf(t, le), toSamples, t0)
  }

  /** The latest end sample of the kept notes of every track, or `t0`. */
  function TracksEnd(t0: nat, tracks: seq<MidiTrack>, le: (Note, Note) -> bool, toSamples: nat -> nat): (r: nat)
    ensures r >= t0
  {
    if tracks == [] then t0
    else
      var t := tracks[|tracks| - 1];
      KeptEnd(TracksEnd(t0, tracks[..|tracks| - 1], le, toSamples), PlaybackNotesOf(t, le), toSamples, t0)
  }

  /** What `combine_tracks_to_commands` returns. */
  function Combined(music: Music, framerate: nat, t0: nat, le: (Note, Note) -> bool, toSamples: nat -> nat): (r: (seq<Command>, nat))
    ensures |r.0| >= 3 && r.0[0] == PlayMusic(t0) && r.0[1] == SetFramerate(framerate)
    ensures r.0[|r.0| - 1] == StopMusicAt(r.1) && r.1 >= t0
  {
    var tracks := PlayableTracks(music);
    var t1 := TracksEnd(t0, tracks, le, toSamples);
    ([PlayMusic(t0), SetFramerate(framerate)] + TracksOnAts(tracks, le, toSamples, t0) + [StopMusicAt(t1)], t1)
  }

  /** One note's command and the running end time, for the kept notes. */
  method AddNoteOnAts(commands: seq<Command>, t1: nat, channel: nat, notes: seq<Note>, toSamples: nat -> nat, t0: nat)
    returns (commands': seq<Command>, t1': nat)
    ensures commands' == commands + KeptOnAts(channel, notes, toSamples, t0)
    ensures t1' == KeptEnd(t1, notes, toSamples, t0)
  {
    commands', t1' := commands, t1;
    var k := 0;
    while k < |notes|
      invariant 0 <= k <= |notes|
      invariant commands' == commands + KeptOnAts(channel, notes[..k], toSamples, t0)
      invariant t1' == KeptEnd(t1, notes[..k], toSamples, t0)
    {
      assert notes[..k + 1][..k] == notes[..k];
      var note := notes[k];
      var start := toSamples(note.start);
      if start >= t0 {
        var end := toSamples(note.end);
        if end > t1' {
          t1' := end;
        }
        commands' := commands' + [NoteOnAt(channel, note.note, note.velocity, start, end)];
      }
      k := k + 1;
    }
    assert notes[..k] == notes;
  }

  lemma TracksStep(tracks: seq<MidiTrack>, i: nat, le: (Note, Note) -> bool, toSamples: nat -> nat, t0: nat)
    requires i < |tracks|
    ensures TracksOnAts(tracks[..i + 1], le, toSamples, t0)
      == TracksOnAts(tracks[..i], le, toSamples, t0) + KeptOnAts(tracks[i].channel, PlaybackNotesOf(tracks[i], le), toSamples, t0)
    ensures TracksEnd(t0, tracks[..i + 1], le, toSamples)
      == KeptEnd(TracksEnd(t0, tracks[..i], le, toSamples), PlaybackNotesOf(tracks[i], le), toSamples, t0)
  {
    assert tracks[..i + 1][..i] == tracks[..i];
  }

  /** The note commands of the tracks and their latest end. */
  method AddTracks(tracks: seq<MidiTrack>, le: (Note, Note) -> bool, toSamples: nat -> nat, t0: nat)
    returns (onAts: seq<Command>, t1: nat)
    ensures onAts == TracksOnAts(tracks, le, toSamples, t0)
    ensures t1 == TracksEnd(t0, tracks, le, toSamples)
  {
    onAts, t1 := [], t0;
    var i := 0;
    while i < |tracks|
      invariant 0 <= i <= |tracks|
      invariant onAts == TracksOnAts(tracks[..i], le, toSamples, t0)
      invariant t1 == TracksEnd(t0, tracks[..i], le, toSamples)
    {
      TracksStep(tracks, i, le, toSamples, t0);
      var notes := PlaybackNotes(tracks[i], le);
      onAts, t1 := AddNoteOnAts(onAts, t1, tracks[i].channel, notes, toSamples, t0);
      i := i + 1;
    }
    assert tracks[..i] == tracks;
  }

  /** `combine_tracks_to_commands`: play from `t0`, set the framerate, a
      `NoteOnAt` for each playback note that does not start before `t0`, and
      stop at the latest end. */
  method CombineTracksToCommands(music: Music, framerate: nat, startTime: nat, le: (Note, Note) -> bool, toSamples: nat -> nat)
    returns (commands: seq<Command>, t1: nat)
    ensures (commands, t1) == Combined(music, framerate, toSamples(startTime), le, toSamples)
  {
    var t0 := toSamples(startTime);
    var onAts;
    onAts, t1 := AddTracks(PlayableTracks(music), le, toSamples, t0);
    commands := [PlayMusic(t0), SetFramerate(framerate)] + onAts + [StopMusicAt(t1)];
  }

  lemma LastEndMonotone(a: nat, b: nat, notes: seq<Note>, toSamples: nat -> nat)
    requires a <= b
    ensures AudioConn.LastEnd(a, notes, toSamples) <= AudioConn.LastEnd(b, notes, toSamples)
  {
    if notes != [] {
      LastEndMonotone(a, b, notes[..|notes| - 1], toSamples);
    }
  }

  /** Every note command of the tracks starts at or after `t0` and ends by
      the latest end. */
  lemma {:induction false} TracksOnAtsWithin(tracks: seq<MidiTrack>, le: (Note, Note) -> bool, toSamples: nat -> nat, t0: nat)
    ensures forall c :: c in TracksOnAts(tracks, le, toSamples, t0) ==>
      c.NoteOnAt? && t0 <= c.start && c.end <= TracksEnd(t0, tracks, le, toSamples)
  {
    if tracks != [] {
      var init := tracks[..|tracks| - 1];
      var t := tracks[|tracks| - 1];
      TracksOnAtsWithin(init, le, toSamples, t0);
      var kept := Kept(PlaybackNotesOf(t, le), toSamples, t0);
      var before := TracksEnd(t0, init, le, toSamples);
      var end := TracksEnd(t0, tracks, le, toSamples);
      KeptFolds(t.channel, before, PlaybackNotesOf(t, le), toSamples, t0);
      assert end == AudioConn.LastEnd(before, kept, toSamples);
      forall c | c in OnAts(t.channel, kept, toSamples)
        ensures c.NoteOnAt? && t0 <= c.start && c.end <= end
      {
        var j :| 0 <= j < |kept| && OnAts(t.channel, kept, toSamples)[j] == c;
      }
    }
  }

  /** `combine_tracks_to_commands` starts with `PlayMusic{t0}` then
      `SetFramerate`, ends with `StopMusicAt{t1}` where `t1` is at least `t0`,
      and every other command is a note starting at or after `t0` and ending
      by `t1`. */
  lemma CombinedShape(music: Music, framerate: nat, t0: nat, le: (Note, Note) -> bool, toSamples: nat -> nat)
    ensures var (commands, t1) := Combined(music, framerate, t0, le, toSamples);
      && |commands| >= 3
      && commands[0] == PlayMusic(t0) && commands[1] == SetFramerate(framerate)
      && commands[|commands| - 1] == StopMusicAt(t1)
      && t1 >= t0
      && forall i :: 2 <= i < |commands| - 1 ==>
           commands[i].NoteOnAt? && t0 <= commands[i].start && commands[i].end <= t1
  {
    var tracks := PlayableTracks(music);
    var middle := TracksOnAts(tracks, le, toSamples, t0);
    TracksOnAtsWithin(tracks, le, toSamples, t0);
    var commands := Combined(music, framerate, t0, le, toSamples).0;
    forall i | 2 <= i < |commands| - 1
      ensures commands[i] in middle
    {
      assert commands[i] == middle[i - 2];
    }
  }

  /** A note is kept exactly when its start sample is not before `t0`. */
  lemma {:induction false} KeptExactly(notes: seq<Note>, toSamples: nat -> nat, t0: nat, n: Note)
    ensures n in Kept(notes, toSamples, t0) <==> n in notes && toSamples(n.start) >= t0
  {
    if notes != [] {
      var init := notes[..|notes| - 1];
      KeptExactly(init, toSamples, t0, n);
      assert notes == init + [notes[|notes| - 1]];
    }
  }

  // Export.

  /** An export path as its directory, file stem and extension. */
  datatype ExportPath = ExportPath(directory: string, stem: string, extension: Option<string>)
  {
    function Full(): string
    {
      directory + "/" + stem + if extension.Some? then "." + extension.value else ""
    }
  }

  /** `ExportState::new` is not part of this model: it is taken to be writing
      with no sample exported yet. */
  function NewExportState(totalSamples: nat): ExportState
  {
    WritingWav(totalSamples, 0)
  }

  /** A queued batch: the commands and the export state to set with them. */
  datatype Batch = Batch(commands: seq<Command>, exportState: Option<ExportState>)

  /** A track's file suffix; `None` where the source panics (a suffix index
      out of range, or a preset suffix without a program). */
  function TrackSuffix(exporter: Exporter, track: MidiTrack, programs: map<nat, AudioConn.Program>): Option<string>
  {
    match exporter.multiFileSuffix.Get()
    case None => None
    case Some(kind) => AudioConn.ExportFileSuffix(kind, track, programs)
  }

  function TrackPath(directory: string, stem: string, suffix: string, extension: string): (p: string)
  {
    directory + "/" + stem + "_" + suffix + "." + extension
  }

  /** One track's batch: framerate, play from `t0`, the track's notes, sound
      off, and the export to its own path until its latest end. */
  function TrackBatch(track: MidiTrack, framerate: nat, t0: nat, path: string, le: (Note, Note) -> bool, toSamples: nat -> nat): Batch
  {
    var notes := PlaybackNotesOf(track, le);
    var t1 := KeptEnd(t0, notes, toSamples, t0);
    Batch([SetFramerate(framerate), PlayMusic(t0)] + KeptOnAts(track.channel, notes, toSamples, t0)
      + [SoundOff, Export(path, NewExportState(t1))], Some(NewExportState(t1)))
  }

  /** The multi-file export panics unless the path has an extension and every
      playable track has a suffix. */
  predicate CanQueue(path: ExportPath, tracks: seq<MidiTrack>, exporter: Exporter, programs: map<nat, AudioConn.Program>)
  {
    path.extension.Some? && forall i :: 0 <= i < |tracks| ==> TrackSuffix(exporter, tracks[i], programs).Some?
  }

  // The undo and redo stacks.

  datatype History = History(undo: seq<Snapshot>, redo: seq<Snapshot>)

  /** `push_undo`. */
  function PushUndo(h: History, s: Snapshot): (r: History)
    ensures r.redo == [] && r.undo != [] && r.undo[|r.undo| - 1] == s
    ensures |r.undo| <= |h.undo| + 1
  {
    var undo := h.undo + [s];
    History(if |undo| > MAX_UNDOS then undo[1..] else undo, [])
  }

  /** Pushing clears the redo stack, keeps the new snapshot on top, drops at
      most the oldest one, and keeps the undo stack within `MAX_UNDOS`. */
  lemma PushUndoRule(h: History, s: Snapshot)
    ensures var r := PushUndo(h, s);
      && r.redo == []
      && r.undo != [] && r.undo[|r.undo| - 1] == s
      && (|h.undo| < MAX_UNDOS ==> r.undo == h.undo + [s])
      && (|h.undo| == MAX_UNDOS ==> r.undo == h.undo[1..] + [s])
      && (|h.undo| <= MAX_UNDOS ==> |r.undo| <= MAX_UNDOS)
  {
    if |h.undo| == MAX_UNDOS {
      assert (h.undo + [s])[1..] == h.undo[1..] + [s];
    }
  }

  /** Applies a snapshot's `from` side to the state; `unsaved_changes` is set. */
  function Applied(snap: Snapshot, s: State): State
  {
    (if snap.fromState.Some? then snap.fromState.value else s).(unsavedChanges := true)
  }

  /** Undo: the newest undo snapshot's `from` side is applied, its commands
      sent, and its reverse pushed on the redo stack. */
  function UndoStep(h: History, s: State): (r: (History, State, Option<seq<Command>>))
    ensures h.undo == [] ==> r == (h, s, None)
    ensures h.undo != [] ==> r.0.undo == h.undo[..|h.undo| - 1] && |r.0.redo| == |h.redo| + 1 && r.0.redo[..|h.redo|] == h.redo
    ensures h.undo != [] ==> r.1.unsavedChanges && r.2 == h.undo[|h.undo| - 1].fromCommands
    ensures h.undo != [] ==> r.0.redo == h.redo + [Reversed(h.undo[|h.undo| - 1])]
    ensures h.undo != [] && h.undo[|h.undo| - 1].fromState.Some? ==>
      r.1 == h.undo[|h.undo| - 1].fromState.value.(unsavedChanges := true)
    ensures h.undo != [] && h.undo[|h.undo| - 1].fromState.None? ==> r.1 == s.(unsavedChanges := true)
  {
    if h.undo == [] then (h, s, None)
    else
      var u := h.undo[|h.undo| - 1];
      (History(h.undo[..|h.undo| - 1], h.redo + [Reversed(u)]), Applied(u, s), u.fromCommands)
  }

  /** Redo: the reverse of undo. */
  function RedoStep(h: History, s: State): (r: (History, State, Option<seq<Command>>))
    ensures h.redo == [] ==> r == (h, s, None)
    ensures h.redo != [] ==> r.0.redo == h.redo[..|h.redo| - 1] && |r.0.undo| == |h.undo| + 1 && r.0.undo[..|h.undo|] == h.undo
    ensures h.redo != [] ==> r.1.unsavedChanges && r.2 == h.redo[|h.redo| - 1].fromCommands
    ensures h.redo != [] ==> r.0.undo == h.undo + [Reversed(h.redo[|h.redo| - 1])]
    ensures h.redo != [] && h.redo[|h.redo| - 1].fromState.Some? ==>
      r.1 == h.redo[|h.redo| - 1].fromState.value.(unsavedChanges := true)
    ensures h.redo != [] && h.redo[|h.redo| - 1].fromState.None? ==> r.1 == s.(unsavedChanges := true)
  {
    if h.redo == [] then (h, s, None)
    else
      var r := h.redo[|h.redo| - 1];
      (History(h.undo + [Reversed(r)], h.redo[..|h.redo| - 1]), Applied(r, s), r.fromCommands)
  }

  /** Undo on an empty stack and redo on an empty stack change nothing; each
      moves exactly one snapshot between the stacks. */
  lemma UndoRedoMoveOne(h: History, s: State)
    ensures h.undo == [] ==> UndoStep(h, s) == (h, s, None)
    ensures h.redo == [] ==> RedoStep(h, s) == (h, s, None)
    ensures h.undo != [] ==> |UndoStep(h, s).0.undo| == |h.undo| - 1 && |UndoStep(h, s).0.redo| == |h.redo| + 1
    ensures h.redo != [] ==> |RedoStep(h, s).0.redo| == |h.redo| - 1 && |RedoStep(h, s).0.undo| == |h.undo| + 1
  {
  }

  /** Undoing an action recorded by `push_undo` from the states `s0` to `s1`
      reverts the app to `s0` (marked unsaved), and the reverse snapshot on
      the redo stack leads back to `s1`. */
  lemma UndoRevertsPushedAction(h: History, s0: State, s1: State, now: State)
    ensures var (h1, s2, c) := UndoStep(PushUndo(h, FromStates(s0, s1)), now);
      && s2 == s0.(unsavedChanges := true)
      && c.None?
      && h1.redo == [FromStates(s1, s0)]
      && |h1.undo| == |PushUndo(h, FromStates(s0, s1)).undo| - 1
  {
  }

  /** Undo then redo restores the undone state, sends the undone action's
      commands again, and returns the snapshot to the undo stack. */
  lemma UndoThenRedo(h: History, s: State)
    requires h.undo != []
    requires h.undo[|h.undo| - 1].toState.Some?
    ensures var u := h.undo[|h.undo| - 1];
      var (h1, s1, _) := UndoStep(h, s);
      var (h2, s2, c2) := RedoStep(h1, s1);
      && h2 == History(h.undo[..|h.undo| - 1] + [u.(ioCommands := None)], h.redo)
      && s2 == u.toState.value.(unsavedChanges := true)
      && c2 == u.toCommands
  {
    var u := h.undo[|h.undo| - 1];
    ReversedTwice(u);
    assert (h.redo + [Reversed(u)])[..|h.redo|] == h.redo;
  }

  /** As written, cycling panels pushes onto the undo stack directly, without
      the `MAX_UNDOS` bound of `push_undo`. */
  function CyclePanelAsWritten(h: History, s0: State, s1: State): (r: History)
    ensures |r.undo| == |h.undo| + 1 && r.redo == h.redo
  {
    h.(undo := h.undo + [FromStates(s0, s1)])
  }

  lemma CyclePanelExceedsBound(h: History, s0: State, s1: State)
    requires |h.undo| == MAX_UNDOS
    ensures |CyclePanelAsWritten(h, s0, s1).undo| == MAX_UNDOS + 1
  {
  }

  /** Corrected: the panel change goes through `push_undo`. */
  function CyclePanel(h: History, s0: State, s1: State): (r: History)
    ensures r.redo == [] && r.undo != [] && r.undo[|r.undo| - 1] == FromStates(s0, s1)
    ensures |r.undo| <= |h.undo| + 1
  {
    PushUndo(h, FromStates(s0, s1))
  }

  lemma CyclePanelKeepsBound(h: History, s0: State, s1: State)
    requires |h.undo| <= MAX_UNDOS
    ensures |CyclePanel(h, s0, s1).undo| <= MAX_UNDOS
    ensures CyclePanel(h, s0, s1).undo[|CyclePanel(h, s0, s1).undo| - 1] == FromStates(s0, s1)
  {
    PushUndoRule(h, FromStates(s0, s1));
  }

  /** The state after a panel cycle: focus moved, changes unsaved. */
  function Cycled(s: State, up: bool, increment: (Index, bool) -> Index): State
  {
    s.(focus := increment(s.focus, up), unsavedChanges := true)
  }

  // Track selection.

  /** `select_track`: with a selection, next moves it one track down when it
      is not on the last track and previous one track up when it is not on the
      first, clearing the note selection. `None` where `len - 1` underflows
      (no tracks). */
  function SelectTrack(s: State, nextTrack: bool, previousTrack: bool): (r: Option<(State, Option<Snapshot>)>)
    ensures r.None? <==> s.music.selected.Some? && nextTrack && |s.music.midiTracks| == 0
    ensures r.Some? ==> r.value.0.music.midiTracks == s.music.midiTracks
    ensures r.Some? && r.value.1.None? ==> r.value.0 == s
    ensures r.Some? && r.value.1.Some? ==> r.value.1.value == FromStates(s, r.value.0)
  {
    match s.music.selected
    case None => Some((s, None))
    case Some(sel) =>
      if nextTrack && |s.music.midiTracks| == 0 then None
      else if nextTrack && sel < |s.music.midiTracks| - 1 then
        var s1 := s.(music := s.music.(selected := Some(sel + 1)), selectMode := Deselected(s.selectMode));
        Some((s1, Some(FromStates(s, s1))))
      else if previousTrack && sel > 0 then
        var s1 := s.(music := s.music.(selected := Some(sel - 1)), selectMode := Deselected(s.selectMode));
        Some((s1, Some(FromStates(s, s1))))
      else Some((s, None))
  }

  /** A selection inside the track list stays inside it; a move is by one
      track, clears the note selection keeping its kind, and is undoable. */
  lemma SelectTrackBounds(s: State, nextTrack: bool, previousTrack: bool)
    requires s.music.selected.Some? && s.music.selected.value < |s.music.midiTracks|
    ensures SelectTrack(s, nextTrack, previousTrack).Some?
    ensures var (s1, snap) := SelectTrack(s, nextTrack, previousTrack).value;
      && s1.music.selected.Some? && s1.music.selected.value < |s1.music.midiTracks|
      && s1.music.midiTracks == s.music.midiTracks
      && (snap.None? ==> s1 == s)
      && (snap.Some? ==> SelectionMoved(s, s1, snap.value))
  {
  }

  /** A one-track move of the selection that clears the note selection,
      keeping its kind, recorded as an undoable snapshot. */
  predicate SelectionMoved(s: State, s1: State, snap: Snapshot)
    requires s.music.selected.Some? && s1.music.selected.Some?
  {
    && snap == FromStates(s, s1)
    && (s1.music.selected.value == s.music.selected.value + 1 || s1.music.selected.value + 1 == s.music.selected.value)
    && s1.selectMode.Single? == s.selectMode.Single?
    && NoteIndices(s1.selectMode).None?
  }

  /** The single-file export: sound off, the export until the last note's
      end, then the combined commands. */
  function SingleFileCommands(path: ExportPath, combined: (seq<Command>, nat)): seq<Command>
  {
    [SoundOff, Export(path.Full(), NewExportState(combined.1))] + combined.0
  }

  /** A track's batch sets an export state, starts with the framerate and
      play from `t0`, and ends with the export to `path`. */
  predicate BatchExports(b: Batch, framerate: nat, t0: nat, path: string)
  {
    && b.exportState.Some?
    && |b.commands| >= 4
    && b.commands[0] == SetFramerate(framerate) && b.commands[1] == PlayMusic(t0)
    && b.commands[|b.commands| - 1] == Export(path, b.exportState.value)
  }

  /** The commands of the export batch a frame starts: the front batch's,
      when nothing is exporting and the queue is not empty. */
  function BatchSent(exportState: Option<ExportState>, queue: seq<Batch>): (r: seq<seq<Command>>)
    ensures |r| <= 1
    ensures r != [] <==> exportState.None? && queue != []
    ensures r != [] ==> r[0] == queue[0].commands
  {
    if exportState.None? && queue != [] then [queue[0].commands] else []
  }

  /** A snapshot's commands as the list of command lists sent: one list when
      it has commands, none otherwise. */
  function Sent(commands: Option<seq<Command>>): (r: seq<seq<Command>>)
    ensures |r| <= 1 && (r != [] <==> commands.Some?)
    ensures r != [] ==> r[0] == commands.value
  {
    if commands.Some? then [commands.value] else []
  }

  datatype Action = UndoAction | RedoAction | NextPanelAction | PreviousPanelAction | OtherAction

  /** The io layer's stacks and export queue. */
  /** The state once the export-queue drain of `update` has run: a batch
      starts only when no export runs and one is queued, and starting it
      enables the export panel (`ExportPanel::enable`, which is not part of
      this model, is the parameter `enableExport`). */
  function AfterDrain(s: State, exportState: Option<ExportState>, queue: seq<Batch>,
                      enableExport: (State, seq<PanelType>, nat) -> State, panels: seq<PanelType>, focus: nat): State
  {
    if exportState.None? && queue != [] then enableExport(s, panels, focus) else s
  }

  class IO {
    var undo: seq<Snapshot>
    var redo: seq<Snapshot>
    var exportQueue: seq<Batch>
    var preExportPanels: seq<PanelType>
    var preExportFocus: nat

    function Stacks(): History
      reads this
    {
      History(undo, redo)
    }

    constructor ()
      ensures undo == [] && redo == [] && exportQueue == [] && preExportPanels == [] && preExportFocus == 0
    {
      undo, redo, exportQueue, preExportPanels, preExportFocus := [], [], [], [], 0;
    }

    /** `push_undo`. */
    method PushUndoSnapshot(s: Snapshot)
      modifies this`undo, this`redo
      ensures Stacks() == PushUndo(old(Stacks()), s)
    {
      undo := undo + [s];
      redo := [];
      if |undo| > MAX_UNDOS {
        undo := undo[1..];
      }
    }

    /** `apply_snapshot`, without the io commands: a snapshot with a `from`
        side is pushed on the undo stack and marks the state unsaved. */
    method ApplySnapshot(snapshot: Option<Snapshot>, s: State) returns (applied: bool, s': State)
      modifies this`undo, this`redo
      ensures applied <==> snapshot.Some?
      ensures snapshot.Some? && (snapshot.value.fromState.Some? || snapshot.value.fromCommands.Some?) ==>
        Stacks() == PushUndo(old(Stacks()), snapshot.value) && s' == s.(unsavedChanges := true)
      ensures !(snapshot.Some? && (snapshot.value.fromState.Some? || snapshot.value.fromCommands.Some?)) ==>
        Stacks() == old(Stacks()) && s' == s
    {
      s' := s;
      if snapshot.None? {
        return false, s';
      }
      var snap := snapshot.value;
      if snap.fromState.Some? || snap.fromCommands.Some? {
        s' := s'.(unsavedChanges := true);
        PushUndoSnapshot(snap);
      }
      applied := true;
    }

    /** One frame of `update`, for the parts this model covers. A quit ends the
        app. Otherwise, when nothing is exporting, the front batch of the export
        queue is taken and its commands sent; while an export is in progress
        nothing else happens. Then undo, redo or a panel cycle; the panel
        cycle's snapshot goes through `push_undo` (see `CyclePanelAsWritten`). */
    method Update(quit: bool, action: Action, s: State, exportState: Option<ExportState>, increment: (Index, bool) -> Index,
                  enableExport: (State, seq<PanelType>, nat) -> State)
      returns (done: bool, s': State, exportState': Option<ExportState>, sent: seq<seq<Command>>)
      modifies this`undo, this`redo, this`exportQueue
      ensures done <==> quit
      ensures quit ==> s' == s && exportState' == exportState && sent == [] && exportQueue == old(exportQueue) && Stacks() == old(Stacks())
      ensures !quit && exportState.None? && old(exportQueue) != [] ==>
        && exportQueue == old(exportQueue)[1..]
        && exportState' == old(exportQueue)[0].exportState
        && sent != [] && sent[0] == old(exportQueue)[0].commands
      ensures !quit && (exportState.Some? || old(exportQueue) == []) ==> exportQueue == old(exportQueue) && exportState' == exportState
      ensures !quit && exportState'.Some? ==>
        s' == AfterDrain(s, exportState, old(exportQueue), enableExport, preExportPanels, preExportFocus)
        && Stacks() == old(Stacks()) && |sent| <= 1
      ensures !quit && exportState'.None? ==>
        var s1 := AfterDrain(s, exportState, old(exportQueue), enableExport, preExportPanels, preExportFocus);
        && (action == UndoAction ==> (Stacks(), s') == (UndoStep(old(Stacks()), s1).0, UndoStep(old(Stacks()), s1).1))
        && (action == RedoAction ==> (Stacks(), s') == (RedoStep(old(Stacks()), s1).0, RedoStep(old(Stacks()), s1).1))
        && (action == NextPanelAction || action == PreviousPanelAction ==>
              s' == Cycled(s1, action == NextPanelAction, increment) && Stacks() == CyclePanel(old(Stacks()), s1, s'))
        && (action == OtherAction ==> s' == s1 && Stacks() == old(Stacks()))
        && (action == UndoAction ==> sent == BatchSent(exportState, old(exportQueue)) + Sent(UndoStep(old(Stacks()), s1).2))
        && (action == RedoAction ==> sent == BatchSent(exportState, old(exportQueue)) + Sent(RedoStep(old(Stacks()), s1).2))
        && (action != UndoAction && action != RedoAction ==> sent == BatchSent(exportState, old(exportQueue)))
    {
      s', exportState', sent := s, exportState, [];
      if quit {
        return true, s', exportState', sent;
      }
      done := false;
      // Export multiple files.
      if exportState.None? && exportQueue != [] {
        s' := enableExport(s', preExportPanels, preExportFocus);
        var batch := exportQueue[0];
        exportQueue := exportQueue[1..];
        exportState' := batch.exportState;
        sent := [batch.commands];
      }
      // Don't do anything while exporting.
      if exportState'.Some? {
        return;
      }
      match action {
        case UndoAction =>
          if |undo| > 0 {
            var u := undo[|undo| - 1];
            undo := undo[..|undo| - 1];
            s' := Applied(u, s');
            if u.fromCommands.Some? {
              sent := sent + [u.fromCommands.value];
            }
            redo := redo + [Reversed(u)];
          }
        case RedoAction =>
          if |redo| > 0 {
            var r := redo[|redo| - 1];
            redo := redo[..|redo| - 1];
            s' := Applied(r, s');
            if r.fromCommands.Some? {
              sent := sent + [r.fromCommands.value];
            }
            undo := undo + [Reversed(r)];
          }
        case NextPanelAction =>
          var s0 := s';
          s' := s'.(focus := increment(s'.focus, true), unsavedChanges := true);
          PushUndoSnapshot(FromStates(s0, s'));
        case PreviousPanelAction =>
          var s0 := s';
          s' := s'.(focus := increment(s'.focus, false), unsavedChanges := true);
          PushUndoSnapshot(FromStates(s0, s'));
        case OtherAction =>
      }
    }

    /** `export`: remembers the panels and focus; a multi-file export is
        queued, otherwise the export state is set and sound-off, the export
        and the combined track commands are sent. */
    method Export(path: ExportPath, s: State, programs: map<nat, AudioConn.Program>, exporter: Exporter,
                  le: (Note, Note) -> bool, toSamples: nat -> nat, exportState: Option<ExportState>,
                  enableExport: (State, seq<PanelType>, nat) -> State)
      returns (s': State, exportState': Option<ExportState>, sent: Option<seq<Command>>, exporter': Exporter, panicked: bool)
      modifies this`preExportPanels, this`preExportFocus, this`exportQueue
      ensures preExportPanels == s.panels && preExportFocus == s.focus.index
      ensures s' == enableExport(s, s.panels, s.focus.index)
      ensures exporter.multiFile ==> exportState' == exportState && sent.None?
      ensures exporter.multiFile ==> (panicked <==> !CanQueue(path, PlayableTracks(s'.music), exporter, programs))
      ensures exporter.multiFile && !panicked ==> exporter' == exporter
      ensures exporter.multiFile && !panicked ==>
        exportQueue == Queued(path, PlayableTracks(s'.music), exporter, programs, toSamples(0), le, toSamples)
      ensures !exporter.multiFile ==> !panicked && exporter' == exporter && exportQueue == old(exportQueue)
      ensures !exporter.multiFile ==>
        exportState' == Some(NewExportState(Combined(s'.music, exporter.framerate, toSamples(0), le, toSamples).1))
      ensures !exporter.multiFile ==>
        sent == Some(SingleFileCommands(path, Combined(s'.music, exporter.framerate, toSamples(0), le, toSamples)))
    {
      preExportPanels := s.panels;
      preExportFocus := s.focus.index;
      // Enable the export panel.
      s' := enableExport(s, preExportPanels, preExportFocus);
      if exporter.multiFile {
        exporter', panicked := QueueMultiFileExport(path, s', programs, exporter, le, toSamples);
        return s', exportState, None, exporter', panicked;
      }
      var commands, t1 := CombineTracksToCommands(s'.music, exporter.framerate, 0, le, toSamples);
      var st := NewExportState(t1);
      exportState' := Some(st);
      sent := Some([SoundOff, Command.Export(path.Full(), st)] + commands);
      assert sent == Some(SingleFileCommands(path, (commands, t1)));
      exporter', panicked := exporter, false;
    }

    /** `queue_multi_file_export`: one batch per playable track, exporting
        it to `{directory}/{stem}_{suffix}.{extension}`, then a batch that
        stops the music and appends silences to all of those paths; the
        exporter is left as it was. */
    method QueueMultiFileExport(path: ExportPath, s: State, programs: map<nat, AudioConn.Program>, exporter: Exporter,
                                le: (Note, Note) -> bool, toSamples: nat -> nat)
      returns (exporter': Exporter, panicked: bool)
      modifies this`exportQueue
      ensures panicked <==> !CanQueue(path, PlayableTracks(s.music), exporter, programs)
      ensures !panicked ==> exporter' == exporter
      ensures !panicked ==> exportQueue == Queued(path, PlayableTracks(s.music), exporter, programs, toSamples(0), le, toSamples)
    {
      exportQueue := [];
      var e0 := exporter;
      exporter' := exporter;
      if path.extension.None? {
        return exporter', true;
      }
      // Each track is exported to wav.
      exporter' := exporter'.(exportType := exporter'.exportType.(index := exporter'.exportType.index.(index := 0)));
      // Forcing wav leaves the suffixes and the framerate as they were.
      var batches, paths, ok := QueueTracks(path, PlayableTracks(s.music), exporter, programs, toSamples(0), le, toSamples);
      if !ok {
        return exporter', true;
      }
      exporter' := e0;
      exportQueue := batches + [Batch([StopMusic, AppendSilences(paths)], None)];
      panicked := false;
    }
  }

  /** The per-track batches and paths of a multi-file export; `ok` is false
      where a track has no suffix. */
  method QueueTracks(path: ExportPath, tracks: seq<MidiTrack>, exporter: Exporter, programs: map<nat, AudioConn.Program>,
                     t0: nat, le: (Note, Note) -> bool, toSamples: nat -> nat)
    returns (batches: seq<Batch>, paths: seq<string>, ok: bool)
    requires path.extension.Some?
    ensures ok <==> CanQueue(path, tracks, exporter, programs)
    ensures ok ==> batches == TrackBatches(path, tracks, exporter, programs, t0, le, toSamples)
    ensures ok ==> paths == TrackPaths(path, tracks, exporter, programs)
  {
    batches, paths := [], [];
    var i := 0;
    while i < |tracks|
      invariant 0 <= i <= |tracks|
      invariant CanQueue(path, tracks[..i], exporter, programs)
      invariant batches == TrackBatches(path, tracks[..i], exporter, programs, t0, le, toSamples)
      invariant paths == TrackPaths(path, tracks[..i], exporter, programs)
    {
      var batch, trackPath := QueueTrack(path, tracks[i], exporter, programs, t0, le, toSamples);
      if trackPath.None? {
        return batches, paths, false;
      }
      TrackBatchesStep(path, tracks, i, exporter, programs, t0, le, toSamples);
      paths := paths + [trackPath.value];
      batches := batches + [batch];
      i := i + 1;
    }
    assert tracks[..i] == tracks;
    ok := true;
  }

  /** One track's batch and path; no path where the track has no suffix. */
  method QueueTrack(path: ExportPath, track: MidiTrack, exporter: Exporter, programs: map<nat, AudioConn.Program>,
                    t0: nat, le: (Note, Note) -> bool, toSamples: nat -> nat)
    returns (batch: Batch, trackPath: Option<string>)
    requires path.extension.Some?
    ensures trackPath.Some? <==> TrackSuffix(exporter, track, programs).Some?
    ensures trackPath.Some? ==>
      trackPath.value == TrackPath(path.directory, path.stem, TrackSuffix(exporter, track, programs).value, path.extension.value)
    ensures trackPath.Some? ==> batch == TrackBatch(track, exporter.framerate, t0, trackPath.value, le, toSamples)
  {
    var notes := PlaybackNotes(track, le);
    var commands, t1 := AddNoteOnAts([SetFramerate(exporter.framerate), PlayMusic(t0)], t0, track.channel, notes, toSamples, t0);
    var suffix := TrackSuffix(exporter, track, programs);
    if suffix.None? {
      return Batch(commands, None), None;
    }
    var p := TrackPath(path.directory, path.stem, suffix.value, path.extension.value);
    var st := NewExportState(t1);
    commands := commands + [SoundOff, Export(p, st)];
    batch, trackPath := Batch(commands, Some(st)), Some(p);
  }

  lemma TrackBatchesStep(path: ExportPath, tracks: seq<MidiTrack>, i: nat, exporter: Exporter, programs: map<nat, AudioConn.Program>,
                         t0: nat, le: (Note, Note) -> bool, toSamples: nat -> nat)
    requires i < |tracks|
    requires CanQueue(path, tracks[..i], exporter, programs)
    requires TrackSuffix(exporter, tracks[i], programs).Some?
    ensures CanQueue(path, tracks[..i + 1], exporter, programs)
    ensures var p := TrackPath(path.directory, path.stem, TrackSuffix(exporter, tracks[i], programs).value, path.extension.value);
      && TrackBatches(path, tracks[..i + 1], exporter, programs, t0, le, toSamples)
         == TrackBatches(path, tracks[..i], exporter, programs, t0, le, toSamples) + [TrackBatch(tracks[i], exporter.framerate, t0, p, le, toSamples)]
      && TrackPaths(path, tracks[..i + 1], exporter, programs) == TrackPaths(path, tracks[..i], exporter, programs) + [p]
  {
    assert tracks[..i + 1][..i] == tracks[..i];
    forall j | 0 <= j < i ensures TrackSuffix(exporter, tracks[j], programs).Some? {
      assert tracks[..i][j] == tracks[j];
    }
  }

  /** The batches of the tracks, each exported to its suffixed path. */
  function TrackBatches(path: ExportPath, tracks: seq<MidiTrack>, exporter: Exporter, programs: map<nat, AudioConn.Program>,
                        t0: nat, le: (Note, Note) -> bool, toSamples: nat -> nat): (r: seq<Batch>)
    requires path.extension.Some?
    requires forall i :: 0 <= i < |tracks| ==> TrackSuffix(exporter, tracks[i], programs).Some?
    ensures |r| == |tracks|
  {
    if tracks == [] then []
    else
      var t := tracks[|tracks| - 1];
      var p := TrackPath(path.directory, path.stem, TrackSuffix(exporter, t, programs).value, path.extension.value);
      TrackBatches(path, tracks[..|tracks| - 1], exporter, programs, t0, le, toSamples) + [TrackBatch(t, exporter.framerate, t0, p, le, toSamples)]
  }

  function TrackPaths(path: ExportPath, tracks: seq<MidiTrack>, exporter: Exporter, programs: map<nat, AudioConn.Program>): (r: seq<string>)
    requires path.extension.Some?
    requires forall i :: 0 <= i < |tracks| ==> TrackSuffix(exporter, tracks[i], programs).Some?
    ensures |r| == |tracks|
  {
    if tracks == [] then []
    else
      var t := tracks[|tracks| - 1];
      TrackPaths(path, tracks[..|tracks| - 1], exporter, programs)
        + [TrackPath(path.directory, path.stem, TrackSuffix(exporter, t, programs).value, path.extension.value)]
  }

  /** The export queue of a multi-file export. */
  function Queued(path: ExportPath, tracks: seq<MidiTrack>, exporter: Exporter, programs: map<nat, AudioConn.Program>,
                  t0: nat, le: (Note, Note) -> bool, toSamples: nat -> nat): (r: seq<Batch>)
    requires CanQueue(path, tracks, exporter, programs)
    ensures |r| == |tracks| + 1 && r[|tracks|].exportState.None?
    ensures r[|tracks|].commands == [StopMusic, AppendSilences(TrackPaths(path, tracks, exporter, programs))]
  {
    TrackBatches(path, tracks, exporter, programs, t0, le, toSamples)
      + [Batch([StopMusic, AppendSilences(TrackPaths(path, tracks, exporter, programs))], None)]
  }

  /** A multi-file export queues one batch per track, each with an export
      state and ending in that track's export, then a final batch with no
      export state that appends silences to one path per track. */
  lemma {:induction false} QueuedShape(path: ExportPath, tracks: seq<MidiTrack>, exporter: Exporter, programs: map<nat, AudioConn.Program>,
                                      t0: nat, le: (Note, Note) -> bool, toSamples: nat -> nat)
    requires CanQueue(path, tracks, exporter, programs)
    ensures var q := Queued(path, tracks, exporter, programs, t0, le, toSamples);
      && |q| == |tracks| + 1
      && q[|tracks|].exportState.None?
      && q[|tracks|].commands == [StopMusic, AppendSilences(TrackPaths(path, tracks, exporter, programs))]
      && (forall i :: 0 <= i < |tracks| ==> BatchExports(q[i], exporter.framerate, t0, TrackPaths(path, tracks, exporter, programs)[i]))
  {
    TrackBatchesShape(path, tracks, exporter, programs, t0, le, toSamples);
  }

  lemma {:induction false} TrackBatchesShape(path: ExportPath, tracks: seq<MidiTrack>, exporter: Exporter, programs: map<nat, AudioConn.Program>,
                                            t0: nat, le: (Note, Note) -> bool, toSamples: nat -> nat)
    requires CanQueue(path, tracks, exporter, programs)
    ensures var b := TrackBatches(path, tracks, exporter, programs, t0, le, toSamples);
      && |b| == |tracks|
      && forall i :: 0 <= i < |tracks| ==> BatchExports(b[i], exporter.framerate, t0, TrackPaths(path, tracks, exporter, programs)[i])
  {
    if tracks != [] {
      var init := tracks[..|tracks| - 1];
      assert CanQueue(path, init, exporter, programs) by {
        forall i | 0 <= i < |init| ensures TrackSuffix(exporter, init[i], programs).Some? {
          assert init[i] == tracks[i];
        }
      }
      TrackBatchesShape(path, init, exporter, programs, t0, le, toSamples);
    }
  }
}
