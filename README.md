# Cacophony core, modelled in Dafny

This project models the core of Cacophony, a minimalist MIDI sequencer with a
keyboard-driven interface. Each Dafny module follows one part of the program:

- **`AudioConn`** (`conn.dfy`) is the audio connection. It covers:
  - the soundfont catalog (bank number to ascending preset list);
  - the default program and program selection;
  - the command interpreter (`do_commands`);
  - the play-state transitions;
  - building export jobs (`Exportable`s);
  - the export loop, which dequeues due events, renders one sample pair per sample, appends the decay and writes one file per job;
  - output file naming.
- **`MidiExport`** (`exporter.dfy`) is the exporter. It covers:
  - the defaults of a new exporter;
  - the Standard MIDI File event generation of `mid`, including the three-byte Set Tempo data and the delta-time accumulator;
  - the stereo interleaving of the WAV and Ogg writers;
  - the Ogg comment tags.
- **`IoLayer`** (`io.dfy`) is the editor's I/O layer. It covers:
  - which tracks play;
  - the playback notes and the track-to-command conversion;
  - the bounded undo/redo stacks, undo and redo, and panel cycling;
  - the single-file export and the multi-file export queue, which is drained only while no export runs;
  - track selection.
- **`PianoRoll`** (`piano_roll.dfy`) is the piano-roll panel. It covers the beat list, deleting, copying and pasting notes, adding recorded notes at the cursor, the arm and view toggles, and moving between tracks.
- **`ExportSettingsPanel`** (`export_settings.dfy`) covers stepping the framerate, the track number and the indexed settings, the boolean toggles and scrolling through the settings.
- **`TextLookup`** (`text.dfy`) covers:
  - text lookup and placeholder substitution;
  - the spoken forms of pulse counts and clock times;
  - note names;
  - the tooltip cache and the keycode map.
- **`InputManager`** (`input.dfy`) covers:
  - the qwerty note and octave arithmetic;
  - the event filter during text entry;
  - MIDI note-on/note-off capture and flushing (status bytes 0x90-0x9F and 0x80-0x8F of the Channel Voice Messages of the MIDI 1.0 Detailed Specification);
  - editing text and 32-bit numbers from typed characters.
- **`LegacyInput`** (`legacy_input.dfy`) is the older input crate's capture buffer.
- **`ChildPaths`** (`child_paths.dfy`) is the file browser's listing order and selection rule, with the directory read taken as an input.
- **`OpenFilePanel`** (`open_file.dfy`) covers:
  - saving and restoring the panels and focus around the open-file panel;
  - moving the selection up and down;
  - what selecting a file does for each open-file type.
- **`Saves`** (`save.dfy`) is the contents of a save file and the synthesizer commands that reading one sends.
- **`EditModeDeltas`** (`edit_mode_deltas.dfy`) holds the per-mode time, note and volume steps.
- Shared modules:
  - `Common` holds the tracks, notes, state, playable tracks and decimal text.
  - `Commands` holds the commands, snapshots and export state.
  - `Sorting` is an insertion sort over any total preorder.
  - `EventQueue` is the MIDI event queue with its `enqueue`, `sort` and `dequeue(t)`.

**Parameters.** Some collaborators are not part of this model. They are passed in as function-valued parameters:
- `Time::ppq_to_samples` is `toSamples`.
- `Index::increment` is `increment`.
- The synthesizer's load, select, preset-name and sample-reading calls are the `Synth` and `Renderer` records.
- `MidiTrack::get_playback_notes`, which the connection calls per track (audio/src/conn.rs:246), is `notesOf`.
- `SelectMode::get_notes` (io/src/piano_roll/piano_roll_panel.rs:93) is the parameter `selectedNotes` of the piano roll's copy.
- Note ordering is `le`.
- `edit_string` is `edit`.
- Opening, reading and deserialising a save file (io/src/save.rs:66-126) is `readSave`: it gives the file's contents, or `None` where `Save::read` panics. Whether `Save::write` can create and write the file (io/src/save.rs:30-63) is `canWrite`.
- `ExportPanel::enable`, which the io layer calls before an export (io/src/lib.rs:183-184, 489-490), is `enableExport`: it maps the state, the panels to restore and the focus to restore to the new state.

**Panics** are modelled as an explicit failure result (`None`, or a `panicked` flag). The state is unchanged up to the point of the panic. Integer underflow (`len() - 1` on an empty list, `n.end - min_time`) is taken to panic, as Rust's debug builds do; a release build would wrap around instead.

**Classes.** Objects whose fields the source updates in place are classes with `modifies` clauses: the connection, the I/O layer, the input managers, the piano-roll panel, the open-file panel, and the child-path listing. Their `&mut` state arguments are passed in and returned as values.

## Model

| member | source | states |
|---|---|---|
| Common.PositionOf | io/src/piano_roll/piano_roll_panel.rs:40-46 | the result is the first index holding `x`, and it is `None` exactly when `x` is absent |
| Common.SelectedTrack | io/src/piano_roll/piano_roll_panel.rs:169 | a track is returned exactly when the selection is set and inside the track list |
| Common.NoteIndices | io/src/piano_roll/piano_roll_panel.rs:102 | a single selection holds its one note index, or none; a many selection holds its list, or none |
| Common.Deselected | io/src/lib.rs:705-710 | `deselect` keeps the Single/Many kind of the selection and empties its note indices |
| Common.Unmuted | io/src/lib.rs:619 | every kept track is unmuted, and no more tracks than given are kept |
| Common.UnmutedExactly | io/src/lib.rs:619 | a track is kept exactly when it is one of the tracks and is not muted |
| Common.FirstSolo | io/src/lib.rs:615-617 | the result is the index of the first soloed track, and it is `None` exactly when no track is soloed |
| Common.PlayableTracksRule | io/src/lib.rs:613-622 | with a soloed track, only the first soloed track plays; otherwise the unmuted tracks play, in their order |
| Common.GainScaled | io/src/lib.rs:626-630 | a scaled velocity never exceeds the note's velocity, and full gain keeps it unchanged |
| Common.NatToString | input/src/input.rs:275 | `to_string` gives a non-empty string of decimal digits with no leading zero |
| Common.NatToStringRoundTrip | input/src/input.rs:275 | reading the numeral of `n` back gives `n` |
| Common.NatToStringInjective | input/src/input.rs:275 | distinct numbers give distinct numerals |
| Common.ParseU32 | input/src/input.rs:287 | a parsed value always fits in 32 bits |
| Common.ParseU32RoundTrip | input/src/input.rs:275-287 | every 32-bit value survives printing and then parsing |
| Commands.IndexedValues.Get | audio/src/conn.rs:439 | a value is returned exactly when the cursor is inside the list; otherwise the source panics |
| Commands.Reversed | io/src/lib.rs:321-353 | the redo snapshot of an undo has the from and to sides swapped, for both states and commands |
| Commands.ReversedTwice | io/src/lib.rs:321-353 | reversing twice gives back the snapshot, without its io commands |
| Sorting.Insert | io/src/lib.rs:633 | inserting adds exactly one element, as a multiset |
| Sorting.SortBy | io/src/lib.rs:633 | the sort keeps the length and is a permutation |
| Sorting.InsertKeepsSorted | io/src/lib.rs:633 | inserting into a sorted list keeps it sorted, for any total preorder |
| Sorting.SortBySorted | io/src/lib.rs:633 | the sort returns a sorted permutation of its input |
| Sorting.SortedHeadIsLeast | audio/src/conn.rs:302-303 | the first element of a sorted list is ordered before every element |
| EventQueue.TimeLeIsTotalPreorder | audio/src/conn.rs:267 | ordering events by sample time is a total preorder |
| EventQueue.Enqueue | audio/src/conn.rs:248-262 | `enqueue` appends one event at its time and keeps the queue before it |
| EventQueue.Sort | audio/src/conn.rs:267 | `sort` orders the queue by time and is a permutation |
| EventQueue.Dequeue | audio/src/conn.rs:450 | the popped events followed by the remaining ones are the queue |
| EventQueue.DequeueBounds | audio/src/conn.rs:450 | every popped event is due by `t`, and the first remaining event is not |
| EventQueue.DueBy | audio/src/conn.rs:450 | the reference set of due events: every one of them is due by `t` |
| EventQueue.DequeueSortedIsDueBy | audio/src/conn.rs:450 | on a sorted queue, `dequeue(t)` pops exactly the due events, and every event left is later |
| EventQueue.NothingDue | audio/src/conn.rs:450 | a queue whose events are all later than `t` has nothing due |
| EventQueue.DequeueTwiceIsEmpty | audio/src/conn.rs:448-451 | dequeuing the same sample again pops nothing |
| EventQueue.DequeueThenLater | audio/src/conn.rs:448-451 | dequeuing at `t` and then at a later `u` pops what one dequeue at `u` pops and leaves the same queue |
| ChildPaths.PathLeTotal | common/src/open_file/child_paths.rs:75-78 | the path order compares any two paths |
| ChildPaths.PathLeTransitive | common/src/open_file/child_paths.rs:75-78 | the path order chains |
| ChildPaths.PathLeAntisymmetric | common/src/open_file/child_paths.rs:75-78 | two paths ordered both ways are equal |
| ChildPaths.PathLeIsTotalPreorder | common/src/open_file/child_paths.rs:75-78 | the path order is a total preorder, so both sorts of the listing are sorts |
| ChildPaths.FilePaths | common/src/open_file/child_paths.rs:67-74 | the file paths are taken from the directory entries, at most one per entry |
| ChildPaths.FolderPaths | common/src/open_file/child_paths.rs:77 | the folder paths are taken from the directory entries, at most one per entry |
| ChildPaths.AsChildren | common/src/open_file/child_paths.rs:80-82 | one child per path, in order, marked as file or folder |
| ChildPaths.FirstIndexOf | common/src/open_file/child_paths.rs:24-31 | the result is the first child with the path, and `None` means no child has it |
| ChildPaths.Selection | common/src/open_file/child_paths.rs:24-45 | a selection always lies inside the listing |
| ChildPaths.FolderCountBound | common/src/open_file/child_paths.rs:22-44 | the folders never outnumber the children, and any file makes them fewer |
| ChildPaths.FolderCountAppend | common/src/open_file/child_paths.rs:80-82 | folder counts add up over concatenation |
| ChildPaths.FolderCountUniform | common/src/open_file/child_paths.rs:80-82 | a list of folders has as many folders as entries, and a list of files has none |
| ChildPaths.ConcatShape | common/src/open_file/child_paths.rs:80-82 | the children are the folders in order, then the files in order |
| ChildPaths.ListingShape | common/src/open_file/child_paths.rs:67-83 | a listing holds every folder, sorted, before every allowed file, sorted |
| ChildPaths.FilePathsExactly | common/src/open_file/child_paths.rs:58-74 | a path is listed as a file exactly when it is a file entry with an allowed extension |
| ChildPaths.FolderPathsExactly | common/src/open_file/child_paths.rs:58-78 | a path is listed as a folder exactly when it is a readable directory entry |
| ChildPaths.SelectsFirstFile | common/src/open_file/child_paths.rs:33-44 | with no previous directory: the first file when there are files, child 0 when there are only folders, nothing when empty |
| ChildPaths.ChildPaths.constructor | common/src/open_file/child_paths.rs:13-47 | a new listing is empty with no selection |
| ChildPaths.ChildPaths.Set | common/src/open_file/child_paths.rs:13-47 | `set` stores the ordered listing and the selection rule's choice, and the selection stays in range |
| EditModeDeltas.GetDt | io/src/piano_roll/edit_mode_deltas.rs:50-56 | the time step of each mode: the beat, the beat times the quick factor, or the fixed precise step; its properties are in `TimeStepMonotone` and `ShippedSteps` |
| EditModeDeltas.GetDn | io/src/piano_roll/edit_mode_deltas.rs:59-65 | the note step configured for each mode; its shipped values are in `ShippedSteps` |
| EditModeDeltas.GetDv | io/src/piano_roll/edit_mode_deltas.rs:68-74 | the volume step configured for each mode; its shipped values are in `ShippedSteps` |
| EditModeDeltas.TimeStepMonotone | io/src/piano_roll/edit_mode_deltas.rs:50-56 | a longer beat never gives a shorter time step in any mode, and with a positive quick factor the quick step is at least the normal one |
| EditModeDeltas.ShippedSteps | io/src/piano_roll/edit_mode_deltas.rs:84-94 | with the shipped configuration, the time, note and volume steps are 4 beats/1 beat/6 pulses, 12/1 and 10/1 |
| AudioConn.PresetsFrom | audio/src/conn.rs:31-37 | the listed presets lie in the probed range |
| AudioConn.PresetsFromRule | audio/src/conn.rs:31-37 | the preset list is strictly ascending and holds exactly the font's presets of that bank in range |
| AudioConn.NewBanksWellFormed | audio/src/conn.rs:29-44 | a new catalog lists every bank once, and each bank's preset list is non-empty and strictly ascending |
| AudioConn.CatalogRule | audio/src/conn.rs:29-44 | a bank is catalogued exactly when the font defines one of its presets, and its list holds exactly those presets |
| AudioConn.PresetsNonEmptyIff | audio/src/conn.rs:32-37 | a bank's preset list is non-empty exactly when the font defines a preset for it |
| AudioConn.NewBanks | audio/src/conn.rs:29-44 | a new catalog has the given id, and every bank in it is at most 128 and has presets |
| AudioConn.Position | audio/src/conn.rs:316-321 | `position` gives the first index holding the value |
| AudioConn.PositionOfElement | audio/src/conn.rs:316-321 | in a list without duplicates, the position of the `i`-th element is `i` |
| AudioConn.SelectProgram | audio/src/conn.rs:311-338 | fonts, gain and font ids stay, every other channel's program stays, and an accepted selection stores that path, bank and preset on the channel |
| AudioConn.DefaultProgram | audio/src/conn.rs:298-309 | the default program panics exactly when the font has no bank, and keeps the fonts and the gain |
| AudioConn.NatLeIsTotalPreorder | audio/src/conn.rs:302 | numeric order on bank numbers is a total preorder |
| AudioConn.DefaultIsLeast | audio/src/conn.rs:298-309 | the default program uses the smallest bank number and the smallest preset of that bank |
| AudioConn.StepKeepsLoaded | audio/src/conn.rs:155-217 | every command that does not panic keeps the catalog consistent with the programs |
| AudioConn.DefaultKeepsFonts | audio/src/conn.rs:298-309 | applying the default program leaves the loaded fonts alone |
| AudioConn.Load | audio/src/conn.rs:158-192 | a font that cannot be read panics; a load that succeeds has the font loaded, keeps every loaded font and the gain |
| AudioConn.LoadNewFont | audio/src/conn.rs:165-190 | loading a font read for the first time catalogues it, applies its default program, then panics unless the other channels' programs are accepted again |
| AudioConn.Step | audio/src/conn.rs:156-216 | a command that does not panic keeps every loaded font; `SetProgram` panics exactly when its font, bank index or preset index is missing; any other command than the four changes nothing |
| AudioConn.Steps | audio/src/conn.rs:155-217 | commands run in order keep every loaded font, unless one panics |
| AudioConn.ReloadOnlyReappliesDefault | audio/src/conn.rs:159-163 | loading an already-loaded font only reapplies that channel's default program, and every other program, the gain and the font ids stay |
| AudioConn.SelectOnlyOnSuccess | audio/src/conn.rs:311-338 | a refused selection changes nothing; an accepted one changes only that channel's program |
| AudioConn.SetProgramRecordsIndices | audio/src/conn.rs:193-205 | after an accepted `SetProgram` with indices `i` and `j`, the stored program holds `i` and `j` and the bank and preset they name |
| AudioConn.UnsetAndGain | audio/src/conn.rs:206-212 | `UnsetProgram` removes exactly that channel's program, and `SetGain` sets the gain and nothing else |
| AudioConn.StepsAppend | audio/src/conn.rs:155-157 | running one more command continues from the state the earlier commands left |
| AudioConn.StepsNone | audio/src/conn.rs:155-157 | once a command panics, no later command runs |
| AudioConn.OutputPath | audio/src/conn.rs:466-477 | the output path is `{stem}{ext}`, or `{stem}_{suffix}{ext}` with a suffix, in the parent directory |
| AudioConn.OutputPathsDistinct | audio/src/conn.rs:466-477 | two suffixed outputs of one export differ whenever their suffixes do |
| AudioConn.ExportFileSuffix | audio/src/conn.rs:530-548 | the channel suffix is the channel number; the preset suffixes exist exactly when the channel has a program |
| AudioConn.NoteEvents | audio/src/conn.rs:405-427 | a track gives exactly two events per note |
| AudioConn.LastEnd | audio/src/conn.rs:415-418 | the running end is at least the old end and every note's end sample, and it is one of them |
| AudioConn.TracksEventsCount | audio/src/conn.rs:243-267 | the queued events of all playable tracks number twice their notes |
| AudioConn.TracksEvents | audio/src/conn.rs:243-267 | the events of every track, track by track, two per note; its count is `TracksEventsCount` |
| AudioConn.LastEndOfTracks | audio/src/conn.rs:363-369 | the end over all tracks is at least the starting end |
| AudioConn.EventsOf | audio/src/conn.rs:450-452 | the events sent are the queued events without their times, in order |
| AudioConn.SentBySorted | audio/src/conn.rs:448-457 | on a sorted queue, the events sent before the sample after `t` are exactly those due by `t` |
| AudioConn.WavTrace | audio/src/conn.rs:446-454 | one progress report before the loop and one per sample |
| AudioConn.WavTraceCounts | audio/src/conn.rs:446-454 | the progress starts at 0 and then reports each sample once, in order, never reaching the total |
| AudioConn.AllTracesStep | audio/src/conn.rs:440-498 | the progress of one more exportable follows the progress so far |
| AudioConn.LogStep | audio/src/conn.rs:440-498 | the progress log grows by one exportable's progress at a time |
| AudioConn.Lefts | audio/src/conn.rs:456 | the left channel takes the first sample of each pair |
| AudioConn.Rights | audio/src/conn.rs:456 | the right channel takes the second sample of each pair |
| AudioConn.Frame | audio/src/conn.rs:448-457 | the sample pair at sample `t` is the synthesizer's output once the events due by `t` were sent; its use in the file is `FileContents` |
| AudioConn.Tail | audio/src/conn.rs:459-463 | the decay tail is the synthesizer's decay after every queued event was sent (corrected order, see Findings) |
| AudioConn.FileOf | audio/src/conn.rs:441-477 | a file is written at the exportable's path with its format, and both channels hold one sample per sample of the music plus the tail |
| AudioConn.Files | audio/src/conn.rs:440-498 | one file per exportable |
| AudioConn.FilesStep | audio/src/conn.rs:440-498 | the files of one more exportable follow the files so far |
| AudioConn.FilesPointwise | audio/src/conn.rs:440-498 | one file per exportable, each the exportable's own rendering at its own path |
| AudioConn.FileContents | audio/src/conn.rs:443-477 | each channel holds one sample per sample of the music, then the decay tail, and the path carries the suffix and the format's extension |
| AudioConn.SentStep | audio/src/conn.rs:448-451 | dequeuing the next sample's events continues the dequeues so far |
| AudioConn.SentBeforeEnd | audio/src/conn.rs:448-457 | everything sent by the loop was due before the last sample, and the sent events followed by the rest are the queue |
| AudioConn.ExportNeverSendsLastNoteOff | audio/src/conn.rs:448-463 | as written, a one-note export never sends the note-off at its last sample before the decay |
| AudioConn.SentBeforeDecay | audio/src/conn.rs:448-463 | corrected, the events sent before the decay are the events sent by the last sample followed by those still queued, which together are every scheduled event |
| AudioConn.CorrectedExportSendsEveryEvent | audio/src/conn.rs:448-463 | corrected, the decay tail is rendered after every scheduled event was sent, the last note-off included |
| AudioConn.Conn.constructor | audio/src/conn.rs:75-116 | a new connection has no fonts, no programs, no queue, and is neither playing nor exporting |
| AudioConn.Conn.Exporting | audio/src/conn.rs:227-229 | `exporting` is true exactly when an export state is set |
| AudioConn.Conn.DoCommands | audio/src/conn.rs:155-217 | it panics exactly when the commands run in order would; otherwise the new state is that run's result |
| AudioConn.Conn.DoCommand | audio/src/conn.rs:156-216 | one command panics exactly when its step does, and otherwise leaves the step's state |
| AudioConn.Conn.LoadSoundFont | audio/src/conn.rs:158-192 | loading panics exactly when the load rule does, and otherwise leaves the load rule's state |
| AudioConn.Conn.AddSoundFont | audio/src/conn.rs:165-190 | a font read for the first time is catalogued under the next id, its default applied and the other channels restored, as the load rule says |
| AudioConn.Conn.RestoreOthers | audio/src/conn.rs:171-185 | succeeds exactly when every other channel's program is accepted again |
| AudioConn.Conn.SetProgramDefault | audio/src/conn.rs:298-309 | panics exactly when the default rule does, and otherwise applies the default program |
| AudioConn.Conn.SetProgram | audio/src/conn.rs:311-338 | the new programs are the selection rule's result |
| AudioConn.Conn.SetMusic | audio/src/conn.rs:219-226 | when not playing, music starts at the playback time: the queue gains a sorted permutation of two events per playable note and nothing is sent; otherwise every track is sent the stop events, the sound decays and the queue stays |
| AudioConn.Conn.StartMusic | audio/src/conn.rs:232-274 | the queue gains two events per playable note and is sorted by time as a permutation; the state becomes `Playing(start)` |
| AudioConn.Conn.QueueTracks | audio/src/conn.rs:245-265 | the loop appends every playable track's events in track order |
| AudioConn.Conn.Export | audio/src/conn.rs:430-503 | panics exactly for the MIDI format with something to export; otherwise it writes one file per exportable, logs every progress report and ends `NotExporting` |
| AudioConn.Conn.ExportAll | audio/src/conn.rs:440-499 | the loop writes every exportable's file in order and logs each one's progress, unless the format is MIDI |
| AudioConn.Conn.ExportNext | audio/src/conn.rs:440-499 | one more exportable's file and progress are appended |
| AudioConn.Conn.ExportOne | audio/src/conn.rs:441-498 | an exportable's file is its rendering, decay and path, and its progress ends `Done`; the MIDI format writes nothing; the decay follows every queued event (corrected, see Findings) |
| AudioConn.Conn.RenderWav | audio/src/conn.rs:443-457 | each buffer slot holds the frame rendered after the events due by that sample were sent, and the events sent are exactly those |
| AudioConn.Conn.SendDue | audio/src/conn.rs:450-452 | one sample's dequeue moves the due events from the queue to the sent events |
| AudioConn.Conn.QueueNotes | audio/src/conn.rs:246-264 | a note-on and a note-off are queued for each note |
| AudioConn.Conn.StopMusic | audio/src/conn.rs:276-296 | every track is sent all-notes-off, and all-sound-off when the first was accepted; the sound then decays |
| AudioConn.StopEventsSilenceEveryTrack | audio/src/conn.rs:276-296 | every track's channel is sent all-notes-off, and all-sound-off only where all-notes-off was accepted |
| AudioConn.Conn.EnqueueTrackEvents | audio/src/conn.rs:396-428 | two events per note are added, and the end time grows to the latest note end |
| AudioConn.Conn.StartExport | audio/src/conn.rs:340-394 | multi-file: it panics exactly when there are playable tracks and one lacks a suffix; otherwise one exportable per playable track, in order, holding that track's events sorted, lasting to its latest note end, with its suffix; single-file: exactly one unsuffixed exportable holding every playable track's events sorted, two per note, lasting to the latest note end |
| AudioConn.Conn.SingleFileExportable | audio/src/conn.rs:366-379 | the one exportable holds every playable track's events, sorted, two per note, and lasts to the latest note end |
| AudioConn.Conn.MultiFileExportables | audio/src/conn.rs:346-365 | panics exactly when a track has no suffix; otherwise one exportable per track, each that track's own exportable |
| AudioConn.Conn.ExportTrack | audio/src/conn.rs:347-364 | a track's exportable exists exactly when its suffix does, and holds that track's sorted events, end and suffix |
| AudioConn.TrackExportableExportsTrack | audio/src/conn.rs:347-364 | a track's exportable holds exactly the track's events, two per note, sorted, with a suffix, lasting to its latest note end |
| AudioConn.TrackExportablesExportTracks | audio/src/conn.rs:346-365 | each exportable of a multi-file export holds exactly its own track's events |
| MidiExport.New | audio/src/exporter.rs:85-94 | a new exporter is wav, mp3 bit-rate index 8, mp3 quality index 0 and Ogg quality 5 of 10, with no copyright and no multi-file |
| MidiExport.Tempo | audio/src/exporter.rs:136 | the tempo is the whole number of microseconds per beat: `60000000` divided by the speed, rounded down |
| MidiExport.TempoBytes | audio/src/exporter.rs:136-141 | the Set Tempo data is three bytes |
| MidiExport.BytesRoundTrip | audio/src/exporter.rs:136-141 | any value below 2^24 survives the three big-endian bytes |
| MidiExport.TempoBytesExact | audio/src/exporter.rs:136-141 | the tempo survives the three bytes exactly when the speed is at least 4 beats per minute |
| MidiExport.GatherNotes | audio/src/exporter.rs:104-111 | no notes are gathered exactly when every track is empty |
| MidiExport.InstrumentNames | audio/src/exporter.rs:128-134 | one instrument-name event per program, in order, with delta 0 |
| MidiExport.Header | audio/src/exporter.rs:114-141 | the header is the title, a copyright notice exactly when asked for, the instruments and the tempo, all with delta 0 |
| MidiExport.StartLeIsTotalPreorder | audio/src/exporter.rs:144 | ordering notes by start is a total preorder |
| MidiExport.MaxEnd | audio/src/exporter.rs:146 | the last time is the latest note end |
| MidiExport.Emit | audio/src/exporter.rs:343-351 | an event carries the accumulated delta in quarter notes, and the accumulator restarts at zero |
| MidiExport.Pass | audio/src/exporter.rs:158-180 | a pass appends at most one event per note, and one that appends nothing changes nothing |
| MidiExport.Pulse | audio/src/exporter.rs:156-184 | a pulse appends at most two events per note and adds one pulse to the delta |
| MidiExport.Run | audio/src/exporter.rs:146-184 | the pulses only append events after the header |
| MidiExport.CorrectedNoteEvents | audio/src/exporter.rs:146-184 | the corrected note events begin with the header |
| MidiExport.Mid | audio/src/exporter.rs:102-200 | no output without notes; with notes, a tempo of 0 panics; otherwise the header, the sorted notes' events up to and including the last note-off (corrected bound, see Findings) and end-of-track |
| MidiExport.HeaderMessages | audio/src/exporter.rs:114-141 | the header messages are the header |
| MidiExport.NoteMessages | audio/src/exporter.rs:146-184 | the pulse loop, run up to and including the last note-off (corrected bound, see Findings), produces the corrected note events |
| MidiExport.PassMessages | audio/src/exporter.rs:158-180 | one inner loop is one pass over the notes at the pulse |
| MidiExport.BeforeStep | audio/src/exporter.rs:156-184 | the counts of notes starting or ending before a pulse grow by those at it |
| MidiExport.PassShape | audio/src/exporter.rs:158-180 | a pass only appends events of its kind, all but the first with delta 0 |
| MidiExport.PassCounts | audio/src/exporter.rs:158-180 | a pass adds one note-on per note starting at the pulse, or one note-off per note ending there |
| MidiExport.PassAppendsOne | audio/src/exporter.rs:158-180 | a note that emits adds exactly one event of its kind |
| MidiExport.PulseShape | audio/src/exporter.rs:156-184 | within a pulse every note-on comes before every note-off, and only the first event can carry a delta |
| MidiExport.PulseCounts | audio/src/exporter.rs:156-184 | one pulse adds a note-on for every note starting at it and a note-off for every note ending at it |
| MidiExport.FirstOfPass | audio/src/exporter.rs:343-351 | the first event of a pass carries the delta accumulated before it |
| MidiExport.RunCounts | audio/src/exporter.rs:146-184 | the pulses before `n` emit one note-on per note starting before `n` and one note-off per note ending before `n` |
| MidiExport.NoneBefore | audio/src/exporter.rs:146 | nothing starts or ends before pulse 0 |
| MidiExport.AllBefore | audio/src/exporter.rs:146-184 | when every note ends before `n`, every note ends and starts before `n` |
| MidiExport.SomeNotBefore | audio/src/exporter.rs:146-184 | a note ending at or after `n` leaves fewer note ends before `n` than notes |
| MidiExport.EndsBeforeBound | audio/src/exporter.rs:146-184 | there are never more ends than notes |
| MidiExport.MidDropsLastNoteOff | audio/src/exporter.rs:146-184 | as written, fewer note-offs than notes are emitted |
| MidiExport.OneNoteHasNoNoteOff | audio/src/exporter.rs:146-184 | as written, one quarter note gets a note-on and no note-off |
| MidiExport.CorrectedEventsCloseEveryNote | audio/src/exporter.rs:146-184 | corrected, every note gets its note-off, and its note-on |
| MidiExport.NoDescriptionInCommon | audio/src/exporter.rs:303-321 | the tags before the description tag hold no description |
| MidiExport.OggTagsAsWritten | audio/src/exporter.rs:303-324 | as written, the tags hold the title, and a description equal to the genre when there is one |
| MidiExport.OggTags | audio/src/exporter.rs:303-324 | corrected, the tags hold the title, and a description equal to the comment when there is one |
| MidiExport.OggDescriptionTakesGenre | audio/src/exporter.rs:322-324 | as written, the description holds the genre and not the comment |
| MidiExport.OggDescriptionIsComment | audio/src/exporter.rs:322-324 | corrected, the file is described by its comment, and only then |
| MidiExport.OggCopyrightRule | audio/src/exporter.rs:307-312 | a copyright tag is written exactly when there is an artist and the copyright flag is set |
| MidiExport.Interleave | audio/src/exporter.rs:216-220 | the samples alternate left and right per frame, twice the shorter channel's length |
| TextLookup.ReplaceAllAbsent | text/src/text.rs:224 | replacing a pattern that does not occur changes nothing |
| TextLookup.NoHeadNoOccurrence | text/src/text.rs:224 | text without the pattern's first character does not contain the pattern |
| TextLookup.ReplaceAll | text/src/text.rs:224 | replacing a pattern by itself changes nothing, and text starting with the pattern starts with the replacement |
| TextLookup.ReplaceAllFirst | text/src/text.rs:224 | the first occurrence is replaced, the text before it kept, and the scan resumes after it |
| TextLookup.CollapseIsOnePass | text/src/text.rs:229 | collapsing double spaces is one pass: three spaces become two |
| TextLookup.Wildcard | text/src/text.rs:491-495 | the wildcard pattern begins with its prefix |
| TextLookup.WildcardInjective | text/src/text.rs:220-224 | distinct indices give distinct wildcards |
| TextLookup.FillValues | text/src/text.rs:216-228 | filling every wildcard with itself gives back the template |
| TextLookup.FillValuesNoWildcards | text/src/text.rs:216-228 | a template without backslashes is returned as is |
| TextLookup.FillOneValue | text/src/text.rs:216-228 | a one-wildcard template gets its value spliced in at `\0` |
| TextLookup.FractionKeysAreExact | text/src/text.rs:307-315 | every fraction key names exactly the fraction of a beat its pulse count is |
| TextLookup.Memo | text/src/text.rs:338-346 | a cached tooltip is returned as cached; otherwise the built one is returned and cached |
| TextLookup.MemoIsStable | text/src/text.rs:338-346 | after the first lookup, a key's tooltip never changes |
| TextLookup.ClockDivisions | text/src/text.rs:279-299 | the clock divisions never go below zero, and the minutes of the hour are the whole minutes mod 60 |
| TextLookup.ClockOf | text/src/text.rs:279-299 | minutes and seconds are below 60, and hours, minutes and seconds add back up to the duration |
| TextLookup.ClockAsWritten | text/src/text.rs:279-299 | as written, the hours are the whole hours and the minutes those of the hour, but minutes and seconds alone add up to the whole duration |
| TextLookup.AsWrittenBelowAnHour | text/src/text.rs:279-299 | under an hour, the as-written clock is right |
| TextLookup.AsWrittenFromAnHour | text/src/text.rs:279-299 | as written, the seconds are off by 3600 per whole hour |
| TextLookup.AsWrittenAt3661 | text/src/text.rs:279-299 | as written, 3661 seconds reads as 1 hour, 1 minute, 3601 seconds |
| TextLookup.GetKeycodeMap | text/src/text.rs:439-448 | each key is paired with the text of its lookup plus the spoken or seen suffix; a missing text panics |
| TextLookup.ZipLookups | text/src/text.rs:441-447 | the zip loop maps the keys to their lookups' texts exactly when all are present |
| TextLookup.Text.constructor | text/src/text.rs:166-205 | a new text table has the given texts and note names and an empty tooltip cache |
| TextLookup.Text.Get | text/src/text.rs:208-213 | the text of a present key; a missing key panics |
| TextLookup.Text.GetWithValues | text/src/text.rs:216-233 | the wildcards are filled with the values in order, then double spaces are collapsed in one pass; a missing key panics |
| TextLookup.Text.GetTime | text/src/text.rs:279-299 | the hours form exactly when there is at least an hour, filled with the corrected clock fields of `ClockOf` (seconds of the current minute), not the as-written ones (see Findings) |
| TextLookup.Text.GetPpqTts | text/src/text.rs:302-319 | whole beats are said as a number, the listed fractions by their text, and anything else with two decimals |
| TextLookup.Text.GetNoteName | text/src/text.rs:327-329 | the name exists exactly when the note is in the table's range, and it is the note's entry |
| TextLookup.Text.GetTooltip | text/src/text.rs:338-346 | the tooltip and the new cache are the cached lookup's |
| TextLookup.PpqTtsWholeBeats | text/src/text.rs:304-305 | a whole-beat pulse count reads back as its number of beats |
| InputManager.KeepAllowed | input/src/input.rs:181-184 | filtering never adds events |
| InputManager.KeepAllowedExactly | input/src/input.rs:181-184 | during text entry, an event is kept exactly when it is one of the allowed events |
| InputManager.QwertyMessage | input/src/input.rs:327-334 | a qwerty note is a note-on at the input volume, with a key of at most 119 on the played semitone |
| InputManager.QwertyMessageInjective | input/src/input.rs:327-334 | distinct octaves or semitones play distinct keys |
| InputManager.QwertyStep | input/src/input.rs:151-179 | the octave stays in its bounds after any key |
| InputManager.QwertyRun | input/src/input.rs:151-179 | the octave stays in its bounds over a frame |
| InputManager.QwertyRunPlaysOnePerNote | input/src/input.rs:151-179 | every note key plays exactly one note; the octave keys play none |
| InputManager.WithVolume | input/src/input.rs:202-215 | the velocity becomes the input volume exactly when the volume is used; status and key stay |
| InputManager.MarkOff | input/src/input.rs:217-225 | a note-off marks every pending note-on of its key as off, and nothing else |
| InputManager.CaptureAll | input/src/input.rs:187-226 | the notes played only grow |
| InputManager.NoteOnsOfAppend | input/src/input.rs:202-215 | collecting the note-ons is additive over messages |
| InputManager.CapturePlaysNoteOns | input/src/input.rs:202-215 | the notes played are exactly the frame's note-ons in order, armed or not |
| InputManager.UnarmedCaptureKeepsPending | input/src/input.rs:202-225 | unarmed, nothing is remembered for recording |
| InputManager.NotesOf | input/src/input.rs:228-233 | the flushed notes are the pending note-ons' notes, in order |
| InputManager.Flush | input/src/input.rs:228-233 | the pending notes become new notes and the list empties exactly when it is non-empty and all are released |
| InputManager.Pow10 | input/src/input.rs:270-292 | a power of ten is positive |
| InputManager.DigitsValueAppend | input/src/input.rs:270-292 | typed digits shift the value by a power of ten and add theirs |
| InputManager.ShiftDistributes | input/src/input.rs:270-292 | shifting one more digit distributes over the value |
| InputManager.DigitsOnly | input/src/input.rs:270-292 | only the typed digits are kept |
| InputManager.Input.constructor | input/src/input.rs:57-108 | a new input has octave 4 and empty buffers |
| InputManager.Input.QwertyNote | input/src/input.rs:327-334 | the note is played now, and recorded exactly when armed |
| InputManager.Input.CaptureMessage | input/src/input.rs:187-226 | one MIDI message updates the pending note-ons and the notes to play as the capture step says |
| InputManager.Input.FlushNotes | input/src/input.rs:228-233 | the new notes and pending list become the flush's result |
| InputManager.Input.Update | input/src/input.rs:110-236 | a frame's events, octave, notes played now, new notes and pending note-ons, from the qwerty run and the MIDI capture |
| InputManager.Input.QwertyInput | input/src/input.rs:151-179 | the qwerty loop plays and records the run's notes and moves the octave |
| InputManager.Input.MidiInput | input/src/input.rs:187-235 | the MIDI loop captures every message, then flushes |
| InputManager.Input.ModifyString | input/src/input.rs:295-308 | backspace removes one character when there is one; otherwise the typed characters are appended, and the result says whether anything changed |
| InputManager.Input.ModifyU32 | input/src/input.rs:265-292 | backspace divides by ten; typed digits shift in, and an overflow falls back to 0 |
| InputManager.BackspaceDropsDigit | input/src/input.rs:270-292 | deleting the last digit of a number's text reads back as the number divided by ten |
| InputManager.TypedDigitsAppend | input/src/input.rs:270-292 | appending digits to a number's text reads back as the shifted number, or 0 past 32 bits |
| LegacyInput.Input.constructor | cacophony_input/src/input.rs:31-59 | a new input has empty buffers |
| LegacyInput.Input.Happened | cacophony_input/src/input.rs:137-139 | `happened` holds exactly when the event is one of this frame's events |
| LegacyInput.Input.Update | cacophony_input/src/input.rs:61-134 | the frame's events are stored; note-ons are kept unchanged, pending ones flushed when all released, and the note buffers only grow |
| LegacyInput.Input.CaptureMessage | cacophony_input/src/input.rs:105-124 | one message updates the pending note-ons and the note-ons as the capture step says, keeping velocities |
| LegacyInput.Input.FlushNotes | cacophony_input/src/input.rs:127-132 | the new notes and pending list become the flush's result |
| IoLayer.Scaled | io/src/lib.rs:626-632 | each note keeps its place, and its velocity is scaled by the track gain |
| IoLayer.PlaybackNotesRule | io/src/lib.rs:625-635 | the playback notes keep every note, scaled, and are sorted; at full gain they are the track's notes |
| IoLayer.PlaybackNotes | io/src/lib.rs:625-635 | `get_playback_notes` gives the playback notes |
| IoLayer.Kept | io/src/lib.rs:656-660 | every kept note starts at or after `t0` |
| IoLayer.OnAts | io/src/lib.rs:666-672 | one timed note command per note, with its start and end samples |
| IoLayer.OnAtsAppend | io/src/lib.rs:666-672 | note commands are additive over notes |
| IoLayer.KeptEnd | io/src/lib.rs:661-664 | the running end never decreases |
| IoLayer.KeptFolds | io/src/lib.rs:655-673 | building commands note by note is filtering first, then a command per note and the latest end |
| IoLayer.LastEndAppend | io/src/lib.rs:661-664 | the end after one more note is the larger of the two |
| IoLayer.TracksEnd | io/src/lib.rs:653-674 | the end over the tracks is at least `t0` |
| IoLayer.AddNoteOnAts | io/src/lib.rs:655-673 | the inner loop appends the kept notes' commands and moves the end |
| IoLayer.TracksStep | io/src/lib.rs:653-674 | the commands and end of one more track follow those so far |
| IoLayer.AddTracks | io/src/lib.rs:653-674 | the track loop gives every playable track's commands and the latest end |
| IoLayer.CombineTracksToCommands | io/src/lib.rs:638-678 | `combine_tracks_to_commands` returns the combined commands and end |
| IoLayer.LastEndMonotone | io/src/lib.rs:661-664 | a later start gives a later end |
| IoLayer.TracksOnAtsWithin | io/src/lib.rs:653-674 | every note command starts at or after `t0` and ends by the latest end |
| IoLayer.CombinedShape | io/src/lib.rs:638-678 | play from `t0`, set the framerate, the note commands within `[t0, t1]`, then stop at `t1 >= t0` |
| IoLayer.Combined | io/src/lib.rs:638-678 | the commands play from `t0`, set the framerate and end by stopping at the end time, which is at least `t0` |
| IoLayer.KeptExactly | io/src/lib.rs:656-660 | a note is kept exactly when it starts at or after `t0` |
| IoLayer.PushUndoRule | io/src/lib.rs:470-477 | pushing clears redo, puts the snapshot on top, drops only the oldest, and keeps at most `MAX_UNDOS` |
| IoLayer.PushUndo | io/src/lib.rs:470-477 | pushing clears the redo stack, puts the snapshot on top, and adds at most one snapshot |
| IoLayer.UndoStep | io/src/lib.rs:321-336 | an empty undo stack changes nothing; otherwise the newest snapshot leaves the undo stack, its reversal goes on the redo stack, the state becomes the snapshot's from state (or stays) marked unsaved, and the snapshot's from commands are sent |
| IoLayer.UndoRevertsPushedAction | io/src/lib.rs:321-336 | undoing a pushed action whose from state is `s0` restores `s0`, marked unsaved, and puts the reversed action on the redo stack |
| IoLayer.RedoStep | io/src/lib.rs:338-352 | an empty redo stack changes nothing; otherwise the newest snapshot leaves the redo stack, its reversal goes on the undo stack, the state becomes the snapshot's from state (or stays) marked unsaved, and the snapshot's from commands are sent |
| IoLayer.UndoRedoMoveOne | io/src/lib.rs:321-353 | an empty stack changes nothing; otherwise one snapshot moves between the stacks |
| IoLayer.UndoThenRedo | io/src/lib.rs:321-353 | undo then redo restores the undone state, resends its commands and returns the snapshot to the undo stack |
| IoLayer.CyclePanelExceedsBound | io/src/lib.rs:355-365 | as written, cycling panels on a full undo stack grows it past `MAX_UNDOS` |
| IoLayer.CyclePanelAsWritten | io/src/lib.rs:355-365 | as written, cycling panels adds one snapshot to the undo stack and keeps the redo stack |
| IoLayer.CyclePanel | io/src/lib.rs:355-365 | corrected, cycling panels clears redo, puts the panel change on top and adds at most one snapshot |
| IoLayer.CyclePanelKeepsBound | io/src/lib.rs:355-365 | corrected, cycling panels keeps the bound and puts the panel change on top |
| IoLayer.SelectTrackBounds | io/src/lib.rs:683-704 | the selection stays inside the track list; a move is by one track, clears the notes keeping the kind, and is undoable |
| IoLayer.SelectTrack | io/src/lib.rs:683-704 | it panics exactly when next is asked with a selection and no tracks; the tracks stay, no snapshot means no change, and a snapshot records the change |
| IoLayer.IO.constructor | io/src/lib.rs:94-151 | a new layer has empty undo, redo and export queue |
| IoLayer.IO.PushUndoSnapshot | io/src/lib.rs:470-477 | the stacks become the push rule's result |
| IoLayer.IO.ApplySnapshot | io/src/lib.rs:422-467 | a snapshot with a from side is pushed and marks the state unsaved; anything else changes nothing |
| IoLayer.IO.Update | io/src/lib.rs:165-406 | quit ends the frame; when no export runs and a batch is queued, the export panel is enabled with the saved panels and focus, the batch starts and its commands are sent; while an export runs the frame ends with that state and nothing else is sent; undo and redo move one snapshot and send its commands; panel cycling is pushed through `push_undo` (corrected, see Findings) |
| IoLayer.IO.Export | io/src/lib.rs:485-514 | the current panels and focus are saved and the export panel is enabled with them; then multi-file queues the batches or panics, and single-file starts one export to the last note's end and sends the combined commands |
| IoLayer.IO.QueueMultiFileExport | io/src/lib.rs:522-609 | panics exactly when the path lacks an extension or a track lacks a suffix; otherwise it queues the batches and leaves the exporter as it was |
| IoLayer.QueueTracks | io/src/lib.rs:542-603 | the per-track loop succeeds exactly when every track has a suffix, and then gives every batch and path |
| IoLayer.QueueTrack | io/src/lib.rs:543-602 | a track has a path exactly when it has a suffix, and its batch exports to that path |
| IoLayer.TrackBatchesStep | io/src/lib.rs:542-603 | the batches and paths of one more track follow those so far |
| IoLayer.TrackPaths | io/src/lib.rs:574-591 | one path per track |
| IoLayer.QueuedShape | io/src/lib.rs:522-609 | one batch per track exporting to its own path, then a last batch with no export state that stops and appends silences to every path |
| IoLayer.Queued | io/src/lib.rs:522-609 | one batch per track, then a last batch with no export state that stops the music and appends silences to every path |
| IoLayer.TrackBatches | io/src/lib.rs:542-603 | one batch per track |
| IoLayer.TrackBatchesShape | io/src/lib.rs:542-603 | every track batch sets an export state and exports to its track's path |
| OpenFilePanel.LastComponent | io/src/open_file_panel.rs:236-238 | the last component has no `/` and ends the path |
| OpenFilePanel.FileName | io/src/open_file_panel.rs:236-238 | a file name is non-empty and has no `/` |
| OpenFilePanel.LastComponentOfSuffix | io/src/open_file_panel.rs:236-238 | the last component of a directory joined with a name is the name |
| OpenFilePanel.FileNameOfJoin | io/src/open_file_panel.rs:236-238 | the file name of a directory joined with a name is the name |
| OpenFilePanel.WithExtension | io/src/open_file_panel.rs:263-278 | write-save appends `.cac`, export appends `.wav`, and the other types add nothing |
| OpenFilePanel.Enabled | io/src/open_file_panel.rs:20-33 | the panel becomes the only one, focus is `Index(0, 1)`, and undo is disabled |
| OpenFilePanel.Disabled | io/src/open_file_panel.rs:64-72 | the saved panels and focus come back, undo is enabled and text entry is off |
| OpenFilePanel.EnableThenDisable | io/src/open_file_panel.rs:20-72 | opening then closing gives back the panels and focus, and changes only the undo and text-entry flags |
| OpenFilePanel.PathAbove | io/src/open_file_panel.rs:213-219 | up moves by one unless at the first child |
| OpenFilePanel.PathBelow | io/src/open_file_panel.rs:221-229 | down moves by one unless at the last child, and never leaves the list |
| OpenFilePanel.BelowThenAbove | io/src/open_file_panel.rs:213-229 | down then up gives back any child but the last |
| OpenFilePanel.OpenFilePanel.constructor | io/src/open_file_panel.rs:9-16 | a new panel has no open-file type and nothing saved |
| OpenFilePanel.OpenFilePanel.Enable | io/src/open_file_panel.rs:20-33 | `enable` saves the panels and focus and gives the enabled state |
| OpenFilePanel.OpenFilePanel.Open | io/src/open_file_panel.rs:36-61 | opening records the type, directory and file name, saves the panels and focus, and enables |
| OpenFilePanel.OpenFilePanel.Disable | io/src/open_file_panel.rs:64-72 | `disable` restores the saved panels and focus |
| Saves.Loads | io/src/save.rs:90-99 | one SoundFont load per saved program whose path exists |
| Saves.Sets | io/src/save.rs:101-112 | one program selection per saved program whose path exists |
| Saves.ReadCommands | io/src/save.rs:84-118 | the gain is set first, then every SoundFont is loaded, then every program is selected, two commands per saved program whose path exists |
| Saves.LoadsExactly | io/src/save.rs:90-99 | a SoundFont is loaded exactly when a saved program with an existing path uses it on that channel |
| Saves.SetsExactly | io/src/save.rs:101-112 | a program is selected exactly when it was saved with those indices and its path exists |
| Saves.ReadCommandsRestorePrograms | io/src/save.rs:84-118 | reading a save loads and selects exactly the saved programs whose SoundFont exists |
| OpenFilePanel.OpenFilePanel.Select | io/src/open_file_panel.rs:231-280 | read-save replaces the state with the save file's, sends the file's synthesizer commands and sets the save path, or panics where the file cannot be read; write-save sets the save path to the file name with `.cac`, or panics where it cannot be written; export sets the export path to the file name with `.wav`; a soundfont file is loaded on the selected track's channel, undoably |
| OpenFilePanel.OpenFilePanel.Update | io/src/open_file_panel.rs:82-286 | up and down move the selection within bounds, select disables the panel and gives the selection's outcome for the open-file type, close returns the `DisableOpenFile` io command in the snapshot and sends nothing |
| PianoRoll.InitialBeatsRule | io/src/piano_roll/piano_roll_panel.rs:40-47 | the beat index always points at the input beat: its first position when configured, otherwise a new last entry |
| PianoRoll.InitialBeats | io/src/piano_roll/piano_roll_panel.rs:40-47 | the beat index points at the input beat, and the list is the configured beats, plus the input beat at the end when it was not configured |
| PianoRoll.KeptPositions | io/src/piano_roll/piano_roll_panel.rs:105-111 | every kept position is in range and not selected |
| PianoRoll.KeptPositionsExactly | io/src/piano_roll/piano_roll_panel.rs:105-111 | the kept positions are exactly the unselected ones, in increasing order |
| PianoRoll.DeleteNotesRule | io/src/piano_roll/piano_roll_panel.rs:99-122 | exactly the selected notes go, the rest keep their order, other tracks stay, the selection is cleared keeping its kind, and the change is undoable |
| PianoRoll.DeleteNotes | io/src/piano_roll/piano_roll_panel.rs:99-122 | nothing changes without a snapshot; with one, the change is recorded and the note selection is cleared |
| PianoRoll.MinStart | io/src/piano_roll/piano_roll_panel.rs:390-395 | the earliest start is some note's start, and no note starts earlier |
| PianoRoll.Shift | io/src/piano_roll/piano_roll_panel.rs:397-401 | every copied note is moved by the same offset, unless an end would underflow |
| PianoRoll.PastedShape | io/src/piano_roll/piano_roll_panel.rs:384-412 | the earliest pasted note is at the cursor, and every duration and relative offset is kept |
| PianoRoll.TogglesAreInvolutions | io/src/piano_roll/piano_roll_panel.rs:414-424 | each toggle flips exactly one flag, and applying it twice restores the state |
| PianoRoll.TrackScrollBounds | io/src/piano_roll/piano_roll_panel.rs:442-470 | previous and next track stay in the track list, move only when not at the end, and change nothing else |
| PianoRoll.PreviousTrack | io/src/piano_roll/piano_roll_panel.rs:442-454 | only the track selection changes, stays set or unset, and never moves down the list |
| PianoRoll.NextTrack | io/src/piano_roll/piano_roll_panel.rs:456-469 | panics exactly when a track is selected and there are none; otherwise only the selection changes, stays set or unset, and never moves up the list |
| PianoRoll.BranchOf | io/src/piano_roll/piano_roll_panel.rs:126-166 | no selected track gives the no-track branch, and notes are added exactly when armed with new notes |
| PianoRoll.PianoRollPanel.constructor | io/src/piano_roll/piano_roll_panel.rs:28-57 | `new` stores the beat list and index of the beat rule |
| PianoRoll.PianoRollPanel.SetInputBeat | io/src/piano_roll/piano_roll_panel.rs:60-67 | the beat index steps, and the input beat becomes the beat under it, undoably; with a well-behaved increment the panel stays valid and the step never fails |
| PianoRoll.PianoRollPanel.SetInputBeatKeepsValid | io/src/piano_roll/piano_roll_panel.rs:60-67 | with a well-behaved increment, the beat index stays in the list |
| PianoRoll.PianoRollPanel.CopySelection | io/src/piano_roll/piano_roll_panel.rs:92-96 | the copy buffer takes the selected notes when there are any |
| PianoRoll.PianoRollPanel.Paste | io/src/piano_roll/piano_roll_panel.rs:384-412 | the moved copies are appended to the selected track, undoably, and the copy buffer stays |
| PianoRoll.PianoRollPanel.Update | io/src/piano_roll/piano_roll_panel.rs:126-492 | each branch's effect: play/stop, copy, cut, delete, adding recorded notes at the cursor, paste, toggles, modes, previous and next track with their snapshots, and the beat step with the new input beat; with a well-behaved increment the panel stays valid |
| PianoRoll.AddNotesAtCursor | io/src/piano_roll/piano_roll_panel.rs:141-166 | with a program, one note per message from the cursor for one beat is appended and the cursor advances one beat, undoably |
| ExportSettingsPanel.Step | io/src/export_settings_panel.rs:136-160 | the previous-value event steps down and wins over next; no event means no step |
| ExportSettingsPanel.NextFramerate | io/src/export_settings_panel.rs:104-116 | only a listed framerate steps, and the result is a listed framerate |
| ExportSettingsPanel.NextFramerateTotal | io/src/export_settings_panel.rs:104-116 | with a well-behaved increment, stepping succeeds exactly on the listed framerates |
| ExportSettingsPanel.SetFramerate | io/src/export_settings_panel.rs:104-116 | the framerate steps within the list, undoably, or the source panics |
| ExportSettingsPanel.TrackNumberUpThenDown | io/src/export_settings_panel.rs:118-134 | up then down gives back any track number |
| ExportSettingsPanel.TrackNumberDownThenUp | io/src/export_settings_panel.rs:118-134 | down then up gives back the track number exactly when there is one |
| ExportSettingsPanel.TrackNumberDownToNone | io/src/export_settings_panel.rs:122-132 | down removes the number exactly at 0 or none, and up always gives one |
| ExportSettingsPanel.NextTrackNumber | io/src/export_settings_panel.rs:118-134 | up always gives a number, one more than the old one; down gives one less, or none at 0 or none |
| ExportSettingsPanel.SetTrackNumber | io/src/export_settings_panel.rs:118-134 | only the track number changes, undoably |
| ExportSettingsPanel.WithIndex | io/src/export_settings_panel.rs:136-160 | replacing one index leaves every other index alone |
| ExportSettingsPanel.WithIndexRestores | io/src/export_settings_panel.rs:136-160 | putting the old index back gives the old exporter |
| ExportSettingsPanel.SetIndex | io/src/export_settings_panel.rs:136-160 | only the setting's index steps, undoably; with no value event nothing changes |
| ExportSettingsPanel.SettingsOf | io/src/export_settings_panel.rs:456-493 | every format but FLAC has a settings list |
| ExportSettingsPanel.WithSettings | io/src/export_settings_panel.rs:353-362 | replacing one settings list leaves the others and the format alone |
| ExportSettingsPanel.Scrolled | io/src/export_settings_panel.rs:353-362 | scrolling keeps the format |
| ExportSettingsPanel.ScrolledOnlyMovesCursor | io/src/export_settings_panel.rs:353-362 | scrolling changes only the cursor of the current settings list |
| ExportSettingsPanel.ScrolledStaysInRange | io/src/export_settings_panel.rs:353-362 | with a well-behaved increment, the cursor stays in range |
| ExportSettingsPanel.BranchOf | io/src/export_settings_panel.rs:442-494 | close wins, and a value change is for the setting under the cursor |
| ExportSettingsPanel.Toggle | io/src/export_settings_panel.rs:375-385 | the toggle event flips the flag undoably; otherwise nothing changes |
| ExportSettingsPanel.ChangeValue | io/src/export_settings_panel.rs:162-438 | each setting changes only its own value, undoably, or not at all; the copyright and multi-file toggles flip only their flag |
| ExportSettingsPanel.ValueReply | io/src/export_settings_panel.rs:162-438 | the reply to a value change of each setting: the framerate and track number step, the copyright and multi-file flags flip, text settings are edited, indexed settings step their index, each undoably |
| ExportSettingsPanel.ValueReplyChangesOnlyItsSetting | io/src/export_settings_panel.rs:162-438 | each setting changes only its own value, undoably, or not at all; the copyright and multi-file toggles flip only their flag; a framerate step panics exactly where stepping the framerate fails |
| ExportSettingsPanel.Update | io/src/export_settings_panel.rs:442-494 | close returns the `CloseOpenFile` io command in the snapshot and sends nothing, scrolling moves the cursor, and a value change gives that setting's reply, with the new exporter |

## Left out

- Synthesizer internals: loading a font, selecting a program, preset names and rendering samples are parameters (`Synth`, `Renderer`). Only their success or failure and their outputs are used.
- `note_ons` and `note_offs` of the connection (audio/src/conn.rs:120-153): they forward live input to the synthesizer and have no logic beyond the gain.
- Concurrency: locks, the export thread and the real-time player are left out. The export runs as one sequential call.
- Floating point:
  - `AudioConn.NoteEvents` and `IoLayer.Scaled` scale velocities by `velocity * gain / MAX_VOLUME` in integers, because the source's f32 scaling and rounding are not modelled.
  - `MidiExport.Emit` divides the pulse count by `PPQ_U` with integer division instead of the f32 division and cast.
  - `TextLookup.Text.GetPpqTts` returns the `{:.2}` case as an uninterpreted marker, without formatting the decimal.
- `PPQ_U` is not defined in any file modelled here. It is taken to be 192, the value the fraction keys of `get_ppq_tts` imply.
- `Time::ppq_to_samples`, `Time::ppq_to_duration`, `Index` and `Snapshot` are not part of this model. `Time::ppq_to_samples` and `Index::increment` are parameters, and so are `MidiTrack::get_playback_notes` and `SelectMode::get_notes`; no monotonicity is assumed.
- `Decayer` is not part of this model: the decay tail is what the renderer returns for the events sent.
- Encoders: the WAV, MP3, Ogg and FLAC writers, ID3 tags and the MIDI file writer are left out. The model stops at the interleaved samples, the tag list and the message list.
- `write_id3_tag` stores the comment with `set_genre`. It is left out with the ID3 writer.
- `AudioConn.Conn.Export`: the decay and file contents are stated for the corrected order. Every queued event is sent before the decay, as `SentBeforeDecay` says (see Findings).
- The soundfont catalog keeps its bank keys in a given `order`. `HashMap` iteration order is not determined by the source, so the model uses one fixed order for both the sorted default and the indexed lookups.
- The MIDI event queue is not part of this model. It is modelled as a sequence: `enqueue` appends, `sort` sorts by time, and `dequeue(t)` pops the due events at the front.
- `Sorting.SortBy`: the result is stated to be sorted and a permutation of the input. That Rust's `sort` keeps equal elements in their original order (stability) is not proved.
- Note ordering (`Ord` on notes) is the parameter `le`, assumed to be a total preorder where sortedness is stated.
- `MIN_NOTE` and `KEYS` are not part of this model. They are the parameters `minNote` and `keys`.
- Configuration and text loading (`Text::new`, `Input::new`, `EditModeDeltas::new`, INI and CSV parsing), the save file format, rendering, text-to-speech string assembly and the event loop are left out.
- `IoLayer.IO.Update` covers quit, the export-queue drain, the export gate, undo, redo and panel cycling. The alphanumeric branch, panel dispatch, saving, opening files and the other menu events depend on the panels, files and text-to-speech, which are not modelled here.
- `IoLayer.IO.ApplySnapshot` does not run the snapshot's io commands, because those open panels and files that are not modelled here.
- `PianoRoll.PianoRollPanel.Update` does not model the text-to-speech branches or the sub-panels (edit, select, time and view modes). Those are separate panels whose source is not part of this model.
- `ExportSettingsPanel.ChangeValue`: text settings are edited by `edit_string`, which is not part of this model; it is the parameter `edit`.
- `ExportSettingsPanel.ChangeValue`: the FLAC format has no settings arm in the source, so selecting it changes nothing here.
- `OpenFilePanel.OpenFilePanel.Select` and `OpenFilePanel.OpenFilePanel.Update`: reading a save also restores the paths state, the exporter and the connection's synthesizer state (io/src/save.rs:79-115), which the outcome does not hold; only the app state and the sent commands are modelled. What `Save::write` writes (the serialised state, synthesizer state, paths and exporter) is not modelled, only whether it succeeds. io/src/open_file_panel.rs:239 passes three arguments to `Save::read`, which io/src/save.rs:66 declares with five; the model follows io/src/save.rs.
- `OpenFilePanel.OpenFilePanel.Update` does not model the file-name editing or the up/down directory moves, which read the file system.
- `OpenFilePanel.FileName` follows `Path::file_name` only for plain `/`-separated paths, without Rust's path normalisation. `Join` is concatenation with `/`.
- The open-file panel's directory and the file browser's paths are one `ChildPaths` listing, with the directory read given as an input.
- `Common.NoteIndices`: `SelectMode::get_note_indices` (called at io/src/piano_roll/piano_roll_panel.rs:102, 316) is not part of this model. It is taken to return the index of a single selection and the list of a many selection.
- `ExportPanel` is not part of this model: its `enable` is the parameter `enableExport`, and the export panel's own update is left out.
- `IoLayer.NewExportState`: `ExportState::new` is not part of this model. It is taken to be `WritingWav` at sample 0 of the total.
- `TextLookup.Text.GetTime` fills the hours form with the corrected `ClockOf` fields, not the as-written seconds of text/src/text.rs:281-283; the as-written computation is `TextLookup.ClockAsWritten` (see Findings).
- `MidiExport.Mid` and `MidiExport.NoteMessages` run the pulse loop up to and including the last note-off time, not `t < t1` as at audio/src/exporter.rs:156; the as-written loop is `MidiExport.Run` to `MaxEnd` (see Findings).
- `IoLayer.IO.Update` pushes the panel-cycling snapshot through `push_undo` (`CyclePanel`), not straight onto the undo stack as io/src/lib.rs:355-365 does; the as-written push is `IoLayer.CyclePanelAsWritten` (see Findings).
- `AudioConn.Conn.ExportOne` renders the decay after every queued event was sent, not after the events due before the last sample only as audio/src/conn.rs:448-463 does (see Findings).
- `AudioConn.Conn.DoCommand`: the `do_commands` match of audio/src/conn.rs:157-213 has only the four soundfont, program and gain arms. The playback and export commands share the model's `Command` type and are handled by connection code that is not part of this model, so here they change nothing.
- `AudioConn.Frame` makes an exportable's samples depend only on its own events. The source renders every exportable with one shared synthesizer and one `Decayer` (audio/src/conn.rs:438-447), so a note still sounding at the end of one file carries into the next.
- `EditModeDeltas.GetDt` does not model the `u64` overflow of the beat times the quick factor.
- `ExportSettingsPanel.NextTrackNumber` does not model the overflow of stepping up from the largest track number.
- `InputManager.Input.Update` takes the polled MIDI messages, the keys down and the typed characters as inputs. The key bindings and their parsing are not modelled.

## Findings

| source | as written | input that shows it | evidently intended | confidence | as-written member | corrected member |
|---|---|---|---|---|---|---|
| text/src/text.rs:279-299 | seconds subtract only the minutes of the current hour | 3661 seconds gives "1 hour, 1 minute, 3601 seconds" | seconds of the current minute (here 1) | not executed | TextLookup.AsWrittenAt3661 | TextLookup.ClockOf |
| audio/src/exporter.rs:146-184 | the pulse loop runs while `t < t1`, with `t1` the last note end | one quarter note from pulse 0 gets a note-on and no note-off | the loop includes `t1`, so every note is closed | not executed | MidiExport.OneNoteHasNoNoteOff | MidiExport.CorrectedEventsCloseEveryNote |
| audio/src/exporter.rs:322-323 | the Ogg description tag is filled from the genre | genre "g" and comment "c" give description "g" | the description holds the comment | not executed | MidiExport.OggDescriptionTakesGenre | MidiExport.OggDescriptionIsComment |
| audio/src/conn.rs:448-463 | samples run to `total_samples - 1`, but the last note-off is due at `total_samples` | one note: its note-off is queued and never sent before the decay | the remaining events are sent before the decay | not executed | AudioConn.ExportNeverSendsLastNoteOff | AudioConn.CorrectedExportSendsEveryEvent |
| io/src/lib.rs:355-365 | panel cycling pushes onto the undo stack directly, without the `MAX_UNDOS` bound or clearing redo | cycling panels with 100 snapshots leaves 101 | the push goes through `push_undo` | not executed | IoLayer.CyclePanelExceedsBound | IoLayer.CyclePanelKeepsBound |
