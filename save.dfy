// A save file: the app state and the synthesizer settings that reading it
// restores. Opening, reading and deserialising the file are not modelled;
// what the file holds is given as a `SaveFile` value.

module Saves {
  import opened Common
  import opened Commands

  /** One saved program: its channel, SoundFont path, bank and preset
      indices, and whether the SoundFont path still exists on disk. */
  datatype SavedProgram = SavedProgram(channel: nat, path: string, bankIndex: nat, presetIndex: nat, present: bool)

  /** What `Save::read` deserialises: the app state, the gain and the saved
      programs, in the order the synthesizer state iterates them. */
  datatype SaveFile = SaveFile(state: State, gain: nat, programs: seq<SavedProgram>)

  /** The number of saved programs whose SoundFont still exists. */
  function PresentCount(ps: seq<SavedProgram>): nat
  {
    if ps == [] then 0 else (if ps[0].present then 1 else 0) + PresentCount(ps[1..])
  }

  /** One `LoadSoundFont` per saved program whose path exists, in order. */
  function Loads(ps: seq<SavedProgram>): (r: seq<Command>)
    ensures |r| == PresentCount(ps)
    ensures forall i :: 0 <= i < |r| ==> r[i].LoadSoundFont?
  {
    if ps == [] then []
    else (if ps[0].present then [LoadSoundFont(ps[0].channel, ps[0].path)] else []) + Loads(ps[1..])
  }

  /** One `SetProgram` per saved program whose path exists, in order. */
  function Sets(ps: seq<SavedProgram>): (r: seq<Command>)
    ensures |r| == PresentCount(ps)
    ensures forall i :: 0 <= i < |r| ==> r[i].SetProgram?
  {
    if ps == [] then []
    else
      (if ps[0].present then [SetProgram(ps[0].channel, ps[0].path, ps[0].bankIndex, ps[0].presetIndex)] else [])
        + Sets(ps[1..])
  }

  /** The commands `Save::read` sends: the gain first, then every SoundFont
      load, then every program selection, skipping programs whose SoundFont
      no longer exists. */
  function ReadCommands(f: SaveFile): (r: seq<Command>)
    ensures |r| == 1 + 2 * PresentCount(f.programs)
    ensures r[0] == SetGain(f.gain)
    ensures forall i :: 1 <= i <= PresentCount(f.programs) ==> r[i].LoadSoundFont?
    ensures forall i :: 1 + PresentCount(f.programs) <= i < |r| ==> r[i].SetProgram?
  {
    [SetGain(f.gain)] + Loads(f.programs) + Sets(f.programs)
  }

  /** A SoundFont is loaded exactly when some saved program on that channel
      uses it and its path exists. */
  lemma {:induction false} LoadsExactly(ps: seq<SavedProgram>, channel: nat, path: string)
    ensures LoadSoundFont(channel, path) in Loads(ps) <==>
      exists k :: 0 <= k < |ps| && ps[k].present && ps[k].channel == channel && ps[k].path == path
  {
    if ps != [] {
      var tail := ps[1..];
      LoadsExactly(tail, channel, path);
      if exists k :: 0 <= k < |tail| && tail[k].present && tail[k].channel == channel && tail[k].path == path {
        var k :| 0 <= k < |tail| && tail[k].present && tail[k].channel == channel && tail[k].path == path;
        assert ps[k + 1] == tail[k];
      }
      if exists k :: 0 <= k < |ps| && ps[k].present && ps[k].channel == channel && ps[k].path == path {
        var k :| 0 <= k < |ps| && ps[k].present && ps[k].channel == channel && ps[k].path == path;
        if k > 0 { assert tail[k - 1] == ps[k]; }
      }
    }
  }

  /** A program is selected exactly when it was saved with those indices
      and its SoundFont path exists. */
  lemma {:induction false} SetsExactly(ps: seq<SavedProgram>, channel: nat, path: string, bank: nat, preset: nat)
    ensures SetProgram(channel, path, bank, preset) in Sets(ps) <==>
      SavedProgram(channel, path, bank, preset, true) in ps
  {
    if ps != [] {
      var tail := ps[1..];
      SetsExactly(tail, channel, path, bank, preset);
      assert ps == [ps[0]] + tail;
    }
  }

  /** Reading a save restores every saved program whose SoundFont exists:
      its font is loaded before it is selected, and nothing else is loaded
      or selected. */
  lemma ReadCommandsRestorePrograms(f: SaveFile, channel: nat, path: string, bank: nat, preset: nat)
    ensures LoadSoundFont(channel, path) in ReadCommands(f) <==>
      exists k :: 0 <= k < |f.programs| && f.programs[k].present && f.programs[k].channel == channel && f.programs[k].path == path
    ensures SetProgram(channel, path, bank, preset) in ReadCommands(f) <==>
      SavedProgram(channel, path, bank, preset, true) in f.programs
  {
    LoadsExactly(f.programs, channel, path);
    SetsExactly(f.programs, channel, path, bank, preset);
    var r := ReadCommands(f);
    assert r == [SetGain(f.gain)] + Loads(f.programs) + Sets(f.programs);
    assert forall c :: c in r <==> c == SetGain(f.gain) || c in Loads(f.programs) || c in Sets(f.programs);
  }
}
