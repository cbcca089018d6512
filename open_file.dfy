// The open-file panel: while it is open it is the only panel and undo is
// locked; closing it restores the panels and the focus it found. Selecting a
// child path reads or writes a save file, loads a SoundFont, or sets the
// export path, depending on what the panel was opened for.

module OpenFilePanel {
  import opened Common
  import opened Commands
  import ChildPaths
  import opened Saves

  /** The input events the panel reads. */
  datatype OpenFileEvent =
    | StatusTTS | InputTTS | UpDirectory | DownDirectory | PreviousPath | NextPath | SelectFile | CloseOpenFileEvent

  /** What one frame leaves: the state, the undo snapshot, and the command
      lists sent to the audio connection. */
  datatype Outcome = Outcome(state: State, snapshot: Option<Snapshot>, sent: seq<seq<Command>>)

  // Paths.

  /** `Path::join` of a directory and a file name. */
  function Join(directory: string, name: string): string
  {
    directory + "/" + name
  }

  /** The text after the last `/` of `path`. */
  function LastComponent(path: string): (r: string)
    ensures '/' !in r
    ensures |r| <= |path| && r == path[|path| - |r|..]
  {
    if path == [] || path[|path| - 1] == '/' then []
    else LastComponent(path[..|path| - 1]) + [path[|path| - 1]]
  }

  /** `Path::file_name`: the last component, `None` when it is empty. */
  function FileName(path: string): (r: Option<string>)
    ensures r.Some? ==> r.value != [] && '/' !in r.value
  {
    var n := LastComponent(path);
    if n == [] then None else Some(n)
  }

  /** The last component of a joined path is the name joined. */
  lemma {:induction false} LastComponentOfSuffix(prefix: string, name: string)
    requires '/' !in name
    requires prefix != [] && prefix[|prefix| - 1] == '/'
    ensures LastComponent(prefix + name) == name
    decreases |name|
  {
    if name == [] {
      assert prefix + name == prefix;
    } else {
      var init := name[..|name| - 1];
      assert (prefix + name)[..|prefix + name| - 1] == prefix + init;
      assert '/' !in init by {
        forall c | c in init ensures c != '/' {
          var k :| 0 <= k < |init| && init[k] == c;
          assert name[k] == c;
        }
      }
      LastComponentOfSuffix(prefix, init);
      assert init + [name[|name| - 1]] == name;
    }
  }

  /** Joining a non-empty name without `/` and taking the file name gives
      the name back. */
  lemma FileNameOfJoin(directory: string, name: string)
    requires name != [] && '/' !in name
    ensures FileName(Join(directory, name)) == Some(name)
  {
    assert Join(directory, name) == (directory + "/") + name;
    LastComponentOfSuffix(directory + "/", name);
  }

  /** The file name with the extension the source appends for saves
      (".cac") and exports (".wav"). */
  function WithExtension(filename: string, t: OpenFileType): (r: string)
    ensures t == WriteSave ==> r == filename + ".cac"
    ensures t == ExportFile ==> r == filename + ".wav"
    ensures t != WriteSave && t != ExportFile ==> r == filename
  {
    match t
    case WriteSave => filename + ".cac"
    case ExportFile => filename + ".wav"
    case _ => filename
  }

  // Enabling and disabling.

  /** The state while the panel is open. */
  function Enabled(s: State): (r: State)
    ensures r.panels == [OpenFile] && r.focus == Index(0, 1) && !r.input.canUndo
    ensures r.music == s.music && r.time == s.time && r.selectMode == s.selectMode
  {
    s.(input := s.input.(canUndo := false), panels := [OpenFile], focus := Index(0, 1))
  }

  /** The state once the panel closes, given the panels and focus it saved. */
  function Disabled(s: State, panels: seq<PanelType>, focus: Index): (r: State)
    ensures r.panels == panels && r.focus == focus && r.input.canUndo && !r.input.alphanumericInput
    ensures r.music == s.music && r.time == s.time && r.selectMode == s.selectMode
  {
    s.(input := s.input.(alphanumericInput := false, canUndo := true), panels := panels, focus := focus)
  }

  /** Opening then closing the panel gives back the panels and focus, with
      undo unlocked and alphanumeric input off; nothing else changes. */
  lemma EnableThenDisable(s: State)
    ensures Disabled(Enabled(s), s.panels, s.focus)
      == s.(input := s.input.(alphanumericInput := false, canUndo := true))
  {
  }

  /** `PreviousPath`: up one child, unless at the first. */
  function PathAbove(selected: Option<nat>): (r: Option<nat>)
    ensures selected.None? ==> r.None?
    ensures selected.Some? ==> r.Some? && r.value <= selected.value
    ensures selected.Some? && selected.value > 0 ==> r.value + 1 == selected.value
  {
    match selected
    case None => None
    case Some(i) => if i > 0 then Some(i - 1) else Some(i)
  }

  /** `NextPath`: down one child, unless at the last. */
  function PathBelow(selected: Option<nat>, count: nat): (r: Option<nat>)
    ensures selected.None? ==> r.None?
    ensures selected.Some? ==> r.Some? && r.value >= selected.value
    ensures selected.Some? && selected.value + 1 < count ==> r.value == selected.value + 1
    ensures selected.Some? && selected.value < count ==> r.value < count
  {
    match selected
    case None => None
    case Some(i) => if i + 1 < count then Some(i + 1) else Some(i)
  }

  /** Down then up returns to the child unless it was the last. */
  lemma BelowThenAbove(i: nat, count: nat)
    requires i + 1 < count
    ensures PathAbove(PathBelow(Some(i), count)) == Some(i)
  {
  }

  /** The outcome of selecting a child path, on values: `t` is what the panel
      was opened for and `selected` indexes `children`. `readSave(path)` is
      the save file at `path`, `None` where it cannot be opened, read or
      parsed; `canWrite(path)` says whether a save file can be written there.
      `None` where the source unwraps nothing or panics. */
  function SelectOutcome(t: Option<OpenFileType>, directory: string, filename: Option<string>, s: State,
                         children: seq<ChildPaths.FileOrDirectory>, selected: Option<nat>,
                         readSave: string -> Option<SaveFile>, canWrite: string -> bool): Option<Outcome>
    requires selected.Some? ==> selected.value < |children|
  {
    match t
    case None => None
    case Some(ReadSave) =>
      if selected.None? || FileName(children[selected.value].path).None? then None
      else
        var path := Join(directory, FileName(children[selected.value].path).value);
        if readSave(path).None? then None
        else Some(Outcome(readSave(path).value.state, Some(OpenFilePanel.SavePathSnapshot(path)), [ReadCommands(readSave(path).value)]))
    case Some(SoundFont) =>
      if selected.None? || !children[selected.value].isFile then Some(Outcome(s, None, []))
      else if SelectedTrack(s.music).None? then None
      else
        var channel := SelectedTrack(s.music).value.channel;
        var c1 := [LoadSoundFont(channel, children[selected.value].path)];
        Some(Outcome(s, Some(Snapshot(None, None, Some([UnsetProgram(channel)]), Some(c1), Some([DisableOpenFile]))), [c1]))
    case Some(WriteSave) =>
      if filename.None? || !canWrite(Join(directory, WithExtension(filename.value, WriteSave))) then None
      else Some(Outcome(s, Some(OpenFilePanel.SavePathSnapshot(Join(directory, WithExtension(filename.value, WriteSave)))), []))
    case Some(ExportFile) =>
      if filename.None? then None
      else Some(Outcome(s, Some(FromIoCommands([SetExportPath(Join(directory, WithExtension(filename.value, ExportFile)))])), []))
  }

  /** The open-file panel's own state. `directory` and `filename` are the
      browser's current directory and typed file name. */
  class OpenFilePanel {
    var openFileType: Option<OpenFileType>
    var previousFocus: Index
    var previousPanels: seq<PanelType>
    var directory: string
    var filename: Option<string>

    constructor ()
      ensures openFileType.None? && previousPanels == [] && previousFocus == Index(0, 0)
      ensures directory == [] && filename.None?
    {
      openFileType := None;
      previousFocus := Index(0, 0);
      previousPanels := [];
      directory := [];
      filename := None;
    }

    /** `enable`: saves the panels and focus and makes this the only panel. */
    method Enable(s: State) returns (s': State)
      modifies this`previousPanels, this`previousFocus
      ensures previousPanels == s.panels && previousFocus == s.focus
      ensures s' == Enabled(s)
    {
      s' := s.(input := s.input.(canUndo := false));
      previousPanels := s'.panels;
      s' := s'.(panels := []);
      s' := s'.(panels := s'.panels + [OpenFile]);
      previousFocus := s'.focus;
      s' := s'.(focus := Index(0, 1));
    }

    /** `soundfont`, `read_save`, `write_save` and `export`: open the panel
        for `t` in `directory` (the listing of the directory is the caller's
        `ChildPaths`). */
    method Open(t: OpenFileType, dir: string, name: Option<string>, s: State) returns (s': State)
      modifies this
      ensures openFileType == Some(t) && directory == dir && filename == name
      ensures previousPanels == s.panels && previousFocus == s.focus
      ensures s' == Enabled(s)
    {
      openFileType := Some(t);
      directory := dir;
      filename := name;
      s' := Enable(s);
    }

    /** `disable`: restores the saved panels and focus. */
    method Disable(s: State) returns (s': State)
      ensures s' == Disabled(s, previousPanels, previousFocus)
    {
      s' := s.(input := s.input.(alphanumericInput := false));
      s' := s'.(panels := previousPanels, focus := previousFocus);
      s' := s'.(input := s'.input.(canUndo := true));
    }

    /** `set_save_path`. */
    static function SavePathSnapshot(path: string): Snapshot
    {
      FromIoCommands([SetSavePath(Some(path))])
    }

    /** The `SelectFile` branch, after the panel is disabled; `None` where
        the source unwraps nothing or a save file cannot be read or written.
        Reading a save replaces the state with the file's and sends its
        synthesizer commands. */
    method Select(s: State, paths: ChildPaths.ChildPaths, readSave: string -> Option<SaveFile>, canWrite: string -> bool)
      returns (r: Option<Outcome>)
      requires paths.Valid()
      ensures r == SelectOutcome(openFileType, directory, filename, s, paths.children, paths.selected, readSave, canWrite)
      ensures openFileType != Some(ReadSave) && r.Some? ==> r.value.state == s
      ensures openFileType.None? ==> r.None?
      ensures openFileType == Some(ReadSave) ==>
        (r.Some? <==>
          && paths.selected.Some?
          && FileName(paths.children[paths.selected.value].path).Some?
          && readSave(Join(directory, FileName(paths.children[paths.selected.value].path).value)).Some?)
      ensures openFileType == Some(ReadSave) && r.Some? ==>
        var path := Join(directory, FileName(paths.children[paths.selected.value].path).value);
        r.value == Outcome(readSave(path).value.state, Some(SavePathSnapshot(path)), [ReadCommands(readSave(path).value)])
      ensures openFileType == Some(WriteSave) ==>
        (r.Some? <==> filename.Some? && canWrite(Join(directory, filename.value + ".cac")))
      ensures openFileType == Some(ExportFile) ==> (r.Some? <==> filename.Some?)
      ensures openFileType == Some(WriteSave) && r.Some? ==>
        r.value == Outcome(s, Some(SavePathSnapshot(Join(directory, filename.value + ".cac"))), [])
      ensures openFileType == Some(ExportFile) && r.Some? ==>
        r.value == Outcome(s, Some(FromIoCommands([SetExportPath(Join(directory, filename.value + ".wav"))])), [])
      ensures openFileType == Some(SoundFont) && (paths.selected.None? || !paths.children[paths.selected.value].isFile) ==>
        r == Some(Outcome(s, None, []))
      ensures openFileType == Some(SoundFont) && paths.selected.Some? && paths.children[paths.selected.value].isFile ==>
        (r.Some? <==> SelectedTrack(s.music).Some?)
      ensures openFileType == Some(SoundFont) && r.Some? && r.value.snapshot.Some? ==>
        var channel := SelectedTrack(s.music).value.channel;
        var c1 := [LoadSoundFont(channel, paths.children[paths.selected.value].path)];
        r.value == Outcome(s, Some(Snapshot(None, None, Some([UnsetProgram(channel)]), Some(c1), Some([DisableOpenFile]))), [c1])
    {
      if openFileType.None? {
        return None;
      }
      match openFileType.value {
        case ReadSave =>
          if paths.selected.None? {
            return None;
          }
          var name := FileName(paths.children[paths.selected.value].path);
          if name.None? {
            return None;
          }
          var path := Join(directory, name.value);
          var save := readSave(path);
          if save.None? {
            return None;
          }
          r := Some(Outcome(save.value.state, Some(SavePathSnapshot(path)), [ReadCommands(save.value)]));
        case SoundFont =>
          r := Some(Outcome(s, None, []));
          if paths.selected.Some? && paths.children[paths.selected.value].isFile {
            var track := SelectedTrack(s.music);
            if track.None? {
              return None;
            }
            var channel := track.value.channel;
            var c0 := [UnsetProgram(channel)];
            var c1 := [LoadSoundFont(channel, paths.children[paths.selected.value].path)];
            r := Some(Outcome(s, Some(Snapshot(None, None, Some(c0), Some(c1), Some([DisableOpenFile]))), [c1]));
          }
        case WriteSave =>
          if filename.None? {
            return None;
          }
          var path := Join(directory, WithExtension(filename.value, WriteSave));
          if !canWrite(path) {
            return None;
          }
          r := Some(Outcome(s, Some(SavePathSnapshot(path)), []));
        case ExportFile =>
          if filename.None? {
            return None;
          }
          var path := Join(directory, WithExtension(filename.value, ExportFile));
          r := Some(Outcome(s, Some(FromIoCommands([SetExportPath(path)])), []));
      }
    }

    /** `update`, without the file-name editing and the directory moves;
        `None` where the source panics. */
    method Update(happened: set<OpenFileEvent>, s: State, paths: ChildPaths.ChildPaths,
                  readSave: string -> Option<SaveFile>, canWrite: string -> bool) returns (r: Option<Outcome>)
      requires paths.Valid()
      modifies paths`selected
      ensures paths.Valid() && paths.children == old(paths.children)
      ensures StatusTTS in happened || InputTTS in happened || UpDirectory in happened || DownDirectory in happened ==>
        r == Some(Outcome(s, None, [])) && paths.selected == old(paths.selected)
      ensures PreviousPath in happened && {StatusTTS, InputTTS, UpDirectory, DownDirectory} !! happened ==>
        r == Some(Outcome(s, None, [])) && paths.selected == PathAbove(old(paths.selected))
      ensures NextPath in happened && {StatusTTS, InputTTS, UpDirectory, DownDirectory, PreviousPath} !! happened ==>
        r == Some(Outcome(s, None, [])) && paths.selected == PathBelow(old(paths.selected), |paths.children|)
      ensures SelectFile in happened && {StatusTTS, InputTTS, UpDirectory, DownDirectory, PreviousPath, NextPath} !! happened ==>
        paths.selected == old(paths.selected)
        && r == SelectOutcome(openFileType, directory, filename, Disabled(s, previousPanels, previousFocus), paths.children, paths.selected, readSave, canWrite)
        && (openFileType != Some(ReadSave) && r.Some? ==> r.value.state == Disabled(s, previousPanels, previousFocus))
      ensures CloseOpenFileEvent in happened && {StatusTTS, InputTTS, UpDirectory, DownDirectory, PreviousPath, NextPath, SelectFile} !! happened ==>
        r == Some(Outcome(s, Some(FromIoCommands([DisableOpenFile])), [])) && paths.selected == old(paths.selected)
    {
      if StatusTTS in happened || InputTTS in happened || UpDirectory in happened || DownDirectory in happened {
        r := Some(Outcome(s, None, []));
      } else if PreviousPath in happened {
        paths.selected := PathAbove(paths.selected);
        r := Some(Outcome(s, None, []));
      } else if NextPath in happened {
        paths.selected := PathBelow(paths.selected, |paths.children|);
        r := Some(Outcome(s, None, []));
      } else if SelectFile in happened {
        var s1 := Disable(s);
        r := Select(s1, paths, readSave, canWrite);
      } else if CloseOpenFileEvent in happened {
        r := Some(Outcome(s, Some(FromIoCommands([DisableOpenFile])), []));
      } else {
        r := Some(Outcome(s, None, []));
      }
    }
  }
}
