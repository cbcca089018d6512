// The messages the io crate sends to the audio connection, the export
// settings they carry, the export progress the audio crate reports, and the
// undo/redo snapshots of the io crate.

module Commands {
  import opened Common

  /** The output formats, in the order of the export-type list; index 0 is
      the one the multi-file export forces. */
  datatype ExportType = Wav | Mid | MP3 | Ogg | Flac

  const EXPORT_TYPES: seq<ExportType> := [Wav, Mid, MP3, Ogg, Flac]

  /** What a multi-file export appends to each track's file name. */
  datatype MultiFileSuffix = ChannelSuffix | PresetSuffix | ChannelAndPresetSuffix

  const MULTI_FILE_SUFFIXES: seq<MultiFileSuffix> := [ChannelSuffix, PresetSuffix, ChannelAndPresetSuffix]

  /** The settings an export settings panel scrolls through. */
  datatype ExportSetting =
    | Framerate | Title | Artist | Copyright | Album | Genre | Comment
    | Mp3BitRate | Mp3Quality | OggQuality | TrackNumber | MultiFile | MultiFileSuffixSetting

  /** A list of values and a cursor into it. */
  datatype IndexedValues<T> = IndexedValues(values: seq<T>, index: Index)
  {
    /** The value under the cursor; `None` where the source would index out of bounds. */
    function Get(): (r: Option<T>)
      ensures r.Some? <==> index.index < |values|
    {
      if index.index < |values| then Some(values[index.index]) else None
    }
  }

  datatype Metadata = Metadata(
    title: string,
    artist: Option<string>,
    album: Option<string>,
    genre: Option<string>,
    comment: Option<string>,
    trackNumber: Option<nat>)

  /** The export settings. `framerate` is in frames per second. */
  datatype Exporter = Exporter(
    framerate: nat,
    metadata: Metadata,
    copyright: bool,
    mp3BitRate: Index,
    mp3Quality: Index,
    bitRate: Index,
    multiFile: bool,
    multiFileSuffix: IndexedValues<MultiFileSuffix>,
    oggQuality: Index,
    exportType: IndexedValues<ExportType>,
    midSettings: IndexedValues<ExportSetting>,
    mp3Settings: IndexedValues<ExportSetting>,
    oggSettings: IndexedValues<ExportSetting>,
    wavSettings: IndexedValues<ExportSetting>)

  /** Export progress as the audio crate reports it. */
  datatype ExportState =
    | NotExporting
    | WritingWav(totalSamples: nat, exportedSamples: nat)
    | AppendingDecay
    | WritingToDisk
    | Done

  /** The messages the io crate sends to the audio connection. Times are in
      samples, durations in samples, paths are text. */
  datatype Command =
    | LoadSoundFont(channel: nat, path: string)
    | SetProgram(channel: nat, path: string, bankIndex: nat, presetIndex: nat)
    | UnsetProgram(channel: nat)
    | SetGain(gain: nat)
    | PlayMusic(time: nat)
    | SetFramerate(framerate: nat)
    | NoteOn(channel: nat, key: nat, velocity: nat, duration: nat)
    | NoteOnAt(channel: nat, key: nat, velocity: nat, start: nat, end: nat)
    | StopMusicAt(time: nat)
    | StopMusic
    | SoundOff
    | Export(exportPath: string, state: ExportState)
    | AppendSilences(paths: seq<string>)
    | SetExporter(exporter: Exporter)

  datatype OpenFileType = ReadSave | SoundFont | WriteSave | ExportFile

  /** Requests a panel makes of the io layer itself. */
  datatype IOCommand =
    | EnableOpenFile(openFileType: OpenFileType)
    | ExportTo(path: string)
    | CloseOpenFile
    | DisableOpenFile
    | SetSavePath(savePath: Option<string>)
    | SetExportPath(exportPath: string)

  /** An undoable action: the state and commands before and after it, and the
      io requests it carries. Undoing applies the `from` side. */
  datatype Snapshot = Snapshot(
    fromState: Option<State>,
    toState: Option<State>,
    fromCommands: Option<seq<Command>>,
    toCommands: Option<seq<Command>>,
    ioCommands: Option<seq<IOCommand>>)

  function FromStates(s0: State, s1: State): Snapshot
  {
    Snapshot(Some(s0), Some(s1), None, None, None)
  }

  function FromCommands(c0: seq<Command>, c1: seq<Command>): Snapshot
  {
    Snapshot(None, None, Some(c0), Some(c1), None)
  }

  function FromIoCommands(io: seq<IOCommand>): Snapshot
  {
    Snapshot(None, None, None, None, Some(io))
  }

  /** The snapshot that undoes the undo: `from` and `to` swapped. */
  function Reversed(s: Snapshot): (r: Snapshot)
    ensures r.fromState == s.toState && r.toState == s.fromState
    ensures r.fromCommands == s.toCommands && r.toCommands == s.fromCommands
  {
    Snapshot(s.toState, s.fromState, s.toCommands, s.fromCommands, None)
  }

  /** Reversing twice restores the state and command sides. */
  lemma ReversedTwice(s: Snapshot)
    ensures Reversed(Reversed(s)) == s.(ioCommands := None)
  {
  }
}
