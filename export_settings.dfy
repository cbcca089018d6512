// The export settings panel: scrolling through the settings of the current
// export type and changing the value under the cursor. Every value change
// is sent to the audio connection as one `SetExporter` command and is
// undoable through a snapshot holding the exporter from before the change.

module ExportSettingsPanel {
  import opened Common
  import opened Commands

  /** The framerates the framerate setting cycles through. */
  const FRAMERATES: seq<nat> := [22050, 44100, 48000]

  /** The input events the panel reads. */
  datatype SettingsEvent =
    | StatusTTS | InputTTS | PreviousExportSetting | NextExportSetting
    | PreviousExportSettingValue | NextExportSettingValue | ToggleExportSettingBoolean | CloseOpenFileEvent

  /** What one call leaves: the exporter, the undo snapshot, and the command
      lists sent to the audio connection. */
  datatype Reply = Reply(exporter: Exporter, snapshot: Option<Snapshot>, sent: seq<seq<Command>>)

  /** An undoable change away from `e0`: undoing sets `e0` again, redoing and
      the one command list sent set the new exporter. */
  predicate Undoable(e0: Exporter, r: Reply)
  {
    && r.snapshot == Some(FromCommands([SetExporter(e0)], [SetExporter(r.exporter)]))
    && r.sent == [[SetExporter(r.exporter)]]
  }

  /** `set_exporter`: `c0` undoes, the new exporter is sent. */
  function SetExporterReply(c0: seq<Command>, e: Exporter): Reply
  {
    Reply(e, Some(FromCommands(c0, [SetExporter(e)])), [[SetExporter(e)]])
  }

  /** Which way a value steps: `Some(false)` down, `Some(true)` up; the
      previous-value event wins over the next-value one. */
  function Step(happened: set<SettingsEvent>): (r: Option<bool>)
    ensures r.None? <==> PreviousExportSettingValue !in happened && NextExportSettingValue !in happened
    ensures r == Some(false) <==> PreviousExportSettingValue in happened
  {
    if PreviousExportSettingValue in happened then Some(false)
    else if NextExportSettingValue in happened then Some(true)
    else None
  }

  // Framerate.

  /** The framerate after one step; `None` where the source panics: the
      framerate is not one of `FRAMERATES`, or the stepped index is out of
      bounds. */
  function NextFramerate(framerate: nat, up: bool, increment: (Index, bool) -> Index): (r: Option<nat>)
    ensures framerate !in FRAMERATES ==> r.None?
    ensures r.Some? ==> r.value in FRAMERATES
  {
    match PositionOf(FRAMERATES, framerate)
    case None => None
    case Some(i) =>
      var j := increment(Index(i, |FRAMERATES|), up).index;
      if j < |FRAMERATES| then Some(FRAMERATES[j]) else None
  }

  /** With an increment that keeps indices in range, stepping succeeds
      exactly on the listed framerates. */
  lemma NextFramerateTotal(framerate: nat, up: bool, increment: (Index, bool) -> Index)
    requires IncrementKeepsInRange(increment)
    ensures NextFramerate(framerate, up, increment).Some? <==> framerate in FRAMERATES
  {
    if framerate in FRAMERATES {
      var i := PositionOf(FRAMERATES, framerate).value;
      assert increment(Index(i, |FRAMERATES|), up).index < |FRAMERATES|;
    }
  }

  /** `set_framerate`. */
  method SetFramerate(e: Exporter, up: bool, increment: (Index, bool) -> Index) returns (r: Option<Reply>)
    ensures r.None? <==> NextFramerate(e.framerate, up, increment).None?
    ensures r.Some? ==> r.value.exporter == e.(framerate := NextFramerate(e.framerate, up, increment).value)
    ensures r.Some? ==> Undoable(e, r.value)
  {
    var c0 := [SetExporter(e)];
    var i := PositionOf(FRAMERATES, e.framerate);
    if i.None? {
      return None;
    }
    var index := increment(Index(i.value, |FRAMERATES|), up);
    if index.index >= |FRAMERATES| {
      return None;
    }
    var e1 := e.(framerate := FRAMERATES[index.index]);
    r := Some(SetExporterReply(c0, e1));
  }

  // Track number.

  /** The track number after one step up or down. */
  function NextTrackNumber(n: Option<nat>, up: bool): (r: Option<nat>)
    ensures up ==> r.Some? && (n.Some? ==> r.value == n.value + 1)
    ensures !up ==> (r.None? <==> n.None? || n.value == 0)
    ensures !up && r.Some? ==> r.value + 1 == n.value
  {
    if up then
      match n
      case Some(k) => Some(k + 1)
      case None => Some(0)
    else
      match n
      case Some(k) => if k == 0 then None else Some(k - 1)
      case None => None
  }

  /** Up then down gives back any track number. */
  lemma TrackNumberUpThenDown(n: Option<nat>)
    ensures NextTrackNumber(NextTrackNumber(n, true), false) == n
  {
  }

  /** Down then up gives back the track number exactly when there is one. */
  lemma TrackNumberDownThenUp(n: Option<nat>)
    ensures NextTrackNumber(NextTrackNumber(n, false), true) == n <==> n.Some?
  {
  }

  /** Stepping down removes the track number exactly at 0 and keeps none. */
  lemma TrackNumberDownToNone(n: Option<nat>)
    ensures NextTrackNumber(n, false).None? <==> n.None? || n == Some(0)
    ensures NextTrackNumber(n, true).Some?
  {
  }

  /** `set_track_number`. */
  method SetTrackNumber(e: Exporter, up: bool) returns (r: Reply)
    ensures r.exporter == e.(metadata := e.metadata.(trackNumber := NextTrackNumber(e.metadata.trackNumber, up)))
    ensures Undoable(e, r)
  {
    var c0 := [SetExporter(e)];
    var n := if up then
      (if e.metadata.trackNumber.Some? then Some(e.metadata.trackNumber.value + 1) else Some(0))
    else
      (if e.metadata.trackNumber.Some? && e.metadata.trackNumber.value > 0
       then Some(e.metadata.trackNumber.value - 1) else None);
    var e1 := e.(metadata := e.metadata.(trackNumber := n));
    r := SetExporterReply(c0, e1);
  }

  // The settings that step an index.

  datatype IndexSetting = Mp3BitRateIndex | Mp3QualityIndex | OggQualityIndex | MultiFileSuffixIndex

  /** The index a setting steps. */
  function IndexOf(e: Exporter, f: IndexSetting): Index
  {
    match f
    case Mp3BitRateIndex => e.mp3BitRate
    case Mp3QualityIndex => e.mp3Quality
    case OggQualityIndex => e.oggQuality
    case MultiFileSuffixIndex => e.multiFileSuffix.index
  }

  /** The exporter with the index of `f` replaced by `i`. */
  function WithIndex(e: Exporter, f: IndexSetting, i: Index): (r: Exporter)
    ensures IndexOf(r, f) == i
    ensures forall g :: g != f ==> IndexOf(r, g) == IndexOf(e, g)
  {
    match f
    case Mp3BitRateIndex => e.(mp3BitRate := i)
    case Mp3QualityIndex => e.(mp3Quality := i)
    case OggQualityIndex => e.(oggQuality := i)
    case MultiFileSuffixIndex => e.(multiFileSuffix := e.multiFileSuffix.(index := i))
  }

  /** Replacing an index changes nothing else: putting the old index back
      gives the old exporter. */
  lemma WithIndexRestores(e: Exporter, f: IndexSetting, i: Index)
    ensures WithIndex(WithIndex(e, f, i), f, IndexOf(e, f)) == e
  {
  }

  /** `set_index`: steps the index of `f` when a value event happened. */
  method SetIndex(f: IndexSetting, happened: set<SettingsEvent>, e: Exporter, increment: (Index, bool) -> Index)
    returns (r: Reply)
    ensures Step(happened).None? ==> r == Reply(e, None, [])
    ensures Step(happened).Some? ==> r.exporter == WithIndex(e, f, increment(IndexOf(e, f), Step(happened).value))
    ensures Step(happened).Some? ==> Undoable(e, r)
  {
    if PreviousExportSettingValue in happened {
      var c0 := [SetExporter(e)];
      r := SetExporterReply(c0, WithIndex(e, f, increment(IndexOf(e, f), false)));
    } else if NextExportSettingValue in happened {
      var c0 := [SetExporter(e)];
      r := SetExporterReply(c0, WithIndex(e, f, increment(IndexOf(e, f), true)));
    } else {
      r := Reply(e, None, []);
    }
  }

  // The settings lists.

  /** The settings list of an export type. Flac has none: the panel's match
      has no arm for it. */
  function SettingsOf(e: Exporter, t: ExportType): (r: Option<IndexedValues<ExportSetting>>)
    ensures r.None? <==> t == Flac
  {
    match t
    case Mid => Some(e.midSettings)
    case MP3 => Some(e.mp3Settings)
    case Ogg => Some(e.oggSettings)
    case Wav => Some(e.wavSettings)
    case Flac => None
  }

  /** The exporter with the settings list of `t` replaced. */
  function WithSettings(e: Exporter, t: ExportType, s: IndexedValues<ExportSetting>): (r: Exporter)
    ensures t != Flac ==> SettingsOf(r, t) == Some(s)
    ensures forall u :: u != t ==> SettingsOf(r, u) == SettingsOf(e, u)
    ensures r.exportType == e.exportType
  {
    match t
    case Mid => e.(midSettings := s)
    case MP3 => e.(mp3Settings := s)
    case Ogg => e.(oggSettings := s)
    case Wav => e.(wavSettings := s)
    case Flac => e
  }

  /** Moving the cursor of the current settings list one setting. */
  function Scrolled(e: Exporter, t: ExportType, up: bool, increment: (Index, bool) -> Index): (r: Exporter)
    ensures r.exportType == e.exportType
  {
    match SettingsOf(e, t)
    case None => e
    case Some(s) => WithSettings(e, t, s.(index := increment(s.index, up)))
  }

  /** Scrolling changes nothing but the cursor of the current settings list:
      putting the old cursor back gives the old exporter. */
  lemma ScrolledOnlyMovesCursor(e: Exporter, t: ExportType, up: bool, increment: (Index, bool) -> Index)
    requires t != Flac
    ensures SettingsOf(Scrolled(e, t, up, increment), t).value.values == SettingsOf(e, t).value.values
    ensures WithSettings(Scrolled(e, t, up, increment), t, SettingsOf(e, t).value) == e
  {
  }

  /** With a well-behaved increment, a cursor in range stays in range. */
  lemma ScrolledStaysInRange(e: Exporter, t: ExportType, up: bool, increment: (Index, bool) -> Index)
    requires IncrementKeepsInRange(increment) && t != Flac
    requires SettingsOf(e, t).value.index.length == |SettingsOf(e, t).value.values|
    requires SettingsOf(e, t).value.Get().Some?
    ensures SettingsOf(Scrolled(e, t, up, increment), t).value.Get().Some?
  {
    var s := SettingsOf(e, t).value;
    assert increment(s.index, up).index < s.index.length;
  }

  // One frame.

  /** Which part of `update` handles a frame, in the source's order. */
  datatype SettingsBranch = Close | Panic | NoSettings | Speak | Scroll(up: bool) | Value(setting: ExportSetting)

  function BranchOf(e: Exporter, happened: set<SettingsEvent>): (b: SettingsBranch)
    ensures b == Close <==> CloseOpenFileEvent in happened
    ensures b.Value? ==> e.exportType.Get().Some? && SettingsOf(e, e.exportType.Get().value).Some?
    ensures b.Value? ==> SettingsOf(e, e.exportType.Get().value).value.Get() == Some(b.setting)
  {
    if CloseOpenFileEvent in happened then Close
    else
      match e.exportType.Get()
      case None => Panic
      case Some(t) =>
        match SettingsOf(e, t)
        case None => NoSettings
        case Some(settings) =>
          if StatusTTS in happened || InputTTS in happened then
            (if settings.Get().None? then Panic else Speak)
          else if PreviousExportSetting in happened then Scroll(false)
          else if NextExportSetting in happened then Scroll(true)
          else
            match settings.Get()
            case None => Panic
            case Some(setting) => Value(setting)
  }

  /** The settings whose value is text, edited by `edit_string`. */
  predicate IsText(setting: ExportSetting)
  {
    setting in {Title, Artist, Album, Genre, Comment}
  }

  /** The index a stepped setting moves. */
  function IndexFor(setting: ExportSetting): Option<IndexSetting>
  {
    match setting
    case Mp3BitRate => Some(Mp3BitRateIndex)
    case Mp3Quality => Some(Mp3QualityIndex)
    case OggQuality => Some(OggQualityIndex)
    case MultiFileSuffixSetting => Some(MultiFileSuffixIndex)
    case _ => None
  }

  /** Flipping a boolean setting. */
  method Toggle(happened: set<SettingsEvent>, e: Exporter, e1: Exporter) returns (r: Reply)
    ensures ToggleExportSettingBoolean !in happened ==> r == Reply(e, None, [])
    ensures ToggleExportSettingBoolean in happened ==> r.exporter == e1 && Undoable(e, r)
  {
    if ToggleExportSettingBoolean in happened {
      var c0 := [SetExporter(e)];
      r := SetExporterReply(c0, e1);
    } else {
      r := Reply(e, None, []);
    }
  }

  /** The reply to a value change of `setting`, on values: each setting's new
      exporter, sent and undoable, when its event happened; nothing otherwise;
      `None` where stepping the framerate panics. Text settings are `edit`'s. */
  function ValueReply(setting: ExportSetting, happened: set<SettingsEvent>, e: Exporter,
                      increment: (Index, bool) -> Index, edit: (Exporter, ExportSetting) -> Reply): Option<Reply>
  {
    var c0 := [SetExporter(e)];
    var toggled := ToggleExportSettingBoolean in happened;
    match setting
    case Framerate =>
      (match Step(happened)
       case None => Some(Reply(e, None, []))
       case Some(up) =>
         match NextFramerate(e.framerate, up, increment)
         case None => None
         case Some(f) => Some(SetExporterReply(c0, e.(framerate := f))))
    case Copyright =>
      Some(if toggled then SetExporterReply(c0, e.(copyright := !e.copyright)) else Reply(e, None, []))
    case MultiFile =>
      Some(if toggled then SetExporterReply(c0, e.(multiFile := !e.multiFile)) else Reply(e, None, []))
    case TrackNumber =>
      (match Step(happened)
       case None => Some(Reply(e, None, []))
       case Some(up) =>
         Some(SetExporterReply(c0, e.(metadata := e.metadata.(trackNumber := NextTrackNumber(e.metadata.trackNumber, up))))))
    case _ =>
      match IndexFor(setting)
      case None => Some(edit(e, setting))
      case Some(f) =>
        match Step(happened)
        case None => Some(Reply(e, None, []))
        case Some(up) => Some(SetExporterReply(c0, WithIndex(e, f, increment(IndexOf(e, f), up))))
  }

  /** Each setting's value change alters only that setting, undoably, or
      nothing; the toggles flip only their own flag. */
  lemma ValueReplyChangesOnlyItsSetting(setting: ExportSetting, happened: set<SettingsEvent>, e: Exporter,
                                        increment: (Index, bool) -> Index, edit: (Exporter, ExportSetting) -> Reply,
                                        r: Option<Reply>)
    requires r == ValueReply(setting, happened, e, increment, edit)
    ensures IsText(setting) ==> r == Some(edit(e, setting))
    ensures !IsText(setting) && r.Some? && r.value.snapshot.Some? ==> Undoable(e, r.value)
    ensures !IsText(setting) && r.Some? && r.value.snapshot.None? ==> r.value == Reply(e, None, [])
    ensures setting == Framerate && Step(happened).Some? ==>
      (r.None? <==> NextFramerate(e.framerate, Step(happened).value, increment).None?)
    ensures setting == Framerate && Step(happened).Some? && r.Some? ==>
      r.value.exporter == e.(framerate := NextFramerate(e.framerate, Step(happened).value, increment).value)
    ensures setting != Framerate ==> r.Some?
    ensures setting == Copyright && ToggleExportSettingBoolean in happened ==>
      r.value.exporter == e.(copyright := !e.copyright)
    ensures setting == MultiFile && ToggleExportSettingBoolean in happened ==>
      r.value.exporter == e.(multiFile := !e.multiFile)
    ensures setting == TrackNumber && Step(happened).Some? ==>
      r.value.exporter == e.(metadata := e.metadata.(trackNumber := NextTrackNumber(e.metadata.trackNumber, Step(happened).value)))
    ensures IndexFor(setting).Some? && Step(happened).Some? ==>
      r.value.exporter == WithIndex(e, IndexFor(setting).value, increment(IndexOf(e, IndexFor(setting).value), Step(happened).value))
    ensures !IsText(setting) && setting != Copyright && setting != MultiFile && Step(happened).None? ==>
      r == Some(Reply(e, None, []))
    ensures (setting == Copyright || setting == MultiFile) && ToggleExportSettingBoolean !in happened ==>
      r == Some(Reply(e, None, []))
  {
  }

  /** `update_settings` once the setting under the cursor is known.
      `edit` stands for `edit_string`, which is not part of this model. */
  method ChangeValue(setting: ExportSetting, happened: set<SettingsEvent>, e: Exporter,
                     increment: (Index, bool) -> Index, edit: (Exporter, ExportSetting) -> Reply)
    returns (r: Option<Reply>)
    ensures IsText(setting) ==> r == Some(edit(e, setting))
    ensures !IsText(setting) && r.Some? && r.value.snapshot.Some? ==> Undoable(e, r.value)
    ensures !IsText(setting) && r.Some? && r.value.snapshot.None? ==> r.value == Reply(e, None, [])
    ensures setting == Framerate && Step(happened).Some? ==>
      (r.None? <==> NextFramerate(e.framerate, Step(happened).value, increment).None?)
    ensures setting == Framerate && Step(happened).Some? && r.Some? ==>
      r.value.exporter == e.(framerate := NextFramerate(e.framerate, Step(happened).value, increment).value)
    ensures setting != Framerate ==> r.Some?
    ensures setting == Copyright && ToggleExportSettingBoolean in happened ==>
      r.value.exporter == e.(copyright := !e.copyright)
    ensures setting == MultiFile && ToggleExportSettingBoolean in happened ==>
      r.value.exporter == e.(multiFile := !e.multiFile)
    ensures setting == TrackNumber && Step(happened).Some? ==>
      r.value.exporter == e.(metadata := e.metadata.(trackNumber := NextTrackNumber(e.metadata.trackNumber, Step(happened).value)))
    ensures IndexFor(setting).Some? && Step(happened).Some? ==>
      r.value.exporter == WithIndex(e, IndexFor(setting).value, increment(IndexOf(e, IndexFor(setting).value), Step(happened).value))
    ensures !IsText(setting) && setting != Copyright && setting != MultiFile && Step(happened).None? ==>
      r == Some(Reply(e, None, []))
    ensures (setting == Copyright || setting == MultiFile) && ToggleExportSettingBoolean !in happened ==>
      r == Some(Reply(e, None, []))
    ensures r == ValueReply(setting, happened, e, increment, edit)
  {
    match setting {
      case Framerate =>
        if PreviousExportSettingValue in happened {
          r := SetFramerate(e, false, increment);
        } else if NextExportSettingValue in happened {
          r := SetFramerate(e, true, increment);
        } else {
          r := Some(Reply(e, None, []));
        }
      case Copyright =>
        var reply := Toggle(happened, e, e.(copyright := !e.copyright));
        r := Some(reply);
      case TrackNumber =>
        if PreviousExportSettingValue in happened {
          var reply := SetTrackNumber(e, false);
          r := Some(reply);
        } else if NextExportSettingValue in happened {
          var reply := SetTrackNumber(e, true);
          r := Some(reply);
        } else {
          r := Some(Reply(e, None, []));
        }
      case Mp3BitRate =>
        var reply := SetIndex(Mp3BitRateIndex, happened, e, increment);
        r := Some(reply);
      case Mp3Quality =>
        var reply := SetIndex(Mp3QualityIndex, happened, e, increment);
        r := Some(reply);
      case OggQuality =>
        var reply := SetIndex(OggQualityIndex, happened, e, increment);
        r := Some(reply);
      case MultiFile =>
        var reply := Toggle(happened, e, e.(multiFile := !e.multiFile));
        r := Some(reply);
      case MultiFileSuffixSetting =>
        var reply := SetIndex(MultiFileSuffixIndex, happened, e, increment);
        r := Some(reply);
      case _ =>
        r := Some(edit(e, setting));
    }
    ValueReplyChangesOnlyItsSetting(setting, happened, e, increment, edit, r);
  }

  /** `update`: `None` where the source panics. */
  method Update(happened: set<SettingsEvent>, e: Exporter, increment: (Index, bool) -> Index,
                edit: (Exporter, ExportSetting) -> Reply)
    returns (r: Option<Reply>)
    ensures BranchOf(e, happened) == Close ==> r == Some(Reply(e, Some(FromIoCommands([CloseOpenFile])), []))
    ensures BranchOf(e, happened) == Panic ==> r.None?
    ensures BranchOf(e, happened) == NoSettings || BranchOf(e, happened) == Speak ==> r == Some(Reply(e, None, []))
    ensures BranchOf(e, happened).Scroll? ==>
      r == Some(Reply(Scrolled(e, e.exportType.Get().value, BranchOf(e, happened).up, increment), None, []))
    ensures BranchOf(e, happened).Value? && IsText(BranchOf(e, happened).setting) ==>
      r == Some(edit(e, BranchOf(e, happened).setting))
    ensures BranchOf(e, happened).Value? && !IsText(BranchOf(e, happened).setting) && r.Some? && r.value.snapshot.Some? ==>
      Undoable(e, r.value)
    ensures BranchOf(e, happened).Value? && !IsText(BranchOf(e, happened).setting) && r.Some? && r.value.snapshot.None? ==>
      r.value == Reply(e, None, [])
    ensures BranchOf(e, happened).Value? ==> r == ValueReply(BranchOf(e, happened).setting, happened, e, increment, edit)
  {
    if CloseOpenFileEvent in happened {
      return Some(Reply(e, Some(FromIoCommands([CloseOpenFile])), []));
    }
    var t := e.exportType.Get();
    if t.None? {
      return None;
    }
    var settings := SettingsOf(e, t.value);
    if settings.None? {
      return Some(Reply(e, None, []));
    }
    var current := settings.value.Get();
    if StatusTTS in happened || InputTTS in happened {
      r := if current.None? then None else Some(Reply(e, None, []));
    } else if PreviousExportSetting in happened {
      var s := settings.value;
      r := Some(Reply(WithSettings(e, t.value, s.(index := increment(s.index, false))), None, []));
    } else if NextExportSetting in happened {
      var s := settings.value;
      r := Some(Reply(WithSettings(e, t.value, s.(index := increment(s.index, true))), None, []));
    } else if current.None? {
      r := None;
    } else {
      r := ChangeValue(current.value, happened, e, increment, edit);
    }
  }
}
