// The audio connection: the catalog of loaded soundfonts and the programs
// selected on each channel, the commands that change them, music playback
// scheduling, and the export of the music to audio files.
//
// The synthesizer is an oracle: which fonts load, the iteration order of a
// bank-number hash map, whether a program select succeeds, preset names,
// whether an event is accepted, and the samples it renders.

module AudioConn {
  import opened Common
  import opened Sorting
  import opened Commands
  import opened EventQueue

  /** The synthesizer and file system as seen by the connection. */
  datatype Synth = Synth(
    load: string -> Option<set<(nat, nat)>>,
    keyOrder: set<nat> -> seq<nat>,
    select: (nat, nat, nat, nat) -> bool,
    presetName: (nat, nat, nat) -> string,
    accepts: MidiEvent -> bool)

  predicate NoDuplicates(s: seq<nat>)
  {
    forall i, j :: 0 <= i < j < |s| ==> s[i] != s[j]
  }

  /** The hash map lists every key once. */
  ghost predicate OrdersKeys(synth: Synth)
  {
    forall keys: set<nat> {:trigger synth.keyOrder(keys)} ::
      NoDuplicates(synth.keyOrder(keys)) && forall k :: k in synth.keyOrder(keys) <==> k in keys
  }

  // The soundfont catalog.

  const LAST_BANK: nat := 128
  const PRESET_COUNT: nat := 128

  /** The presets `p .. 127` that `font` defines in bank `b`, ascending. */
  function PresetsFrom(font: set<(nat, nat)>, b: nat, p: nat): (r: seq<nat>)
    decreases PRESET_COUNT - p
    ensures forall i :: 0 <= i < |r| ==> p <= r[i] < PRESET_COUNT
  {
    if p >= PRESET_COUNT then []
    else (if (b, p) in font then [p] else []) + PresetsFrom(font, b, p + 1)
  }

  function Presets(font: set<(nat, nat)>, b: nat): seq<nat>
  {
    PresetsFrom(font, b, 0)
  }

  predicate StrictlyAscending(s: seq<nat>)
  {
    forall i, j :: 0 <= i < j < |s| ==> s[i] < s[j]
  }

  lemma PresetsFromRule(font: set<(nat, nat)>, b: nat, p: nat, x: nat)
    ensures StrictlyAscending(PresetsFrom(font, b, p))
    ensures x in PresetsFrom(font, b, p) <==> p <= x < PRESET_COUNT && (b, x) in font
  {
    PresetsFromAscending(font, b, p);
    PresetsFromMembers(font, b, p, x);
  }

  lemma {:induction false} PresetsFromAscending(font: set<(nat, nat)>, b: nat, p: nat)
    decreases PRESET_COUNT - p
    ensures StrictlyAscending(PresetsFrom(font, b, p))
  {
    if p < PRESET_COUNT {
      PresetsFromAscending(font, b, p + 1);
      var rest := PresetsFrom(font, b, p + 1);
      var s := PresetsFrom(font, b, p);
      if (b, p) in font {
        assert s == [p] + rest;
        forall i, j | 0 <= i < j < |s| ensures s[i] < s[j] {
          assert s[j] == rest[j - 1];
          if i > 0 {
            assert s[i] == rest[i - 1];
          }
        }
      }
    }
  }

  lemma {:induction false} PresetsFromMembers(font: set<(nat, nat)>, b: nat, p: nat, x: nat)
    decreases PRESET_COUNT - p
    ensures x in PresetsFrom(font, b, p) <==> p <= x < PRESET_COUNT && (b, x) in font
  {
    if p < PRESET_COUNT {
      PresetsFromMembers(font, b, p + 1, x);
    }
  }

  /** A loaded soundfont: its synthesizer id, bank number to presets, and the
      order in which the bank map lists its keys. */
  datatype SoundFontBanks = SoundFontBanks(id: nat, banks: map<nat, seq<nat>>, order: seq<nat>)

  ghost predicate WellFormed(sf: SoundFontBanks)
  {
    && NoDuplicates(sf.order)
    && (forall b :: b in sf.order <==> b in sf.banks)
    && (forall b :: b in sf.banks ==> sf.banks[b] != [] && StrictlyAscending(sf.banks[b]))
  }

  /** `SoundFontBanks::new`: every bank `0 ..= 128` that has at least one of
      the presets `0 .. 127`, with those presets. */
  function NewBanks(font: set<(nat, nat)>, id: nat, synth: Synth): (sf: SoundFontBanks)
    ensures sf.id == id
    ensures forall b :: b in sf.banks ==> b <= LAST_BANK && sf.banks[b] != []
  {
    var banks := map b: nat | b <= LAST_BANK && Presets(font, b) != [] :: Presets(font, b);
    SoundFontBanks(id, banks, synth.keyOrder(banks.Keys))
  }

  /** A new catalog lists every bank once, and every bank has a non-empty,
      strictly ascending preset list. */
  lemma NewBanksWellFormed(font: set<(nat, nat)>, id: nat, synth: Synth)
    requires OrdersKeys(synth)
    ensures WellFormed(NewBanks(font, id, synth))
  {
    var sf := NewBanks(font, id, synth);
    assert synth.keyOrder(sf.banks.Keys) == sf.order;
    forall c | c in sf.banks ensures StrictlyAscending(sf.banks[c]) {
      PresetsFromRule(font, c, 0, 0);
    }
  }

  /** A bank is in the catalog iff the font defines a preset `0 .. 127` for
      it, and its preset list holds exactly the font's presets of that bank. */
  lemma CatalogRule(font: set<(nat, nat)>, id: nat, synth: Synth, b: nat, p: nat)
    ensures b in NewBanks(font, id, synth).banks <==> b <= LAST_BANK && exists q :: q < PRESET_COUNT && (b, q) in font
    ensures b in NewBanks(font, id, synth).banks ==> (p in NewBanks(font, id, synth).banks[b] <==> p < PRESET_COUNT && (b, p) in font)
  {
    var banks := NewBanks(font, id, synth).banks;
    assert b in banks <==> b <= LAST_BANK && Presets(font, b) != [];
    PresetsNonEmptyIff(font, b);
    if b in banks {
      assert banks[b] == Presets(font, b);
      PresetsFromRule(font, b, 0, p);
    }
  }

  lemma PresetsNonEmptyIff(font: set<(nat, nat)>, b: nat)
    ensures Presets(font, b) != [] <==> exists q :: q < PRESET_COUNT && (b, q) in font
  {
    if Presets(font, b) != [] {
      PresetsFromRule(font, b, 0, Presets(font, b)[0]);
    }
    if exists q :: q < PRESET_COUNT && (b, q) in font {
      var q :| q < PRESET_COUNT && (b, q) in font;
      PresetsFromRule(font, b, 0, q);
    }
  }

  /** The index of `x` in `s`. */
  function Position(s: seq<nat>, x: nat): (i: nat)
    requires x in s
    ensures i < |s| && s[i] == x
    ensures forall j :: 0 <= j < i ==> s[j] != x
  {
    if s[0] == x then 0 else 1 + Position(s[1..], x)
  }

  lemma PositionOfElement(s: seq<nat>, i: nat)
    requires NoDuplicates(s) && i < |s|
    ensures Position(s, s[i]) == i
  {
  }

  datatype Program = Program(
    path: string,
    numBanks: nat,
    bankIndex: nat,
    bank: nat,
    numPresets: nat,
    presetIndex: nat,
    presetName: string,
    preset: nat)

  /** The connection's catalog state: loaded fonts by path, the program of each
      channel, the gain, and the id the synthesizer gives the next font. */
  datatype ConnState = ConnState(
    soundfonts: map<string, SoundFontBanks>,
    programs: map<nat, Program>,
    gain: nat,
    nextFontId: nat)

  ghost predicate Loaded(c: ConnState)
  {
    forall path :: path in c.soundfonts ==> WellFormed(c.soundfonts[path])
  }

  /** `set_program`: when the synthesizer accepts the selection, records the
      program with the bank's position in the bank order and the preset's
      position in its bank; otherwise nothing changes. */
  function SelectProgram(c: ConnState, channel: nat, path: string, bank: nat, preset: nat, synth: Synth): (r: ConnState)
    requires path in c.soundfonts
    requires bank in c.soundfonts[path].banks && bank in c.soundfonts[path].order
    requires preset in c.soundfonts[path].banks[bank]
    ensures r.soundfonts == c.soundfonts && r.gain == c.gain && r.nextFontId == c.nextFontId
    ensures forall ch :: ch != channel ==> (ch in r.programs <==> ch in c.programs)
    ensures forall ch :: ch != channel && ch in c.programs ==> r.programs[ch] == c.programs[ch]
    ensures synth.select(channel, c.soundfonts[path].id, bank, preset) ==>
      channel in r.programs && r.programs[channel].path == path
      && r.programs[channel].bank == bank && r.programs[channel].preset == preset
  {
    var sf := c.soundfonts[path];
    if synth.select(channel, sf.id, bank, preset) then
      var program := Program(path, |sf.banks|, Position(sf.order, bank), bank,
        |sf.banks[bank]|, Position(sf.banks[bank], preset), synth.presetName(sf.id, bank, preset), preset);
      c.(programs := c.programs[channel := program])
    else c
  }

  function NatLe(a: nat, b: nat): bool
  {
    a <= b
  }

  lemma NatLeIsTotalPreorder()
    ensures TotalPreorder(NatLe)
  {
  }

  /** `set_program_default`: the first of the sorted bank numbers, and the
      first preset of that bank. A font without presets has no first bank:
      the source panics (`None`). */
  function DefaultProgram(c: ConnState, channel: nat, path: string, synth: Synth): (r: Option<ConnState>)
    requires Loaded(c) && path in c.soundfonts
    ensures r.None? <==> c.soundfonts[path].order == []
    ensures r.Some? ==> r.value.soundfonts == c.soundfonts && r.value.gain == c.gain
  {
    var sf := c.soundfonts[path];
    var sorted := SortBy(sf.order, NatLe);
    if sorted == [] then None
    else
      assert sorted[0] in multiset(sf.order);
      var bank := sorted[0];
      Some(SelectProgram(c, channel, path, bank, sf.banks[bank][0], synth))
  }

  /** The default bank is the smallest bank number and the default preset the
      smallest preset of that bank. */
  lemma DefaultIsLeast(c: ConnState, path: string)
    requires Loaded(c) && path in c.soundfonts && c.soundfonts[path].banks != map[]
    ensures var sf := c.soundfonts[path];
      var sorted := SortBy(sf.order, NatLe);
      && sorted != []
      && sorted[0] in sf.banks
      && (forall b :: b in sf.banks ==> sorted[0] <= b)
      && (forall p :: p in sf.banks[sorted[0]] ==> sf.banks[sorted[0]][0] <= p)
  {
    var sf := c.soundfonts[path];
    NatLeIsTotalPreorder();
    SortBySorted(sf.order, NatLe);
    var sorted := SortBy(sf.order, NatLe);
    var k :| k in sf.banks;
    assert k in multiset(sorted);
    assert sorted[0] in multiset(sf.order);
    forall b | b in sf.banks ensures sorted[0] <= b {
      assert b in multiset(sorted);
      SortedHeadIsLeast(sorted, NatLe, b);
    }
    var list := sf.banks[sorted[0]];
    forall p | p in list ensures list[0] <= p {
      var j :| 0 <= j < |list| && list[j] == p;
    }
  }

  /** After loading a new font, every other channel's program whose font is
      loaded is selected again; a refused selection panics. */
  predicate RestoresOthers(c: ConnState, channel: nat, synth: Synth)
  {
    forall ch :: ch in c.programs && ch != channel && c.programs[ch].path in c.soundfonts ==>
      synth.select(ch, c.soundfonts[c.programs[ch].path].id, c.programs[ch].bank, c.programs[ch].preset)
  }

  /** `LoadSoundFont`: a font already loaded only gets its default program
      applied; otherwise the font is read (failing to open or parse it
      panics), catalogued, its default program applied and the other
      channels' programs restored. */
  function Load(c: ConnState, channel: nat, path: string, synth: Synth): (r: Option<ConnState>)
    requires Loaded(c) && OrdersKeys(synth)
    ensures path !in c.soundfonts && synth.load(path).None? ==> r.None?
    ensures r.Some? ==> path in r.value.soundfonts && c.soundfonts.Keys <= r.value.soundfonts.Keys
    ensures r.Some? ==> r.value.gain == c.gain
  {
    if path in c.soundfonts then DefaultProgram(c, channel, path, synth)
    else
      match synth.load(path)
      case None => None
      case Some(font) =>
        NewBanksWellFormed(font, c.nextFontId, synth);
        var c1 := Catalogued(c, path, font, synth);
        match DefaultProgram(c1, channel, path, synth)
        case None => None
        case Some(c2) => if RestoresOthers(c2, channel, synth) then Some(c2) else None
  }

  /** The state once a new font is catalogued under the next id. */
  function Catalogued(c: ConnState, path: string, font: set<(nat, nat)>, synth: Synth): ConnState
  {
    c.(soundfonts := c.soundfonts[path := NewBanks(font, c.nextFontId, synth)], nextFontId := c.nextFontId + 1)
  }

  /** Loading a font read for the first time: catalogue it, apply its default
      program, then restore the other channels. */
  lemma LoadNewFont(c: ConnState, channel: nat, path: string, font: set<(nat, nat)>, synth: Synth)
    requires Loaded(c) && OrdersKeys(synth) && path !in c.soundfonts && synth.load(path) == Some(font)
    ensures Loaded(Catalogued(c, path, font, synth)) && path in Catalogued(c, path, font, synth).soundfonts
    ensures Load(c, channel, path, synth) ==
      match DefaultProgram(Catalogued(c, path, font, synth), channel, path, synth)
      case None => None
      case Some(c2) => if RestoresOthers(c2, channel, synth) then Some(c2) else None
  {
    NewBanksWellFormed(font, c.nextFontId, synth);
  }

  /** One command of `do_commands`; `None` where the source panics. The
      playback and export commands are not handled by this connection. */
  function Step(c: ConnState, cmd: Command, synth: Synth): (r: Option<ConnState>)
    requires Loaded(c) && OrdersKeys(synth)
    ensures r.Some? ==> c.soundfonts.Keys <= r.value.soundfonts.Keys
    ensures !(cmd.LoadSoundFont? || cmd.SetProgram? || cmd.UnsetProgram? || cmd.SetGain?) ==> r == Some(c)
    ensures cmd.SetProgram? ==>
      (r.None? <==> (cmd.path !in c.soundfonts || cmd.bankIndex >= |c.soundfonts[cmd.path].order|
        || cmd.presetIndex >= |c.soundfonts[cmd.path].banks[c.soundfonts[cmd.path].order[cmd.bankIndex]]|))
  {
    match cmd
    case LoadSoundFont(channel, path) => Load(c, channel, path, synth)
    case SetProgram(channel, path, bankIndex, presetIndex) =>
      if path !in c.soundfonts then None
      else
        var sf := c.soundfonts[path];
        if bankIndex >= |sf.order| then None
        else
          var bank := sf.order[bankIndex];
          if presetIndex >= |sf.banks[bank]| then None
          else Some(SelectProgram(c, channel, path, bank, sf.banks[bank][presetIndex], synth))
    case UnsetProgram(channel) => Some(c.(programs := c.programs - {channel}))
    case SetGain(gain) => Some(c.(gain := gain))
    case _ => Some(c)
  }

  lemma {:induction false} StepKeepsLoaded(c: ConnState, cmd: Command, synth: Synth)
    requires Loaded(c) && OrdersKeys(synth)
    ensures Step(c, cmd, synth).Some? ==> Loaded(Step(c, cmd, synth).value)
  {
    match cmd {
      case LoadSoundFont(channel, path) =>
        if path !in c.soundfonts && synth.load(path).Some? {
          var font := synth.load(path).value;
          NewBanksWellFormed(font, c.nextFontId, synth);
          var c1 := Catalogued(c, path, font, synth);
          assert Loaded(c1);
          DefaultKeepsFonts(c1, channel, path, synth);
        } else if path in c.soundfonts {
          DefaultKeepsFonts(c, channel, path, synth);
        }
      case SetProgram(channel, path, bankIndex, presetIndex) =>
      case UnsetProgram(channel) =>
      case SetGain(gain) =>
      case _ =>
    }
  }

  lemma DefaultKeepsFonts(c: ConnState, channel: nat, path: string, synth: Synth)
    requires Loaded(c) && path in c.soundfonts
    ensures DefaultProgram(c, channel, path, synth).Some? ==> DefaultProgram(c, channel, path, synth).value.soundfonts == c.soundfonts
  {
  }

  /** Loading a font that is already loaded reads nothing and changes at most
      the program of that channel. */
  lemma ReloadOnlyReappliesDefault(c: ConnState, channel: nat, path: string, synth: Synth)
    requires Loaded(c) && OrdersKeys(synth) && path in c.soundfonts
    ensures var r := Step(c, LoadSoundFont(channel, path), synth);
      && r == DefaultProgram(c, channel, path, synth)
      && (r.Some? ==> r.value.soundfonts == c.soundfonts && r.value.gain == c.gain && r.value.nextFontId == c.nextFontId)
      && (r.Some? ==> forall ch :: ch != channel ==> (ch in r.value.programs <==> ch in c.programs))
      && (r.Some? ==> forall ch :: ch != channel && ch in c.programs ==> r.value.programs[ch] == c.programs[ch])
  {
  }

  /** A program selection changes the programs only when the synthesizer
      accepts it. */
  lemma SelectOnlyOnSuccess(c: ConnState, channel: nat, path: string, bank: nat, preset: nat, synth: Synth)
    requires path in c.soundfonts
    requires bank in c.soundfonts[path].banks && bank in c.soundfonts[path].order
    requires preset in c.soundfonts[path].banks[bank]
    ensures !synth.select(channel, c.soundfonts[path].id, bank, preset) ==> SelectProgram(c, channel, path, bank, preset, synth) == c
    ensures synth.select(channel, c.soundfonts[path].id, bank, preset) ==>
      SelectProgram(c, channel, path, bank, preset, synth).programs == c.programs[channel := SelectProgram(c, channel, path, bank, preset, synth).programs[channel]]
  {
  }

  /** After an accepted `SetProgram{bank_index: i, preset_index: j}` the stored
      program has bank index `i` and preset index `j`. */
  lemma SetProgramRecordsIndices(c: ConnState, channel: nat, path: string, i: nat, j: nat, synth: Synth)
    requires Loaded(c) && OrdersKeys(synth)
    requires Step(c, SetProgram(channel, path, i, j), synth).Some?
    ensures var sf := c.soundfonts[path];
      var bank := sf.order[i];
      var r := Step(c, SetProgram(channel, path, i, j), synth).value;
      synth.select(channel, sf.id, bank, sf.banks[bank][j]) ==>
        && channel in r.programs
        && r.programs[channel].bankIndex == i
        && r.programs[channel].presetIndex == j
        && r.programs[channel].bank == bank
        && r.programs[channel].preset == sf.banks[bank][j]
  {
    var sf := c.soundfonts[path];
    var bank := sf.order[i];
    PositionOfElement(sf.order, i);
    assert NoDuplicates(sf.banks[bank]) by {
      assert StrictlyAscending(sf.banks[bank]);
    }
    PositionOfElement(sf.banks[bank], j);
  }

  /** `UnsetProgram` removes exactly that channel's program; `SetGain` sets the gain. */
  lemma UnsetAndGain(c: ConnState, channel: nat, gain: nat, synth: Synth)
    requires Loaded(c) && OrdersKeys(synth)
    ensures Step(c, UnsetProgram(channel), synth) == Some(c.(programs := c.programs - {channel}))
    ensures channel !in Step(c, UnsetProgram(channel), synth).value.programs
    ensures forall ch :: ch != channel && ch in c.programs ==>
      ch in Step(c, UnsetProgram(channel), synth).value.programs
    ensures Step(c, SetGain(gain), synth) == Some(c.(gain := gain))
  {
  }

  /** Commands one after the other, stopping at the first panic. */
  function Steps(c: ConnState, cmds: seq<Command>, synth: Synth): (r: Option<ConnState>)
    requires Loaded(c) && OrdersKeys(synth)
    ensures r.Some? ==> c.soundfonts.Keys <= r.value.soundfonts.Keys
    decreases |cmds|
  {
    if cmds == [] then Some(c)
    else
      StepKeepsLoaded(c, cmds[0], synth);
      match Step(c, cmds[0], synth)
      case None => None
      case Some(c1) => Steps(c1, cmds[1..], synth)
  }

  lemma {:induction false} StepsAppend(c: ConnState, cmds: seq<Command>, cmd: Command, synth: Synth)
    requires Loaded(c) && OrdersKeys(synth)
    requires Steps(c, cmds, synth).Some?
    ensures Loaded(Steps(c, cmds, synth).value)
    ensures Steps(c, cmds + [cmd], synth) == Step(Steps(c, cmds, synth).value, cmd, synth)
    decreases |cmds|
  {
    if cmds == [] {
      assert [] + [cmd] == [cmd];
      StepKeepsLoaded(c, cmd, synth);
    } else {
      StepKeepsLoaded(c, cmds[0], synth);
      assert (cmds + [cmd])[1..] == cmds[1..] + [cmd];
      StepsAppend(Step(c, cmds[0], synth).value, cmds[1..], cmd, synth);
    }
  }

  // Playback and export.

  datatype PlayState = NotPlaying | Playing(start: nat) | Decaying

  /** A batch of scheduled events to render into one file. */
  datatype Exportable = Exportable(events: seq<TimedEvent>, totalSamples: nat, suffix: Option<string>)

  /** A file the export writes: its path, format and the two channels. */
  datatype WrittenFile = WrittenFile(path: string, exportType: ExportType, left: seq<int>, right: seq<int>)

  /** The file extension of each format. */
  function ExtensionOf(t: ExportType): string
  {
    match t
    case Wav => ".wav"
    case Mid => ".mid"
    case MP3 => ".mp3"
    case Ogg => ".ogg"
    case Flac => ".flac"
  }

  /** The output path of an exportable: `{stem}_{suffix}{ext}`, or
      `{stem}{ext}` without a suffix, in the directory `parent`. */
  function OutputPath(parent: string, stem: string, suffix: Option<string>, ext: string): (p: string)
    ensures suffix.None? ==> p == parent + "/" + stem + ext
    ensures suffix.Some? ==> p == parent + "/" + stem + "_" + suffix.value + ext
  {
    match suffix
    case Some(s) => parent + "/" + stem + "_" + s + ext
    case None => parent + "/" + stem + ext
  }

  /** Two suffixed exports of the same path differ whenever their suffixes do. */
  lemma OutputPathsDistinct(parent: string, stem: string, s1: string, s2: string, ext: string)
    requires s1 != s2
    ensures OutputPath(parent, stem, Some(s1), ext) != OutputPath(parent, stem, Some(s2), ext)
  {
    var prefix := parent + "/" + stem + "_";
    var p1 := OutputPath(parent, stem, Some(s1), ext);
    var p2 := OutputPath(parent, stem, Some(s2), ext);
    assert p1 == prefix + s1 + ext && p2 == prefix + s2 + ext;
    if |s1| == |s2| {
      var k :| 0 <= k < |s1| && s1[k] != s2[k];
      assert p1[|prefix| + k] == s1[k] && p2[|prefix| + k] == s2[k];
    } else {
      assert |p1| != |p2|;
    }
  }

  /** `get_export_file_suffix`: the channel number, the channel's preset name,
      or both joined by `_`. A track without a program panics in the last two
      cases (`None`). */
  function ExportFileSuffix(kind: MultiFileSuffix, track: MidiTrack, programs: map<nat, Program>): (r: Option<string>)
    ensures kind == ChannelSuffix ==> r == Some(NatToString(track.channel))
    ensures kind != ChannelSuffix ==> (r.Some? <==> track.channel in programs)
  {
    match kind
    case ChannelSuffix => Some(NatToString(track.channel))
    case PresetSuffix =>
      if track.channel in programs then Some(programs[track.channel].presetName) else None
    case ChannelAndPresetSuffix =>
      if track.channel in programs then Some(NatToString(track.channel) + "_" + programs[track.channel].presetName) else None
  }

  /** The note-on and note-off events of a track's notes, each pair at the
      note's start and end sample. */
  function NoteEvents(channel: nat, notes: seq<Note>, toSamples: nat -> nat, gain: nat): (r: seq<TimedEvent>)
    ensures |r| == 2 * |notes|
  {
    if notes == [] then []
    else
      var n := notes[|notes| - 1];
      NoteEvents(channel, notes[..|notes| - 1], toSamples, gain)
        + [TimedEvent(toSamples(n.start), MidiEvent.NoteOn(channel, n.note, GainScaled(n.velocity, gain))),
           TimedEvent(toSamples(n.end), NoteOff(channel, n.note))]
  }

  /** The latest end sample of the notes, or `t1` if that is later. */
  function LastEnd(t1: nat, notes: seq<Note>, toSamples: nat -> nat): (r: nat)
    ensures r >= t1
    ensures forall i :: 0 <= i < |notes| ==> toSamples(notes[i].end) <= r
    ensures r == t1 || exists i :: 0 <= i < |notes| && toSamples(notes[i].end) == r
  {
    if notes == [] then t1
    else
      var init := LastEnd(t1, notes[..|notes| - 1], toSamples);
      var e := toSamples(notes[|notes| - 1].end);
      assert forall i :: 0 <= i < |notes| - 1 ==> notes[..|notes| - 1][i] == notes[i];
      if init < e then e else init
  }

  /** The events of every track, track by track. */
  function TracksEvents(tracks: seq<MidiTrack>, notesOf: MidiTrack -> seq<Note>, toSamples: nat -> nat, scaleGain: bool): (r: seq<TimedEvent>)
  {
    if tracks == [] then []
    else
      var t := tracks[|tracks| - 1];
      TracksEvents(tracks[..|tracks| - 1], notesOf, toSamples, scaleGain)
        + NoteEvents(t.channel, notesOf(t), toSamples, if scaleGain then t.gain else MAX_VOLUME)
  }

  function TotalNotes(tracks: seq<MidiTrack>, notesOf: MidiTrack -> seq<Note>): nat
  {
    if tracks == [] then 0 else TotalNotes(tracks[..|tracks| - 1], notesOf) + |notesOf(tracks[|tracks| - 1])|
  }

  lemma {:induction false} TracksEventsCount(tracks: seq<MidiTrack>, notesOf: MidiTrack -> seq<Note>, toSamples: nat -> nat, scaleGain: bool)
    ensures |TracksEvents(tracks, notesOf, toSamples, scaleGain)| == 2 * TotalNotes(tracks, notesOf)
  {
    if tracks != [] {
      TracksEventsCount(tracks[..|tracks| - 1], notesOf, toSamples, scaleGain);
    }
  }

  function LastEndOfTracks(t1: nat, tracks: seq<MidiTrack>, toSamples: nat -> nat): (r: nat)
    ensures r >= t1
  {
    if tracks == [] then t1
    else LastEnd(LastEndOfTracks(t1, tracks[..|tracks| - 1], toSamples), tracks[|tracks| - 1].notes, toSamples)
  }

  /** The events sent to the synthesizer by the end of sample `t - 1`, when
      the queue is dequeued at `0, 1, ..., t - 1`. */
  function SentBy(q: seq<TimedEvent>, t: nat): seq<TimedEvent>
  {
    if t == 0 then [] else Dequeue(q, t - 1).0
  }

  function LeftBy(q: seq<TimedEvent>, t: nat): seq<TimedEvent>
  {
    if t == 0 then q else Dequeue(q, t - 1).1
  }

  function EventsOf(q: seq<TimedEvent>): (r: seq<MidiEvent>)
    ensures |r| == |q|
    ensures forall i :: 0 <= i < |q| ==> r[i] == q[i].event
  {
    seq(|q|, i requires 0 <= i < |q| => q[i].event)
  }

  /** On a sorted queue, the samples up to `t` are rendered after exactly the
      events due at or before `t` were sent. */
  lemma SentBySorted(q: seq<TimedEvent>, t: nat)
    requires SortedBy(q, TimeLe)
    ensures SentBy(q, t + 1) == DueBy(q, t)
  {
    DequeueSortedIsDueBy(q, t);
  }

  /** The progress reported by the sample loop after `t` samples: writing
      started at 0, then one report per sample. */
  function WavTrace(total: nat, t: nat): (r: seq<ExportState>)
    ensures |r| == t + 1
  {
    if t == 0 then [WritingWav(total, 0)] else WavTrace(total, t - 1) + [WritingWav(total, t - 1)]
  }

  /** The export progress reported while writing one exportable. */
  function ExportTrace(total: nat): seq<ExportState>
  {
    WavTrace(total, total) + [AppendingDecay, WritingToDisk, Done]
  }

  /** While writing, the progress counts each sample once, in order, and never
      reaches the total. */
  lemma {:induction false} WavTraceCounts(total: nat, t: nat)
    ensures WavTrace(total, t)[0] == WritingWav(total, 0)
    ensures forall k :: 0 <= k < t ==> WavTrace(total, t)[k + 1] == WritingWav(total, k)
  {
    if t > 0 {
      WavTraceCounts(total, t - 1);
    }
  }

  function AllTraces(exportables: seq<Exportable>): seq<ExportState>
  {
    if exportables == [] then []
    else AllTraces(exportables[..|exportables| - 1]) + ExportTrace(exportables[|exportables| - 1].totalSamples)
  }

  lemma AllTracesStep(exportables: seq<Exportable>, i: nat)
    requires i < |exportables|
    ensures AllTraces(exportables[..i + 1]) == AllTraces(exportables[..i]) + ExportTrace(exportables[i].totalSamples)
  {
    assert exportables[..i + 1][..i] == exportables[..i];
  }

  lemma LogStep(log: seq<ExportState>, exportables: seq<Exportable>, i: nat)
    requires i < |exportables|
    ensures log + AllTraces(exportables[..i]) + ExportTrace(exportables[i].totalSamples) == log + AllTraces(exportables[..i + 1])
  {
    AllTracesStep(exportables, i);
  }

  /** The rendering oracles of an export: the sample pair the synthesizer
      produces at sample `t` after the given events, and the decaying tail it
      produces after all of them. */
  datatype Renderer = Renderer(
    read: (seq<MidiEvent>, nat) -> (int, int),
    decay: seq<MidiEvent> -> seq<(int, int)>)

  function Lefts(frames: seq<(int, int)>): (r: seq<int>)
    ensures |r| == |frames| && forall i :: 0 <= i < |frames| ==> r[i] == frames[i].0
  {
    seq(|frames|, i requires 0 <= i < |frames| => frames[i].0)
  }

  function Rights(frames: seq<(int, int)>): (r: seq<int>)
    ensures |r| == |frames| && forall i :: 0 <= i < |frames| ==> r[i] == frames[i].1
  {
    seq(|frames|, i requires 0 <= i < |frames| => frames[i].1)
  }

  /** The sample pair rendered at sample `t` of an exportable: the
      synthesizer's output after the events due by `t` were sent. */
  function Frame(e: Exportable, renderer: Renderer, t: nat): (int, int)
  {
    renderer.read(EventsOf(SentBy(e.events, t + 1)), t)
  }

  /** The decaying tail appended after the last rendered sample, once every
      event still queued has been sent (the corrected `export`, see
      `SentBeforeDecay`). */
  function Tail(e: Exportable, renderer: Renderer): seq<(int, int)>
  {
    renderer.decay(EventsOf(e.events))
  }

  /** The file written for an exportable: each channel holds one sample per
      sample of the music, then the decaying tail. */
  function FileOf(e: Exportable, exportType: ExportType, parent: string, stem: string, renderer: Renderer): (r: WrittenFile)
    ensures r.path == OutputPath(parent, stem, e.suffix, ExtensionOf(exportType)) && r.exportType == exportType
    ensures |r.left| == |r.right| == e.totalSamples + |Tail(e, renderer)|
  {
    var tail := Tail(e, renderer);
    WrittenFile(OutputPath(parent, stem, e.suffix, ExtensionOf(exportType)), exportType,
      seq(e.totalSamples, t requires 0 <= t < e.totalSamples => Frame(e, renderer, t).0) + Lefts(tail),
      seq(e.totalSamples, t requires 0 <= t < e.totalSamples => Frame(e, renderer, t).1) + Rights(tail))
  }

  /** A file built from the rendered samples of an exportable and its tail is
      that exportable's file. */
  lemma FileOfFrames(e: Exportable, exportType: ExportType, parent: string, stem: string, renderer: Renderer,
                     left: seq<int>, right: seq<int>)
    requires |left| == |right| == e.totalSamples
    requires forall t :: 0 <= t < e.totalSamples ==> left[t] == Frame(e, renderer, t).0 && right[t] == Frame(e, renderer, t).1
    ensures FileOf(e, exportType, parent, stem, renderer)
      == WrittenFile(OutputPath(parent, stem, e.suffix, ExtensionOf(exportType)), exportType,
                     left + Lefts(Tail(e, renderer)), right + Rights(Tail(e, renderer)))
  {
    assert left == seq(e.totalSamples, t requires 0 <= t < e.totalSamples => Frame(e, renderer, t).0);
    assert right == seq(e.totalSamples, t requires 0 <= t < e.totalSamples => Frame(e, renderer, t).1);
  }

  /** The files written for the exportables, in order. */
  function Files(exportables: seq<Exportable>, exportType: ExportType, parent: string, stem: string, renderer: Renderer): (r: seq<WrittenFile>)
    ensures |r| == |exportables|
  {
    if exportables == [] then []
    else
      var last := FileOf(exportables[|exportables| - 1], exportType, parent, stem, renderer);
      Files(exportables[..|exportables| - 1], exportType, parent, stem, renderer) + [last]
  }

  lemma FilesStep(exportables: seq<Exportable>, i: nat, exportType: ExportType, parent: string, stem: string, renderer: Renderer)
    requires i < |exportables|
    ensures Files(exportables[..i + 1], exportType, parent, stem, renderer)
      == Files(exportables[..i], exportType, parent, stem, renderer) + [FileOf(exportables[i], exportType, parent, stem, renderer)]
  {
    assert exportables[..i + 1][..i] == exportables[..i];
  }

  /** One file per exportable, at the exportable's path, holding its rendered
      samples followed by its decaying tail. */
  lemma {:induction false} FilesPointwise(exportables: seq<Exportable>, exportType: ExportType, parent: string, stem: string, renderer: Renderer)
    ensures var files := Files(exportables, exportType, parent, stem, renderer);
      && |files| == |exportables|
      && forall i :: 0 <= i < |files| ==> files[i] == FileOf(exportables[i], exportType, parent, stem, renderer)
  {
    if exportables != [] {
      FilesPointwise(exportables[..|exportables| - 1], exportType, parent, stem, renderer);
    }
  }

  /** A written file's channels hold one frame per sample and then the tail,
      and its path carries the exportable's suffix and the format's extension. */
  lemma FileContents(e: Exportable, exportType: ExportType, parent: string, stem: string, renderer: Renderer)
    ensures var f := FileOf(e, exportType, parent, stem, renderer);
      && |f.left| == e.totalSamples + |Tail(e, renderer)| && |f.right| == |f.left|
      && (forall t :: 0 <= t < e.totalSamples ==> (f.left[t], f.right[t]) == Frame(e, renderer, t))
      && (forall k :: 0 <= k < |Tail(e, renderer)| ==> (f.left[e.totalSamples + k], f.right[e.totalSamples + k]) == Tail(e, renderer)[k])
      && f.path == OutputPath(parent, stem, e.suffix, ExtensionOf(exportType))
  {
  }

  /** Dequeuing the next sample's events continues the dequeues so far. */
  lemma SentStep(q: seq<TimedEvent>, t: nat)
    ensures SentBy(q, t) + Dequeue(LeftBy(q, t), t).0 == SentBy(q, t + 1)
    ensures Dequeue(LeftBy(q, t), t).1 == LeftBy(q, t + 1)
  {
    if t > 0 {
      var first := Dequeue(q, t - 1);
      assert SentBy(q, t) == first.0 && LeftBy(q, t) == first.1;
      DequeueThenLater(q, t - 1, t);
    }
  }

  /** Nothing due at or after the last sample is sent before the decay. */
  lemma SentBeforeEnd(q: seq<TimedEvent>, total: nat)
    ensures forall i :: 0 <= i < |SentBy(q, total)| ==> SentBy(q, total)[i].time < total
    ensures SentBy(q, total) + LeftBy(q, total) == q
  {
    if total > 0 {
      DequeueBounds(q, total - 1);
    }
  }

  /** As written, the rendering loop stops before the sample of the last
      note-off: a single note's note-off is never sent to the synthesizer,
      so the note is still held when the decay is appended. */
  lemma ExportNeverSendsLastNoteOff(channel: nat, note: Note, toSamples: nat -> nat)
    requires toSamples(note.start) < toSamples(note.end)
    ensures var e := Exportable(Sort(NoteEvents(channel, [note], toSamples, MAX_VOLUME)), LastEnd(0, [note], toSamples), None);
      var off := TimedEvent(toSamples(note.end), NoteOff(channel, note.note));
      off in e.events && off !in SentBy(e.events, e.totalSamples)
  {
    var events := NoteEvents(channel, [note], toSamples, MAX_VOLUME);
    assert [note][..0] == [];
    var off := TimedEvent(toSamples(note.end), NoteOff(channel, note.note));
    assert events[1] == off;
    assert off in multiset(Sort(events));
    var e := Exportable(Sort(events), LastEnd(0, [note], toSamples), None);
    assert e.totalSamples == toSamples(note.end);
    SentBeforeEnd(e.events, e.totalSamples);
  }

  /** Corrected: the events still queued after the last sample are sent before
      the decay, so every scheduled event reaches the synthesizer. */
  function SentBeforeDecay(e: Exportable): (r: seq<TimedEvent>)
    ensures r == e.events
  {
    SentBy(e.events, e.totalSamples) + LeftBy(e.events, e.totalSamples)
  }

  /** Corrected counterpart of `ExportNeverSendsLastNoteOff`: the decay is
      rendered after every queued event was sent, so a single note's note-off
      reaches the synthesizer before its tail. */
  lemma CorrectedExportSendsEveryEvent(channel: nat, note: Note, toSamples: nat -> nat, renderer: Renderer)
    ensures var e := Exportable(Sort(NoteEvents(channel, [note], toSamples, MAX_VOLUME)), LastEnd(0, [note], toSamples), None);
      && Tail(e, renderer) == renderer.decay(EventsOf(SentBeforeDecay(e)))
      && NoteOff(channel, note.note) in EventsOf(SentBeforeDecay(e))
  {
    var events := NoteEvents(channel, [note], toSamples, MAX_VOLUME);
    assert [note][..0] == [];
    var off := TimedEvent(toSamples(note.end), NoteOff(channel, note.note));
    assert events[1] == off;
    assert off in multiset(Sort(events));
    var e := Exportable(Sort(events), LastEnd(0, [note], toSamples), None);
    SentBeforeEnd(e.events, e.totalSamples);
    assert SentBeforeDecay(e) == e.events;
    var k :| 0 <= k < |e.events| && e.events[k] == off;
    assert EventsOf(e.events)[k] == off.event;
  }

  /** The audio connection. */
  class Conn {
    var soundfonts: map<string, SoundFontBanks>
    var programs: map<nat, Program>
    var gain: nat
    var nextFontId: nat
    var playState: PlayState
    var exportState: ExportState
    ghost var exportLog: seq<ExportState>
    var queue: seq<TimedEvent>
    var sent: seq<MidiEvent>
    var exporter: Exporter
    var framerate: nat

    function Current(): ConnState
      reads this
    {
      ConnState(soundfonts, programs, gain, nextFontId)
    }

    ghost predicate Valid()
      reads this
    {
      Loaded(Current())
    }

    constructor (exporter: Exporter, framerate: nat, gain: nat)
      ensures soundfonts == map[] && programs == map[] && playState == NotPlaying
      ensures exportState == NotExporting && queue == [] && sent == []
      ensures this.exporter == exporter && this.framerate == framerate
      ensures Valid()
    {
      soundfonts, programs, this.gain, nextFontId := map[], map[], gain, 0;
      playState, exportState, exportLog := NotPlaying, NotExporting, [];
      queue, sent := [], [];
      this.exporter, this.framerate := exporter, framerate;
    }

    /** `exporting`: an export is in progress. */
    function Exporting(): (r: bool)
      reads this
      ensures r <==> exportState != NotExporting
    {
      exportState != NotExporting
    }

    /** `do_commands`: the commands in order; `panicked` when one of them panics. */
    method DoCommands(cmds: seq<Command>, synth: Synth) returns (panicked: bool)
      requires Valid() && OrdersKeys(synth)
      modifies this`soundfonts, this`programs, this`gain, this`nextFontId
      ensures panicked <==> Steps(old(Current()), cmds, synth).None?
      ensures !panicked ==> Current() == Steps(old(Current()), cmds, synth).value && Valid()
    {
      var i := 0;
      while i < |cmds|
        invariant 0 <= i <= |cmds|
        invariant Steps(old(Current()), cmds[..i], synth) == Some(Current())
        invariant Valid()
      {
        StepsAppend(old(Current()), cmds[..i], cmds[i], synth);
        assert cmds[..i + 1] == cmds[..i] + [cmds[i]];
        var p := DoCommand(cmds[i], synth);
        if p {
          StepsNonePrefix(old(Current()), cmds, i + 1, synth);
          return true;
        }
        StepKeepsLoaded(Steps(old(Current()), cmds[..i], synth).value, cmds[i], synth);
        i := i + 1;
      }
      assert cmds[..i] == cmds;
      return false;
    }

    /** One command. */
    method DoCommand(cmd: Command, synth: Synth) returns (panicked: bool)
      requires Valid() && OrdersKeys(synth)
      modifies this`soundfonts, this`programs, this`gain, this`nextFontId
      ensures panicked <==> Step(old(Current()), cmd, synth).None?
      ensures !panicked ==> Current() == Step(old(Current()), cmd, synth).value
    {
      match cmd {
        case LoadSoundFont(channel, path) =>
          panicked := LoadSoundFont(channel, path, synth);
        case SetProgram(channel, path, bankIndex, presetIndex) =>
          if path !in soundfonts {
            return true;
          }
          var sf := soundfonts[path];
          if bankIndex >= |sf.order| {
            return true;
          }
          var bank := sf.order[bankIndex];
          if presetIndex >= |sf.banks[bank]| {
            return true;
          }
          SetProgram(channel, path, bank, sf.banks[bank][presetIndex], synth);
          panicked := false;
        case UnsetProgram(channel) =>
          programs := programs - {channel};
          panicked := false;
        case SetGain(g) =>
          gain := g;
          panicked := false;
        case _ =>
          panicked := false;
      }
    }

    method LoadSoundFont(channel: nat, path: string, synth: Synth) returns (panicked: bool)
      requires Valid() && OrdersKeys(synth)
      modifies this`soundfonts, this`programs, this`nextFontId
      ensures panicked <==> Load(old(Current()), channel, path, synth).None?
      ensures !panicked ==> Current() == Load(old(Current()), channel, path, synth).value
    {
      if path in soundfonts {
        panicked := SetProgramDefault(channel, path, synth);
        return;
      }
      var font := synth.load(path);
      if font.None? {
        return true;
      }
      panicked := AddSoundFont(channel, path, font.value, synth);
    }

    /** A font read for the first time: catalogued under the next id, its
        default program applied, then the other channels restored. */
    method AddSoundFont(channel: nat, path: string, font: set<(nat, nat)>, synth: Synth) returns (panicked: bool)
      requires Valid() && OrdersKeys(synth) && path !in soundfonts && synth.load(path) == Some(font)
      modifies this`soundfonts, this`programs, this`nextFontId
      ensures panicked <==> Load(old(Current()), channel, path, synth).None?
      ensures !panicked ==> Current() == Load(old(Current()), channel, path, synth).value
    {
      ghost var c0 := Current();
      LoadNewFont(c0, channel, path, font, synth);
      NewBanksWellFormed(font, nextFontId, synth);
      soundfonts := soundfonts[path := NewBanks(font, nextFontId, synth)];
      nextFontId := nextFontId + 1;
      ghost var c1 := Current();
      assert c1 == Catalogued(c0, path, font, synth);
      panicked := SetProgramDefault(channel, path, synth);
      if panicked {
        return;
      }
      assert Current() == DefaultProgram(c1, channel, path, synth).value;
      var ok := RestoreOthers(channel, synth);
      panicked := !ok;
    }

    /** Selects every other channel's program again; false at the first
        selection the synthesizer refuses. */
    method RestoreOthers(channel: nat, synth: Synth) returns (ok: bool)
      ensures ok == RestoresOthers(Current(), channel, synth)
    {
      var others := programs.Keys - {channel};
      while others != {}
        invariant others <= programs.Keys
        invariant forall ch :: ch in programs && ch != channel && ch !in others && programs[ch].path in soundfonts ==>
          synth.select(ch, soundfonts[programs[ch].path].id, programs[ch].bank, programs[ch].preset)
        invariant channel !in others
        decreases others
      {
        var ch :| ch in others;
        var program := programs[ch];
        if program.path in soundfonts && !synth.select(ch, soundfonts[program.path].id, program.bank, program.preset) {
          return false;
        }
        others := others - {ch};
      }
      return true;
    }

    method SetProgramDefault(channel: nat, path: string, synth: Synth) returns (panicked: bool)
      requires Valid() && path in soundfonts
      modifies this`programs
      ensures panicked <==> DefaultProgram(old(Current()), channel, path, synth).None?
      ensures !panicked ==> Current() == DefaultProgram(old(Current()), channel, path, synth).value
    {
      var sf := soundfonts[path];
      var sorted := SortBy(sf.order, NatLe);
      if sorted == [] {
        return true;
      }
      assert sorted[0] in multiset(sf.order);
      var bank := sorted[0];
      SetProgram(channel, path, bank, sf.banks[bank][0], synth);
      return false;
    }

    method SetProgram(channel: nat, path: string, bank: nat, preset: nat, synth: Synth)
      requires path in soundfonts
      requires bank in soundfonts[path].banks && bank in soundfonts[path].order
      requires preset in soundfonts[path].banks[bank]
      modifies this`programs
      ensures Current() == SelectProgram(old(Current()), channel, path, bank, preset, synth)
    {
      var sf := soundfonts[path];
      if synth.select(channel, sf.id, bank, preset) {
        var bankIndex := Position(sf.order, bank);
        var presetIndex := Position(sf.banks[bank], preset);
        programs := programs[channel := Program(path, |sf.banks|, bankIndex, bank,
          |sf.banks[bank]|, presetIndex, synth.presetName(sf.id, bank, preset), preset)];
      }
    }

    /** `set_music`: starts the music when nothing plays, otherwise stops it. */
    method SetMusic(state: State, notesOf: MidiTrack -> seq<Note>, toSamples: nat -> nat, synth: Synth)
      modifies this`queue, this`playState, this`sent
      ensures old(playState) == NotPlaying ==>
        && multiset(queue) == multiset(old(queue) + TracksEvents(PlayableTracks(state.music), notesOf, toSamples, false))
        && SortedBy(queue, TimeLe)
        && |queue| == |old(queue)| + 2 * TotalNotes(PlayableTracks(state.music), notesOf)
        && playState == Playing(toSamples(state.time.playback))
        && sent == old(sent)
      ensures old(playState) != NotPlaying ==>
        && sent == old(sent) + StopEvents(state.music.midiTracks, synth)
        && playState == Decaying
        && queue == old(queue)
    {
      if playState == NotPlaying {
        StartMusic(state, notesOf, toSamples);
      } else {
        StopMusic(state.music, synth);
      }
    }

    /** `start_music`: schedules a note-on and a note-off for every playback
      note of every playable track, sorts the queue and plays from the
      playback time. */
    method StartMusic(state: State, notesOf: MidiTrack -> seq<Note>, toSamples: nat -> nat)
      modifies this`queue, this`playState
      ensures multiset(queue) == multiset(old(queue) + TracksEvents(PlayableTracks(state.music), notesOf, toSamples, false))
      ensures SortedBy(queue, TimeLe)
      ensures |queue| == |old(queue)| + 2 * TotalNotes(PlayableTracks(state.music), notesOf)
      ensures playState == Playing(toSamples(state.time.playback))
    {
      var start := toSamples(state.time.playback);
      var tracks := PlayableTracks(state.music);
      var q := QueueTracks(queue, tracks, notesOf, toSamples);
      TracksEventsCount(tracks, notesOf, toSamples, false);
      queue := Sort(q);
      playState := Playing(start);
    }

    /** The loop of `start_music` over the playable tracks. */
    static method QueueTracks(queue: seq<TimedEvent>, tracks: seq<MidiTrack>, notesOf: MidiTrack -> seq<Note>, toSamples: nat -> nat)
      returns (queue': seq<TimedEvent>)
      ensures queue' == queue + TracksEvents(tracks, notesOf, toSamples, false)
    {
      queue' := queue;
      var i := 0;
      while i < |tracks|
        invariant 0 <= i <= |tracks|
        invariant queue' == queue + TracksEvents(tracks[..i], notesOf, toSamples, false)
      {
        assert tracks[..i + 1][..i] == tracks[..i];
        queue' := QueueNotes(queue', tracks[i].channel, notesOf(tracks[i]), toSamples);
        i := i + 1;
      }
      assert tracks[..i] == tracks;
    }

    /** `export`: renders and writes every exportable in turn, reporting
        progress, then reports that nothing is exporting. A format index out
        of range, or the MIDI format, panics. */
    method Export(exportables: seq<Exportable>, parent: string, stem: string, renderer: Renderer)
      returns (files: seq<WrittenFile>, panicked: bool)
      modifies this`exportState, this`exportLog
      ensures panicked <==> exporter.exportType.Get().None? || (exportables != [] && exporter.exportType.Get() == Some(Mid))
      ensures !panicked ==> exportState == NotExporting
      ensures !panicked ==> exportLog == old(exportLog) + AllTraces(exportables) + [NotExporting]
      ensures !panicked ==> files == Files(exportables, exporter.exportType.Get().value, parent, stem, renderer)
    {
      var exportType := exporter.exportType.Get();
      if exportType.None? {
        return [], true;
      }
      files, panicked := ExportAll(exportables, exportType.value, parent, stem, renderer);
      if !panicked {
        exportState := NotExporting;
        exportLog := exportLog + [NotExporting];
      }
    }

    /** The loop of `export` over the exportables, for a known format. */
    method ExportAll(exportables: seq<Exportable>, exportType: ExportType, parent: string, stem: string, renderer: Renderer)
      returns (files: seq<WrittenFile>, panicked: bool)
      modifies this`exportState, this`exportLog
      ensures panicked <==> exportables != [] && exportType == Mid
      ensures !panicked ==> exportLog == old(exportLog) + AllTraces(exportables)
      ensures !panicked ==> files == Files(exportables, exportType, parent, stem, renderer)
    {
      files := [];
      var i := 0;
      while i < |exportables|
        invariant 0 <= i <= |exportables|
        invariant files == Files(exportables[..i], exportType, parent, stem, renderer)
        invariant exportLog == old(exportLog) + AllTraces(exportables[..i])
        invariant i > 0 ==> exportType != Mid
      {
        LogStep(old(exportLog), exportables, i);
        ghost var log := exportLog;
        var stop;
        files, stop := ExportNext(exportables, i, files, exportType, parent, stem, renderer);
        if stop {
          return files, true;
        }
        assert exportLog == log + ExportTrace(exportables[i].totalSamples);
        i := i + 1;
      }
      assert exportables[..i] == exportables;
      panicked := false;
    }

    /** The next exportable of `export`, appended to the files so far. */
    method ExportNext(exportables: seq<Exportable>, i: nat, files: seq<WrittenFile>, exportType: ExportType, parent: string, stem: string, renderer: Renderer)
      returns (files': seq<WrittenFile>, stop: bool)
      requires i < |exportables|
      requires files == Files(exportables[..i], exportType, parent, stem, renderer)
      modifies this`exportState, this`exportLog
      ensures stop <==> exportType == Mid
      ensures !stop ==> files' == Files(exportables[..i + 1], exportType, parent, stem, renderer)
      ensures !stop ==> exportLog == old(exportLog) + ExportTrace(exportables[i].totalSamples)
    {
      FilesStep(exportables, i, exportType, parent, stem, renderer);
      var file := ExportOne(exportables[i], exportType, parent, stem, renderer);
      if file.None? {
        return files, true;
      }
      return files + [file.value], false;
    }

    /** One exportable of `export`: its samples, the decaying tail, and the
        file; the MIDI format panics (`None`) before the file is written. */
    method ExportOne(e: Exportable, exportType: ExportType, parent: string, stem: string, renderer: Renderer)
      returns (file: Option<WrittenFile>)
      modifies this`exportState, this`exportLog
      ensures file.None? <==> exportType == Mid
      ensures file.Some? ==> file.value == FileOf(e, exportType, parent, stem, renderer)
      ensures file.Some? ==> exportLog == old(exportLog) + ExportTrace(e.totalSamples) && exportState == Done
    {
      var left, right, sent, queue := RenderWav(e, renderer);
      exportState := AppendingDecay;
      exportLog := exportLog + [AppendingDecay];
      assert sent + queue == e.events;
      var tail := renderer.decay(EventsOf(sent + queue));
      var lefts := left[..] + Lefts(tail);
      var rights := right[..] + Rights(tail);
      FileOfFrames(e, exportType, parent, stem, renderer, left[..], right[..]);
      exportState := WritingToDisk;
      exportLog := exportLog + [WritingToDisk];
      var path := OutputPath(parent, stem, e.suffix, ExtensionOf(exportType));
      if exportType == Mid {
        return None;
      }
      exportState := Done;
      exportLog := exportLog + [Done];
      return Some(WrittenFile(path, exportType, lefts, rights));
    }

    /** The sample loop of `export`: at each sample, sends the events due and
        reads one sample pair into two fixed-size buffers. */
    method RenderWav(e: Exportable, renderer: Renderer) returns (left: array<int>, right: array<int>, sent: seq<TimedEvent>, queue: seq<TimedEvent>)
      modifies this`exportState, this`exportLog
      ensures fresh(left) && fresh(right)
      ensures left.Length == e.totalSamples && right.Length == e.totalSamples
      ensures forall t :: 0 <= t < e.totalSamples ==> left[t] == Frame(e, renderer, t).0
      ensures forall t :: 0 <= t < e.totalSamples ==> right[t] == Frame(e, renderer, t).1
      ensures sent == SentBy(e.events, e.totalSamples) && queue == LeftBy(e.events, e.totalSamples)
      ensures exportLog == old(exportLog) + WavTrace(e.totalSamples, e.totalSamples)
    {
      var total := e.totalSamples;
      left := new int[total];
      right := new int[total];
      exportState := WritingWav(total, 0);
      exportLog := exportLog + [WritingWav(total, 0)];
      queue := e.events;
      sent := [];
      var t := 0;
      while t < total
        invariant 0 <= t <= total
        invariant sent == SentBy(e.events, t) && queue == LeftBy(e.events, t)
        invariant forall k :: 0 <= k < t ==> (left[k], right[k]) == Frame(e, renderer, k)
        invariant exportLog == old(exportLog) + WavTrace(total, t)
      {
        assert WavTrace(total, t + 1) == WavTrace(total, t) + [WritingWav(total, t)];
        sent, queue := SendDue(e.events, t, sent, queue);
        exportState := WritingWav(total, t);
        exportLog := exportLog + [WritingWav(total, t)];
        WriteFrame(e, renderer, t, sent, left, right);
        t := t + 1;
      }
    }

    /** One sample of `export`: the synthesizer renders the events sent so far
        into the left and right buffers at `t`. */
    static method WriteFrame(e: Exportable, renderer: Renderer, t: nat, sent: seq<TimedEvent>, left: array<int>, right: array<int>)
      requires sent == SentBy(e.events, t + 1)
      requires t < left.Length && t < right.Length && left != right
      modifies left, right
      ensures (left[t], right[t]) == Frame(e, renderer, t)
      ensures forall k :: 0 <= k < left.Length && k != t ==> left[k] == old(left[k])
      ensures forall k :: 0 <= k < right.Length && k != t ==> right[k] == old(right[k])
    {
      var frame := renderer.read(EventsOf(sent), t);
      left[t] := frame.0;
      right[t] := frame.1;
    }

    /** One sample's dequeue: the events due at `t` move from the queue to
        the events sent so far. */
    static method SendDue(q: seq<TimedEvent>, t: nat, sent: seq<TimedEvent>, queue: seq<TimedEvent>)
      returns (sent': seq<TimedEvent>, queue': seq<TimedEvent>)
      requires sent == SentBy(q, t) && queue == LeftBy(q, t)
      ensures sent' == SentBy(q, t + 1) && queue' == LeftBy(q, t + 1)
    {
      SentStep(q, t);
      var next := Dequeue(queue, t);
      sent', queue' := sent + next.0, next.1;
    }

    /** A note-on and a note-off for each note, at full gain. */
    static method QueueNotes(queue: seq<TimedEvent>, channel: nat, notes: seq<Note>, toSamples: nat -> nat)
      returns (queue': seq<TimedEvent>)
      ensures queue' == queue + NoteEvents(channel, notes, toSamples, MAX_VOLUME)
    {
      queue' := queue;
      var k := 0;
      while k < |notes|
        invariant 0 <= k <= |notes|
        invariant queue' == queue + NoteEvents(channel, notes[..k], toSamples, MAX_VOLUME)
      {
        assert notes[..k + 1][..k] == notes[..k];
        queue' := Enqueue(queue', toSamples(notes[k].start), MidiEvent.NoteOn(channel, notes[k].note, GainScaled(notes[k].velocity, MAX_VOLUME)));
        queue' := Enqueue(queue', toSamples(notes[k].end), NoteOff(channel, notes[k].note));
        k := k + 1;
      }
      assert notes[..k] == notes;
    }

    /** `stop_music`: for each track, all-notes-off, and all-sound-off when the
      first was accepted; then the sound decays. */
    method StopMusic(music: Music, synth: Synth)
      modifies this`sent, this`playState
      ensures sent == old(sent) + StopEvents(music.midiTracks, synth)
      ensures playState == Decaying
    {
      var i := 0;
      while i < |music.midiTracks|
        invariant 0 <= i <= |music.midiTracks|
        invariant sent == old(sent) + StopEvents(music.midiTracks[..i], synth)
      {
        assert music.midiTracks[..i + 1][..i] == music.midiTracks[..i];
        var ch := music.midiTracks[i].channel;
        sent := sent + [AllNotesOff(ch)];
        if synth.accepts(AllNotesOff(ch)) {
          sent := sent + [AllSoundOff(ch)];
        }
        i := i + 1;
      }
      assert music.midiTracks[..i] == music.midiTracks;
      playState := Decaying;
    }

    /** `enqueue_track_events`: two events per note, and the running end time
      grows to the latest note-off. */
    method EnqueueTrackEvents(track: MidiTrack, toSamples: nat -> nat, events: seq<TimedEvent>, t1: nat)
      returns (events': seq<TimedEvent>, t1': nat)
      ensures events' == events + NoteEvents(track.channel, track.notes, toSamples, track.gain)
      ensures |events'| == |events| + 2 * |track.notes|
      ensures t1' == LastEnd(t1, track.notes, toSamples)
    {
      events', t1' := events, t1;
      var k := 0;
      while k < |track.notes|
        invariant 0 <= k <= |track.notes|
        invariant events' == events + NoteEvents(track.channel, track.notes[..k], toSamples, track.gain)
        invariant t1' == LastEnd(t1, track.notes[..k], toSamples)
      {
        assert track.notes[..k + 1][..k] == track.notes[..k];
        var n := track.notes[k];
        events' := Enqueue(events', toSamples(n.start), MidiEvent.NoteOn(track.channel, n.note, GainScaled(n.velocity, track.gain)));
        var end := toSamples(n.end);
        if t1' < end {
          t1' := end;
        }
        events' := Enqueue(events', end, NoteOff(track.channel, n.note));
        k := k + 1;
      }
      assert track.notes[..k] == track.notes;
    }

    /** `start_export`: one exportable per playable track, each with its
      track's events at the track's gain and its file suffix, in multi-file
      mode; otherwise one exportable of every playable track's events with no
      suffix. Each holds its events sorted and lasts until its latest
      note-off. `None` where a suffix lookup panics. */
    method StartExport(state: State, toSamples: nat -> nat) returns (r: Option<seq<Exportable>>)
      ensures exporter.multiFile ==>
        (r.None? <==> SuffixPanics(PlayableTracks(state.music), exporter.multiFileSuffix.Get(), programs))
      ensures !exporter.multiFile ==> r.Some?
      ensures r.Some? && exporter.multiFile ==> |r.value| == |PlayableTracks(state.music)|
      ensures r.Some? && exporter.multiFile ==> forall i :: 0 <= i < |r.value| ==>
        r.value[i] == TrackExportable(PlayableTracks(state.music)[i], toSamples,
          ExportFileSuffix(exporter.multiFileSuffix.Get().value, PlayableTracks(state.music)[i], programs))
      ensures r.Some? && exporter.multiFile ==> forall i :: 0 <= i < |r.value| ==> ExportsTrack(r.value[i], PlayableTracks(state.music)[i], toSamples)
      ensures r.Some? && !exporter.multiFile ==>
        r.value == [Exportable(Sort(TracksEvents(PlayableTracks(state.music), TrackNotes, toSamples, true)),
          LastEndOfTracks(0, PlayableTracks(state.music), toSamples), None)]
      ensures r.Some? && !exporter.multiFile ==> SortedBy(r.value[0].events, TimeLe)
      ensures r.Some? && !exporter.multiFile ==>
        |r.value[0].events| == 2 * TotalNotes(PlayableTracks(state.music), TrackNotes)
    {
      var tracks := PlayableTracks(state.music);
      if exporter.multiFile {
        r := MultiFileExportables(tracks, toSamples, exporter.multiFileSuffix.Get(), programs);
        if r.Some? && |tracks| > 0 {
          TrackExportablesExportTracks(r.value, tracks, toSamples, exporter.multiFileSuffix.Get().value, programs);
        }
      } else {
        var e := SingleFileExportable(tracks, toSamples);
        r := Some([e]);
      }
    }

    /** The single-file branch of `start_export`: every track's events at its
      gain, sorted, lasting until the latest note-off, with no suffix. */
    method SingleFileExportable(tracks: seq<MidiTrack>, toSamples: nat -> nat) returns (e: Exportable)
      ensures e == Exportable(Sort(TracksEvents(tracks, TrackNotes, toSamples, true)), LastEndOfTracks(0, tracks, toSamples), None)
      ensures SortedBy(e.events, TimeLe)
      ensures |e.events| == 2 * TotalNotes(tracks, TrackNotes)
    {
      var events: seq<TimedEvent> := [];
      var t1 := 0;
      var i := 0;
      while i < |tracks|
        invariant 0 <= i <= |tracks|
        invariant events == TracksEvents(tracks[..i], TrackNotes, toSamples, true)
        invariant t1 == LastEndOfTracks(0, tracks[..i], toSamples)
      {
        assert tracks[..i + 1][..i] == tracks[..i];
        events, t1 := EnqueueTrackEvents(tracks[i], toSamples, events, t1);
        i := i + 1;
      }
      assert tracks[..i] == tracks;
      TracksEventsCount(tracks, TrackNotes, toSamples, true);
      e := Exportable(Sort(events), t1, None);
    }

    /** The multi-file loop of `start_export`: one suffixed exportable per
      track, or `None` where a suffix lookup panics. */
    method MultiFileExportables(tracks: seq<MidiTrack>, toSamples: nat -> nat, kind: Option<MultiFileSuffix>, channelPrograms: map<nat, Program>) returns (r: Option<seq<Exportable>>)
      ensures r.None? <==> SuffixPanics(tracks, kind, channelPrograms)
      ensures r.Some? ==> |r.value| == |tracks|
      ensures r.Some? ==> forall i :: 0 <= i < |r.value| ==>
        r.value[i] == TrackExportable(tracks[i], toSamples, ExportFileSuffix(kind.value, tracks[i], channelPrograms))
    {
      if tracks == [] {
        return Some([]);
      }
      if kind.None? {
        return None;
      }
      ghost var f := t => TrackExportable(t, toSamples, ExportFileSuffix(kind.value, t, channelPrograms));
      var exportables: seq<Exportable> := [];
      var i := 0;
      while i < |tracks|
        invariant 0 <= i <= |tracks|
        invariant forall j :: 0 <= j < i ==> ExportFileSuffix(kind.value, tracks[j], channelPrograms).Some?
        invariant exportables == MapTracks(tracks[..i], f)
      {
        var e := ExportTrack(tracks[i], toSamples, kind, channelPrograms);
        if e.None? {
          return None;
        }
        MapTracksStep(tracks, i, f);
        exportables := exportables + [e.value];
        i := i + 1;
      }
      assert tracks[..i] == tracks;
      return Some(exportables);
    }

    /** One pass of the multi-file loop: the track's events, sorted, with its
      file suffix; `None` where the suffix lookup panics. */
    method ExportTrack(track: MidiTrack, toSamples: nat -> nat, kind: Option<MultiFileSuffix>, channelPrograms: map<nat, Program>) returns (r: Option<Exportable>)
      ensures r.None? <==> (kind.None? || ExportFileSuffix(kind.value, track, channelPrograms).None?)
      ensures r.Some? ==>
        r.value == TrackExportable(track, toSamples, ExportFileSuffix(kind.value, track, channelPrograms))
    {
      var events, t1 := EnqueueTrackEvents(track, toSamples, [], 0);
      if kind.None? {
        return None;
      }
      var suffix := ExportFileSuffix(kind.value, track, channelPrograms);
      if suffix.None? {
        return None;
      }
      assert events == NoteEvents(track.channel, track.notes, toSamples, track.gain);
      return Some(Exportable(Sort(events), t1, suffix));
    }
  }

  /** The notes a track exports: all of them, not only those after the
      playback position. */
  function TrackNotes(track: MidiTrack): seq<Note>
  {
    track.notes
  }

  /** `f` applied to each track, in order. */
  function MapTracks(tracks: seq<MidiTrack>, f: MidiTrack -> Exportable): (r: seq<Exportable>)
    ensures |r| == |tracks| && forall i :: 0 <= i < |tracks| ==> r[i] == f(tracks[i])
  {
    seq(|tracks|, i requires 0 <= i < |tracks| => f(tracks[i]))
  }

  lemma MapTracksStep(tracks: seq<MidiTrack>, i: nat, f: MidiTrack -> Exportable)
    requires i < |tracks|
    ensures MapTracks(tracks[..i + 1], f) == MapTracks(tracks[..i], f) + [f(tracks[i])]
  {
  }

  /** The exportable of one track in multi-file mode: the track's own events
      at its gain, sorted, lasting until its latest note-off. */
  function TrackExportable(track: MidiTrack, toSamples: nat -> nat, suffix: Option<string>): Exportable
  {
    Exportable(Sort(NoteEvents(track.channel, track.notes, toSamples, track.gain)), LastEnd(0, track.notes, toSamples), suffix)
  }

  /** A suffixed track exportable holds two sorted events per note of the
      track and lasts until the track's latest note-off. */
  lemma TrackExportableExportsTrack(track: MidiTrack, toSamples: nat -> nat, suffix: Option<string>)
    requires suffix.Some?
    ensures ExportsTrack(TrackExportable(track, toSamples, suffix), track, toSamples)
    ensures multiset(TrackExportable(track, toSamples, suffix).events)
      == multiset(NoteEvents(track.channel, track.notes, toSamples, track.gain))
  {
    var e := TrackExportable(track, toSamples, suffix);
    assert |multiset(e.events)| == |e.events|;
  }

  lemma TrackExportablesExportTracks(es: seq<Exportable>, tracks: seq<MidiTrack>, toSamples: nat -> nat, kind: MultiFileSuffix, programs: map<nat, Program>)
    requires |es| == |tracks|
    requires forall i :: 0 <= i < |es| ==> ExportFileSuffix(kind, tracks[i], programs).Some?
    requires forall i :: 0 <= i < |es| ==> es[i] == TrackExportable(tracks[i], toSamples, ExportFileSuffix(kind, tracks[i], programs))
    ensures forall i :: 0 <= i < |es| ==> ExportsTrack(es[i], tracks[i], toSamples)
  {
    forall i | 0 <= i < |es|
      ensures ExportsTrack(es[i], tracks[i], toSamples)
    {
      TrackExportableExportsTrack(tracks[i], toSamples, ExportFileSuffix(kind, tracks[i], programs));
    }
  }

  /** Multi-file `start_export` panics when there is a track and the suffix
      kind is out of range, or some track's suffix needs a program it lacks. */
  predicate SuffixPanics(tracks: seq<MidiTrack>, kind: Option<MultiFileSuffix>, programs: map<nat, Program>)
  {
    |tracks| > 0 && (kind.None? || exists i :: 0 <= i < |tracks| && ExportFileSuffix(kind.value, tracks[i], programs).None?)
  }

  /** An exportable of one track in multi-file mode: suffixed, two sorted
      events per note, lasting until the track's latest note-off. */
  predicate ExportsTrack(e: Exportable, track: MidiTrack, toSamples: nat -> nat)
  {
    && e.suffix.Some?
    && |e.events| == 2 * |track.notes|
    && SortedBy(e.events, TimeLe)
    && e.totalSamples == LastEnd(0, track.notes, toSamples)
  }

  function StopEvents(tracks: seq<MidiTrack>, synth: Synth): seq<MidiEvent>
  {
    if tracks == [] then []
    else
      var ch := tracks[|tracks| - 1].channel;
      StopEvents(tracks[..|tracks| - 1], synth)
        + [AllNotesOff(ch)] + (if synth.accepts(AllNotesOff(ch)) then [AllSoundOff(ch)] else [])
  }

  /** Stopping silences every track's channel, and sends nothing but
      all-notes-off and the all-sound-off that follows an accepted one. */
  lemma {:induction false} StopEventsSilenceEveryTrack(tracks: seq<MidiTrack>, synth: Synth)
    ensures forall i :: 0 <= i < |tracks| ==> AllNotesOff(tracks[i].channel) in StopEvents(tracks, synth)
    ensures forall e :: e in StopEvents(tracks, synth) ==>
      e.AllNotesOff? || (e.AllSoundOff? && synth.accepts(AllNotesOff(e.channel)))
  {
    if tracks != [] {
      var init := tracks[..|tracks| - 1];
      StopEventsSilenceEveryTrack(init, synth);
      forall i | 0 <= i < |tracks|
        ensures AllNotesOff(tracks[i].channel) in StopEvents(tracks, synth)
      {
        if i < |tracks| - 1 {
          assert tracks[i] == init[i];
        }
      }
    }
  }

  lemma {:induction false} StepsNone(c: ConnState, cmds: seq<Command>, rest: seq<Command>, synth: Synth)
    requires Loaded(c) && OrdersKeys(synth)
    requires Steps(c, cmds, synth).None?
    ensures Steps(c, cmds + rest, synth).None?
    decreases |cmds|
  {
    if cmds != [] {
      StepKeepsLoaded(c, cmds[0], synth);
      assert (cmds + rest)[1..] == cmds[1..] + rest;
      if Step(c, cmds[0], synth).Some? {
        StepsNone(Step(c, cmds[0], synth).value, cmds[1..], rest, synth);
      }
    }
  }

  /** A panic within the first `n` commands is a panic of them all. */
  lemma StepsNonePrefix(c: ConnState, cmds: seq<Command>, n: nat, synth: Synth)
    requires Loaded(c) && OrdersKeys(synth) && n <= |cmds|
    requires Steps(c, cmds[..n], synth).None?
    ensures Steps(c, cmds, synth).None?
  {
    SplitJoin(cmds, n);
    StepsNone(c, cmds[..n], cmds[n..], synth);
  }

  lemma SplitJoin(cmds: seq<Command>, n: nat)
    requires n <= |cmds|
    ensures cmds[..n] + cmds[n..] == cmds
  {
  }
}
