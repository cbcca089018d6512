// Value types shared by the audio, io, text and input crates, and the
// decimal formatting and parsing that `to_string` and `from_str` perform.

module Common {

  datatype Option<T> = None | Some(value: T)

  /** Pulses per quarter note. The fraction table of the text crate (96 = one half,
      288 = one and a half, 6 = one thirty-second) fixes it at 192. */
  const PPQ_U: nat := 192

  /** The largest MIDI volume; track gains are fractions of it. */
  const MAX_VOLUME: nat := 127

  /** A note of a track; times are in pulses. */
  datatype Note = Note(note: nat, velocity: nat, start: nat, end: nat)

  datatype MidiTrack = MidiTrack(channel: nat, gain: nat, mute: bool, solo: bool, notes: seq<Note>)

  datatype Music = Music(midiTracks: seq<MidiTrack>, selected: Option<nat>)

  /** A bounded cursor: a position and the number of positions. */
  datatype Index = Index(index: nat, length: nat)

  /** The first position of `x` in `xs` (`Iterator::position`). */
  function PositionOf(xs: seq<nat>, x: nat): (r: Option<nat>)
    ensures r.Some? ==> r.value < |xs| && xs[r.value] == x
    ensures r.Some? ==> forall j :: 0 <= j < r.value ==> xs[j] != x
    ensures r.None? <==> x !in xs
  {
    if xs == [] then None
    else if xs[0] == x then Some(0)
    else
      match PositionOf(xs[1..], x)
      case None => None
      case Some(i) => Some(i + 1)
  }

  datatype SelectMode = Single(note: Option<nat>) | Many(notes: Option<seq<nat>>)

  datatype PanelType = ExportSettings | ExportState | MainMenu | MusicPanel | OpenFile | PianoRoll | Tracks

  datatype PianoRollMode = Edit | Select | Time | View

  datatype InputState = InputState(
    armed: bool,
    useVolume: bool,
    alphanumericInput: bool,
    canUndo: bool,
    beat: nat,
    volume: nat)

  datatype TimeState = TimeState(cursor: nat, playback: nat, bpm: nat)

  /** The part of the application state that the modelled operations read or write. */
  datatype State = State(
    music: Music,
    time: TimeState,
    input: InputState,
    panels: seq<PanelType>,
    focus: Index,
    selectMode: SelectMode,
    singleTrack: bool,
    pianoRollMode: PianoRollMode,
    unsavedChanges: bool)

  /** The selected track, when the selection points at one. */
  function SelectedTrack(music: Music): (r: Option<MidiTrack>)
    ensures r.Some? <==> music.selected.Some? && music.selected.value < |music.midiTracks|
  {
    if music.selected.Some? && music.selected.value < |music.midiTracks|
    then Some(music.midiTracks[music.selected.value])
    else None
  }

  /** The note indices a selection mode holds, if any. */
  function NoteIndices(mode: SelectMode): (r: Option<seq<nat>>)
    ensures mode.Single? ==> (r.Some? <==> mode.note.Some?)
    ensures mode.Single? && r.Some? ==> |r.value| == 1 && r.value[0] == mode.note.value
    ensures mode.Many? ==> r == mode.notes
  {
    match mode
    case Single(Some(i)) => Some([i])
    case Single(None) => None
    case Many(m) => m
  }

  /** The same kind of selection with nothing selected. */
  function Deselected(mode: SelectMode): (r: SelectMode)
    ensures r.Single? == mode.Single? && NoteIndices(r).None?
  {
    match mode
    case Single(_) => Single(None)
    case Many(_) => Many(None)
  }

  /** `Index::increment` is not part of this model; it is a parameter, and
      callers rely only on its keeping the index below the length. */
  ghost predicate IncrementKeepsInRange(increment: (Index, bool) -> Index)
  {
    forall i: Index, up: bool {:trigger increment(i, up)} :: i.index < i.length ==>
      increment(i, up).length == i.length && increment(i, up).index < i.length
  }

  /** The tracks of `tracks` that are not muted, in their order. */
  function Unmuted(tracks: seq<MidiTrack>): (r: seq<MidiTrack>)
    ensures |r| <= |tracks|
    ensures forall i :: 0 <= i < |r| ==> !r[i].mute
  {
    if tracks == [] then []
    else
      var rest := Unmuted(tracks[1..]);
      if tracks[0].mute then rest else [tracks[0]] + rest
  }

  lemma {:induction false} UnmutedExactly(tracks: seq<MidiTrack>, t: MidiTrack)
    ensures t in Unmuted(tracks) <==> t in tracks && !t.mute
  {
    if tracks != [] {
      UnmutedExactly(tracks[1..], t);
      assert tracks == [tracks[0]] + tracks[1..];
    }
  }

  /** The index of the first soloed track, if any. */
  function FirstSolo(tracks: seq<MidiTrack>): (r: Option<nat>)
    ensures r.Some? ==> r.value < |tracks| && tracks[r.value].solo
    ensures r.Some? ==> forall i :: 0 <= i < r.value ==> !tracks[i].solo
    ensures r.None? ==> forall i :: 0 <= i < |tracks| ==> !tracks[i].solo
  {
    if tracks == [] then None
    else if tracks[0].solo then Some(0)
    else
      match FirstSolo(tracks[1..])
      case None => None
      case Some(i) => Some(i + 1)
  }

  /** `get_playable_tracks`: only the first soloed track when a track is
      soloed, otherwise every track that is not muted, in order. */
  function PlayableTracks(music: Music): (r: seq<MidiTrack>)
  {
    match FirstSolo(music.midiTracks)
    case Some(i) => [music.midiTracks[i]]
    case None => Unmuted(music.midiTracks)
  }

  lemma PlayableTracksRule(music: Music)
    ensures var tracks := music.midiTracks;
      var r := PlayableTracks(music);
      && ((exists i :: 0 <= i < |tracks| && tracks[i].solo) ==>
           exists i :: 0 <= i < |tracks| && tracks[i].solo && r == [tracks[i]]
             && forall j :: 0 <= j < i ==> !tracks[j].solo)
      && ((forall i :: 0 <= i < |tracks| ==> !tracks[i].solo) ==>
           r == Unmuted(tracks) && forall t :: t in r <==> t in tracks && !t.mute)
  {
    forall t ensures t in Unmuted(music.midiTracks) <==> t in music.midiTracks && !t.mute {
      UnmutedExactly(music.midiTracks, t);
    }
  }

  /** Integer stand-in for scaling a velocity by `gain / MAX_VOLUME` and
      truncating back to a byte. */
  function GainScaled(velocity: nat, gain: nat): (v: nat)
    ensures gain <= MAX_VOLUME ==> v <= velocity
    ensures gain == MAX_VOLUME ==> v == velocity
  {
    velocity * gain / MAX_VOLUME
  }

  // Decimal text.

  predicate IsDigit(c: char)
  {
    '0' <= c <= '9'
  }

  predicate AllDigits(s: string)
  {
    forall i :: 0 <= i < |s| ==> IsDigit(s[i])
  }

  function DigitChar(d: nat): (c: char)
    requires d < 10
    ensures IsDigit(c)
  {
    ('0' as int + d) as char
  }

  function DigitValue(c: char): (d: nat)
    requires IsDigit(c)
    ensures d < 10
  {
    c as int - '0' as int
  }

  /** `n.to_string()`: the shortest decimal numeral of `n`. */
  function NatToString(n: nat): (s: string)
    ensures |s| > 0 && AllDigits(s)
    ensures |s| > 1 ==> s[0] != '0'
  {
    if n < 10 then [DigitChar(n)] else NatToString(n / 10) + [DigitChar(n % 10)]
  }

  /** The number a string of decimal digits denotes. */
  function DigitsValue(s: string): nat
    requires AllDigits(s)
  {
    if s == [] then 0 else DigitsValue(s[..|s| - 1]) * 10 + DigitValue(s[|s| - 1])
  }

  /** Reading the numeral of `n` gives back `n`. */
  lemma {:induction false} NatToStringRoundTrip(n: nat)
    ensures DigitsValue(NatToString(n)) == n
  {
    if n >= 10 {
      var s := NatToString(n);
      assert s[..|s| - 1] == NatToString(n / 10);
      NatToStringRoundTrip(n / 10);
    }
  }

  /** Distinct numbers have distinct numerals. */
  lemma NatToStringInjective(m: nat, n: nat)
    requires NatToString(m) == NatToString(n)
    ensures m == n
  {
    NatToStringRoundTrip(m);
    NatToStringRoundTrip(n);
  }

  const U32_MAX: nat := 0xFFFF_FFFF

  /** `u32::from_str`: an optional '+', then at least one digit, and a value that fits in 32 bits. */
  function ParseU32(s: string): (r: Option<nat>)
    ensures r.Some? ==> r.value <= U32_MAX
  {
    var digits := if |s| > 0 && s[0] == '+' then s[1..] else s;
    if |digits| == 0 || !AllDigits(digits) then None
    else if DigitsValue(digits) > U32_MAX then None
    else Some(DigitsValue(digits))
  }

  /** Every 32-bit value survives printing and parsing. */
  lemma ParseU32RoundTrip(n: nat)
    requires n <= U32_MAX
    ensures ParseU32(NatToString(n)) == Some(n)
  {
    NatToStringRoundTrip(n);
    assert NatToString(n)[0] != '+';
  }
}
