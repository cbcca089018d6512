// The exporter's settings defaults, its MIDI file writer (the header meta
// events, the tempo bytes and the pulse-by-pulse note events), the Ogg
// comment tags, and the left/right interleaving of the WAV and Ogg writers.

module MidiExport {
  import opened Common
  import opened Sorting
  import opened Commands

  const MP3_BIT_RATE_COUNT: nat := 16
  const MP3_QUALITY_COUNT: nat := 10

  /** `Exporter::new`: wav, the ninth mp3 bit rate (96 kbps), the best mp3
      quality and Ogg quality 5 of 10; everything else at its default. */
  function New(defaultFramerate: nat): (e: Exporter)
    ensures e.framerate == defaultFramerate
    ensures e.exportType.index == Index(0, |EXPORT_TYPES|) && e.exportType.Get() == Some(Wav)
    ensures e.mp3BitRate == Index(8, MP3_BIT_RATE_COUNT) && e.mp3BitRate.index < e.mp3BitRate.length
    ensures e.mp3Quality == Index(0, MP3_QUALITY_COUNT) && e.oggQuality == Index(5, 10)
    ensures !e.copyright && !e.multiFile && e.metadata.artist.None?
  {
    var noSettings := IndexedValues([], Index(0, 0));
    Exporter(
      defaultFramerate,
      Metadata("", None, None, None, None, None),
      false,
      Index(8, MP3_BIT_RATE_COUNT),
      Index(0, MP3_QUALITY_COUNT),
      Index(0, 0),
      false,
      IndexedValues(MULTI_FILE_SUFFIXES, Index(0, 0)),
      Index(5, 10),
      IndexedValues(EXPORT_TYPES, Index(0, |EXPORT_TYPES|)),
      noSettings, noSettings, noSettings, noSettings)
  }

  // The tempo meta event.

  /** Microseconds per quarter note. */
  function Tempo(bpm: nat): (r: nat)
    requires bpm > 0
    ensures r * bpm <= 60000000 < (r + 1) * bpm
  {
    60000000 / bpm
  }

  /** The three data bytes of a Set Tempo event: the value big-endian, each
      shift truncated to a byte. */
  function TempoBytes(tempo: nat): (b: seq<nat>)
    ensures |b| == 3 && forall i :: 0 <= i < 3 ==> b[i] < 256
  {
    [(tempo / 65536) % 256, (tempo / 256) % 256, tempo % 256]
  }

  /** The value a reader takes from three big-endian bytes. */
  function FromBytes(b: seq<nat>): nat
    requires |b| == 3
  {
    b[0] * 65536 + b[1] * 256 + b[2]
  }

  lemma BytesRoundTrip(v: nat)
    requires v < 16777216
    ensures FromBytes(TempoBytes(v)) == v
  {
    var hi := v / 65536;
    var lo := v % 65536;
    assert v == hi * 65536 + lo;
    assert hi < 256;
    assert (v / 256) % 256 == lo / 256 by {
      assert v / 256 == hi * 256 + lo / 256;
    }
    assert v % 256 == lo % 256 by {
      assert v == (hi * 256) * 256 + lo;
    }
  }

  /** The tempo survives the three bytes exactly when the tempo is at least
      four beats per minute; slower tempos do not fit in 24 bits. */
  lemma TempoBytesExact(bpm: nat)
    requires bpm > 0
    ensures FromBytes(TempoBytes(Tempo(bpm))) == Tempo(bpm) <==> bpm >= 4
  {
    if bpm >= 4 {
      assert Tempo(bpm) <= 15000000;
      BytesRoundTrip(Tempo(bpm));
    } else {
      assert Tempo(bpm) >= 20000000;
      var t := Tempo(bpm);
      assert FromBytes(TempoBytes(t)) < 16777216 by {
        var b := TempoBytes(t);
        assert b[0] <= 255 && b[1] <= 255 && b[2] <= 255;
      }
    }
  }

  // Messages.

  datatype MetaKind = TextEvent | CopyrightNotice | InstrumentName | SetTempo | EndOfTrack

  datatype Event =
    | MetaText(kind: MetaKind, text: string)
    | MetaBytes(kind: MetaKind, bytes: seq<nat>)
    | On(ch: nat, key: nat, velocity: nat)
    | Off(ch: nat, key: nat, velocity: nat)

  /** A track message: the delta time since the previous message, and the event. */
  datatype Message = Message(delta: nat, event: Event)

  /** A note and the channel of its track. */
  datatype MidiNote = MidiNote(note: Note, channel: nat)

  /** The notes of every track, track by track. */
  function GatherNotes(tracks: seq<MidiTrack>): (r: seq<MidiNote>)
    ensures r == [] <==> forall i :: 0 <= i < |tracks| ==> tracks[i].notes == []
  {
    if tracks == [] then []
    else
      var last := tracks[|tracks| - 1];
      var init := GatherNotes(tracks[..|tracks| - 1]);
      assert forall i :: 0 <= i < |tracks| - 1 ==> tracks[..|tracks| - 1][i] == tracks[i];
      init + seq(|last.notes|, i requires 0 <= i < |last.notes| => MidiNote(last.notes[i], last.channel))
  }

  /** The year as four little-endian bytes. */
  function LeBytes(year: nat): seq<nat>
  {
    [year % 256, (year / 256) % 256, (year / 65536) % 256, (year / 16777216) % 256]
  }

  function InstrumentNames(presetNames: seq<string>): (r: seq<Message>)
    ensures |r| == |presetNames|
    ensures forall i :: 0 <= i < |r| ==> r[i] == Message(0, MetaText(InstrumentName, presetNames[i]))
  {
    seq(|presetNames|, i requires 0 <= i < |presetNames| => Message(0, MetaText(InstrumentName, presetNames[i])))
  }

  /** The meta events before the notes: the title, the copyright year when
      `copyright` is set, one instrument name per program, and the tempo. */
  function Header(title: string, copyright: bool, year: nat, presetNames: seq<string>, bpm: nat): (r: seq<Message>)
    requires bpm > 0
    ensures |r| == 2 + |presetNames| + (if copyright then 1 else 0)
    ensures r[0] == Message(0, MetaText(TextEvent, title))
    ensures r[|r| - 1] == Message(0, MetaBytes(SetTempo, TempoBytes(Tempo(bpm))))
    ensures copyright <==> r[1].event.MetaBytes? && r[1].event.kind == CopyrightNotice
    ensures forall i :: 0 <= i < |r| ==> r[i].delta == 0
  {
    [Message(0, MetaText(TextEvent, title))]
      + (if copyright then [Message(0, MetaBytes(CopyrightNotice, LeBytes(year)))] else [])
      + InstrumentNames(presetNames)
      + [Message(0, MetaBytes(SetTempo, TempoBytes(Tempo(bpm))))]
  }

  function StartLe(a: MidiNote, b: MidiNote): bool
  {
    a.note.start <= b.note.start
  }

  lemma StartLeIsTotalPreorder()
    ensures TotalPreorder(StartLe)
  {
  }

  /** The last note-off time. */
  function MaxEnd(notes: seq<MidiNote>): (t: nat)
    requires notes != []
    ensures forall i :: 0 <= i < |notes| ==> notes[i].note.end <= t
    ensures exists i :: 0 <= i < |notes| && notes[i].note.end == t
  {
    if |notes| == 1 then notes[0].note.end
    else
      var m := MaxEnd(notes[1..]);
      assert forall i :: 1 <= i < |notes| ==> notes[1..][i - 1] == notes[i];
      if notes[0].note.end >= m then notes[0].note.end else m
  }

  // The event loop. `Acc` is the messages so far and the pulses since the
  // last event.

  datatype Acc = Acc(msgs: seq<Message>, dt: nat)

  /** `get_delta_time` and the push: the delta is the accumulated pulses in
      quarter notes (an integer stand-in for the float division), and the
      accumulator restarts at zero. */
  function Emit(a: Acc, e: Event): (r: Acc)
    ensures r.msgs == a.msgs + [Message(a.dt / PPQ_U, e)] && r.dt == 0
  {
    Acc(a.msgs + [Message(a.dt / PPQ_U, e)], 0)
  }

  /** One pass over `notes[..k]` at pulse `t`: a note-on for every note
      starting at `t` when `!offs`, a note-off for every note ending at `t`
      when `offs`. */
  function Pass(notes: seq<MidiNote>, k: nat, t: nat, a: Acc, offs: bool): (r: Acc)
    requires k <= |notes|
    ensures |a.msgs| <= |r.msgs| <= |a.msgs| + k
    ensures |r.msgs| == |a.msgs| ==> r == a
  {
    if k == 0 then a
    else
      var b := Pass(notes, k - 1, t, a, offs);
      var n := notes[k - 1];
      if !offs && n.note.start == t then Emit(b, On(n.channel, n.note.note, n.note.velocity))
      else if offs && n.note.end == t then Emit(b, Off(n.channel, n.note.note, n.note.velocity))
      else b
  }

  /** One pulse: the note-ons, then the note-offs, then one more pulse of delta. */
  function Pulse(notes: seq<MidiNote>, t: nat, a: Acc): (r: Acc)
    ensures |a.msgs| <= |r.msgs| <= |a.msgs| + 2 * |notes|
    ensures r.dt >= 1
  {
    var b := Pass(notes, |notes|, t, Pass(notes, |notes|, t, a, false), true);
    Acc(b.msgs, b.dt + 1)
  }

  /** The pulses `0 .. n - 1`. */
  function Run(notes: seq<MidiNote>, n: nat, a: Acc): (r: Acc)
    ensures |a.msgs| <= |r.msgs| && r.msgs[..|a.msgs|] == a.msgs
    ensures n > 0 ==> r.dt >= 1
  {
    if n == 0 then a
    else
      var b := Run(notes, n - 1, a);
      PulseShape(notes, n - 1, b);
      Pulse(notes, n - 1, b)
  }

  const END_OF_TRACK: Message := Message(0, MetaBytes(EndOfTrack, []))

  /** `mid`: nothing when no track has notes; otherwise the header, the note
      events of pulses up to and including the last note-off time (the
      corrected bound, see `MidDropsLastNoteOff`), and the end of the track.
      Tracks are read in order; the instrument names come in the order of
      `presetNames`. A tempo of 0 beats per minute panics on the division,
      after the notes were gathered. */
  method Mid(music: Music, bpm: nat, title: string, copyright: bool, year: nat, presetNames: seq<string>)
    returns (r: Option<seq<Message>>, panicked: bool)
    ensures panicked <==> GatherNotes(music.midiTracks) != [] && bpm == 0
    ensures r.None? <==> GatherNotes(music.midiTracks) == [] || panicked
    ensures r.Some? ==>
      var notes := SortBy(GatherNotes(music.midiTracks), StartLe);
      r.value == CorrectedNoteEvents(notes, Header(title, copyright, year, presetNames, bpm)) + [END_OF_TRACK]
  {
    var gathered := GatherNotes(music.midiTracks);
    if gathered == [] {
      return None, false;
    }
    if bpm == 0 {
      return None, true;
    }
    var header := HeaderMessages(title, copyright, year, presetNames, bpm);
    var notes := SortBy(gathered, StartLe);
    var messages := NoteMessages(notes, header);
    return Some(messages + [END_OF_TRACK]), false;
  }

  /** The header of `mid`: the title, the copyright line when asked for, one
      instrument name per preset, and the tempo. */
  method HeaderMessages(title: string, copyright: bool, year: nat, presetNames: seq<string>, bpm: nat)
    returns (messages: seq<Message>)
    requires bpm > 0
    ensures messages == Header(title, copyright, year, presetNames, bpm)
  {
    messages := [Message(0, MetaText(TextEvent, title))];
    if copyright {
      messages := messages + [Message(0, MetaBytes(CopyrightNotice, LeBytes(year)))];
    }
    var p := 0;
    ghost var start := messages;
    while p < |presetNames|
      invariant 0 <= p <= |presetNames|
      invariant messages == start + InstrumentNames(presetNames[..p])
    {
      assert InstrumentNames(presetNames[..p + 1]) == InstrumentNames(presetNames[..p]) + [Message(0, MetaText(InstrumentName, presetNames[p]))];
      messages := messages + [Message(0, MetaText(InstrumentName, presetNames[p]))];
      p := p + 1;
    }
    assert presetNames[..p] == presetNames;
    messages := messages + [Message(0, MetaBytes(SetTempo, TempoBytes(Tempo(bpm))))];
  }

  /** The pulse loop of `mid`, from pulse 0 up to and including the last
      note-off time. */
  method NoteMessages(notes: seq<MidiNote>, header: seq<Message>) returns (messages: seq<Message>)
    requires notes != []
    ensures messages == CorrectedNoteEvents(notes, header)
  {
    var t1 := MaxEnd(notes) + 1;
    ghost var a0 := Acc(header, 0);
    messages := header;
    var t := 0;
    var dt := 0;
    while t < t1
      invariant 0 <= t <= t1
      invariant Acc(messages, dt) == Run(notes, t, a0)
    {
      messages, dt := PassMessages(notes, t, messages, dt, false);
      messages, dt := PassMessages(notes, t, messages, dt, true);
      t := t + 1;
      dt := dt + 1;
    }
  }

  /** One inner loop of `mid` at pulse `t`: over the notes that start at `t`
      (`!offs`) or end at `t` (`offs`), pushing an event for each. */
  method PassMessages(notes: seq<MidiNote>, t: nat, messages: seq<Message>, dt: nat, offs: bool)
    returns (messages': seq<Message>, dt': nat)
    ensures Acc(messages', dt') == Pass(notes, |notes|, t, Acc(messages, dt), offs)
  {
    messages', dt' := messages, dt;
    var k := 0;
    while k < |notes|
      invariant 0 <= k <= |notes|
      invariant Acc(messages', dt') == Pass(notes, k, t, Acc(messages, dt), offs)
    {
      var n := notes[k];
      if !offs && n.note.start == t {
        messages' := messages' + [Message(dt' / PPQ_U, On(n.channel, n.note.note, n.note.velocity))];
        dt' := 0;
      } else if offs && n.note.end == t {
        messages' := messages' + [Message(dt' / PPQ_U, Off(n.channel, n.note.note, n.note.velocity))];
        dt' := 0;
      }
      k := k + 1;
    }
  }

  // What the loop emits.

  function CountOn(msgs: seq<Message>): nat
  {
    if msgs == [] then 0
    else CountOn(msgs[..|msgs| - 1]) + if msgs[|msgs| - 1].event.On? then 1 else 0
  }

  function CountOff(msgs: seq<Message>): nat
  {
    if msgs == [] then 0
    else CountOff(msgs[..|msgs| - 1]) + if msgs[|msgs| - 1].event.Off? then 1 else 0
  }

  /** How many of the notes start at `t`, end at `t`, start before `n`, end before `n`. */
  function StartsAt(notes: seq<MidiNote>, t: nat): nat
  {
    if notes == [] then 0
    else StartsAt(notes[..|notes| - 1], t) + if notes[|notes| - 1].note.start == t then 1 else 0
  }

  function EndsAt(notes: seq<MidiNote>, t: nat): nat
  {
    if notes == [] then 0
    else EndsAt(notes[..|notes| - 1], t) + if notes[|notes| - 1].note.end == t then 1 else 0
  }

  function StartsBefore(notes: seq<MidiNote>, n: nat): nat
  {
    if notes == [] then 0
    else StartsBefore(notes[..|notes| - 1], n) + if notes[|notes| - 1].note.start < n then 1 else 0
  }

  function EndsBefore(notes: seq<MidiNote>, n: nat): nat
  {
    if notes == [] then 0
    else EndsBefore(notes[..|notes| - 1], n) + if notes[|notes| - 1].note.end < n then 1 else 0
  }

  lemma {:induction false} BeforeStep(notes: seq<MidiNote>, n: nat)
    ensures StartsBefore(notes, n + 1) == StartsBefore(notes, n) + StartsAt(notes, n)
    ensures EndsBefore(notes, n + 1) == EndsBefore(notes, n) + EndsAt(notes, n)
  {
    if notes != [] {
      BeforeStep(notes[..|notes| - 1], n);
    }
  }

  /** A pass appends only note-ons (or only note-offs), one per note that
      starts (ends) at `t`; after an event the accumulator is zero, so every
      appended event but the first has delta zero. */
  lemma {:induction false} PassShape(notes: seq<MidiNote>, k: nat, t: nat, a: Acc, offs: bool)
    requires k <= |notes|
    ensures var b := Pass(notes, k, t, a, offs);
      && |a.msgs| <= |b.msgs| && b.msgs[..|a.msgs|] == a.msgs
      && (forall i :: |a.msgs| <= i < |b.msgs| ==> if offs then b.msgs[i].event.Off? else b.msgs[i].event.On?)
      && (forall i :: |a.msgs| < i < |b.msgs| ==> b.msgs[i].delta == 0)
      && (if |b.msgs| == |a.msgs| then b.dt == a.dt else b.dt == 0)
  {
    if k > 0 {
      PassShape(notes, k - 1, t, a, offs);
      var b := Pass(notes, k - 1, t, a, offs);
      var c := Pass(notes, k, t, a, offs);
      if c != b {
        assert c.msgs[..|c.msgs| - 1] == b.msgs;
        assert c.msgs[..|a.msgs|] == b.msgs[..|a.msgs|];
      }
    }
  }

  /** A pass adds one note-on per note starting at `t` (or one note-off per
      note ending at `t`) and nothing else. */
  lemma {:induction false} PassCounts(notes: seq<MidiNote>, k: nat, t: nat, a: Acc, offs: bool)
    requires k <= |notes|
    ensures var b := Pass(notes, k, t, a, offs);
      && CountOn(b.msgs) == CountOn(a.msgs) + (if offs then 0 else StartsAt(notes[..k], t))
      && CountOff(b.msgs) == CountOff(a.msgs) + (if offs then EndsAt(notes[..k], t) else 0)
  {
    if k > 0 {
      PassCounts(notes, k - 1, t, a, offs);
      assert notes[..k][..k - 1] == notes[..k - 1];
      var n := notes[k - 1];
      assert StartsAt(notes[..k], t) == StartsAt(notes[..k - 1], t) + if n.note.start == t then 1 else 0;
      assert EndsAt(notes[..k], t) == EndsAt(notes[..k - 1], t) + if n.note.end == t then 1 else 0;
      var b := Pass(notes, k - 1, t, a, offs);
      var c := Pass(notes, k, t, a, offs);
      if (if offs then n.note.end == t else n.note.start == t) {
        assert |c.msgs| == |b.msgs| + 1;
        PassAppendsOne(notes, k, t, a, offs);
        assert c.msgs[..|c.msgs| - 1] == b.msgs;
      } else {
        assert c == b;
      }
    }
  }

  /** A pass step that emits appends exactly one message after the shorter pass. */
  lemma PassAppendsOne(notes: seq<MidiNote>, k: nat, t: nat, a: Acc, offs: bool)
    requires 0 < k <= |notes|
    requires Pass(notes, k, t, a, offs) != Pass(notes, k - 1, t, a, offs)
    ensures var b := Pass(notes, k - 1, t, a, offs);
      var c := Pass(notes, k, t, a, offs);
      && c.msgs == b.msgs + [c.msgs[|c.msgs| - 1]]
      && (if offs then notes[k - 1].note.end == t && c.msgs[|c.msgs| - 1].event.Off?
          else notes[k - 1].note.start == t && c.msgs[|c.msgs| - 1].event.On?)
  {
  }

  /** Within one pulse every note-on comes before every note-off, and only the
      first message of the pulse can carry a non-zero delta. */
  lemma PulseShape(notes: seq<MidiNote>, t: nat, a: Acc)
    ensures var m := Pulse(notes, t, a).msgs;
      && |a.msgs| <= |m| && m[..|a.msgs|] == a.msgs
      && (forall i :: |a.msgs| <= i < |m| ==> m[i].event.On? || m[i].event.Off?)
      && (forall i, j :: |a.msgs| <= i < j < |m| && m[i].event.Off? ==> m[j].event.Off?)
      && (forall i :: |a.msgs| < i < |m| ==> m[i].delta == 0)
  {
    var b := Pass(notes, |notes|, t, a, false);
    PassShape(notes, |notes|, t, a, false);
    PassShape(notes, |notes|, t, b, true);
    var c := Pass(notes, |notes|, t, b, true);
    assert c.msgs[..|b.msgs|] == b.msgs;
    forall i | |a.msgs| <= i < |b.msgs| ensures c.msgs[i] == b.msgs[i] {
      assert c.msgs[..|b.msgs|][i] == c.msgs[i];
    }
    if |b.msgs| > |a.msgs| && |c.msgs| > |b.msgs| {
      assert b.dt == 0;
      assert c.msgs[|b.msgs|].delta == 0 by {
        assert Pass(notes, 0, t, b, true) == b;
        FirstOfPass(notes, |notes|, t, b, true);
      }
    }
  }

  /** One pulse adds a note-on per note starting at `t` and a note-off per
      note ending at `t`. */
  lemma PulseCounts(notes: seq<MidiNote>, t: nat, a: Acc)
    ensures var m := Pulse(notes, t, a).msgs;
      && CountOn(m) == CountOn(a.msgs) + StartsAt(notes, t)
      && CountOff(m) == CountOff(a.msgs) + EndsAt(notes, t)
  {
    var b := Pass(notes, |notes|, t, a, false);
    PassCounts(notes, |notes|, t, a, false);
    PassCounts(notes, |notes|, t, b, true);
    assert notes[..|notes|] == notes;
  }

  /** The first message a pass appends carries the accumulator it started with. */
  lemma {:induction false} FirstOfPass(notes: seq<MidiNote>, k: nat, t: nat, a: Acc, offs: bool)
    requires k <= |notes|
    ensures var b := Pass(notes, k, t, a, offs);
      |b.msgs| > |a.msgs| ==> b.msgs[|a.msgs|].delta == a.dt / PPQ_U
  {
    if k > 0 {
      FirstOfPass(notes, k - 1, t, a, offs);
      PassShape(notes, k - 1, t, a, offs);
    }
  }

  lemma {:induction false} RunCounts(notes: seq<MidiNote>, n: nat, a: Acc)
    ensures CountOn(Run(notes, n, a).msgs) == CountOn(a.msgs) + StartsBefore(notes, n)
    ensures CountOff(Run(notes, n, a).msgs) == CountOff(a.msgs) + EndsBefore(notes, n)
  {
    if n == 0 {
      NoneBefore(notes);
    } else {
      RunCounts(notes, n - 1, a);
      PulseCounts(notes, n - 1, Run(notes, n - 1, a));
      BeforeStep(notes, n - 1);
    }
  }

  lemma {:induction false} NoneBefore(notes: seq<MidiNote>)
    ensures StartsBefore(notes, 0) == 0 && EndsBefore(notes, 0) == 0
  {
    if notes != [] {
      NoneBefore(notes[..|notes| - 1]);
    }
  }

  lemma {:induction false} AllBefore(notes: seq<MidiNote>, n: nat)
    requires forall i :: 0 <= i < |notes| ==> notes[i].note.end < n
    ensures EndsBefore(notes, n) == |notes|
    ensures (forall i :: 0 <= i < |notes| ==> notes[i].note.start <= notes[i].note.end) ==> StartsBefore(notes, n) == |notes|
  {
    if notes != [] {
      AllBefore(notes[..|notes| - 1], n);
    }
  }

  lemma {:induction false} SomeNotBefore(notes: seq<MidiNote>, n: nat, i: nat)
    requires i < |notes| && notes[i].note.end >= n
    ensures EndsBefore(notes, n) < |notes|
  {
    EndsBeforeBound(notes[..|notes| - 1], n);
    if i < |notes| - 1 {
      SomeNotBefore(notes[..|notes| - 1], n, i);
    }
  }

  lemma {:induction false} EndsBeforeBound(notes: seq<MidiNote>, n: nat)
    ensures EndsBefore(notes, n) <= |notes|
  {
    if notes != [] {
      EndsBeforeBound(notes[..|notes| - 1], n);
    }
  }

  /** As written, the loop stops before the last note-off time, so a note
      ending there (at least one does) never gets its note-off. */
  lemma MidDropsLastNoteOff(notes: seq<MidiNote>, header: seq<Message>)
    requires notes != []
    requires CountOff(header) == 0
    ensures CountOff(Run(notes, MaxEnd(notes), Acc(header, 0)).msgs) < |notes|
  {
    RunCounts(notes, MaxEnd(notes), Acc(header, 0));
    var i :| 0 <= i < |notes| && notes[i].note.end == MaxEnd(notes);
    SomeNotBefore(notes, MaxEnd(notes), i);
  }

  /** A single note from pulse 0 to one quarter note: the as-written events
      hold its note-on and no note-off. */
  lemma OneNoteHasNoNoteOff()
    ensures var notes := [MidiNote(Note(60, 100, 0, PPQ_U), 0)];
      var m := Run(notes, MaxEnd(notes), Acc([], 0)).msgs;
      CountOn(m) == 1 && CountOff(m) == 0
  {
    var notes := [MidiNote(Note(60, 100, 0, PPQ_U), 0)];
    RunCounts(notes, PPQ_U, Acc([], 0));
    assert notes[..0] == [];
  }

  /** The intended events: the loop runs up to and including the last
      note-off time. */
  function CorrectedNoteEvents(notes: seq<MidiNote>, header: seq<Message>): (r: seq<Message>)
    requires notes != []
    ensures |header| <= |r| && r[..|header|] == header
  {
    Run(notes, MaxEnd(notes) + 1, Acc(header, 0)).msgs
  }

  /** With the corrected bound every note gets its note-off, and every note
      that does not start after it ends gets its note-on. */
  lemma CorrectedEventsCloseEveryNote(notes: seq<MidiNote>, header: seq<Message>)
    requires notes != []
    requires CountOn(header) == 0 && CountOff(header) == 0
    ensures CountOff(CorrectedNoteEvents(notes, header)) == |notes|
    ensures (forall i :: 0 <= i < |notes| ==> notes[i].note.start <= notes[i].note.end) ==>
      CountOn(CorrectedNoteEvents(notes, header)) == |notes|
  {
    RunCounts(notes, MaxEnd(notes) + 1, Acc(header, 0));
    AllBefore(notes, MaxEnd(notes) + 1);
  }

  // The Ogg comment header.

  datatype Tag = Tag(key: string, value: string)

  /** The tags shared by the as-written and corrected headers: title, date,
      artist (and the copyright line when `copyright`), album, genre and
      track number. */
  function CommonOggTags(m: Metadata, copyright: bool, year: nat): seq<Tag>
  {
    [Tag("title", m.title), Tag("date", NatToString(year))]
      + (match m.artist
         case None => []
         case Some(artist) =>
           [Tag("artist", artist)]
             + if copyright then [Tag("copyright", "Copyright " + NatToString(year) + " " + artist)] else [])
      + (if m.album.Some? then [Tag("album", m.album.value)] else [])
      + (if m.genre.Some? then [Tag("genre", m.genre.value)] else [])
      + (if m.trackNumber.Some? then [Tag("tracknumber", NatToString(m.trackNumber.value))] else [])
  }

  /** As written: the description tag is filled from the genre. */
  function OggTagsAsWritten(m: Metadata, copyright: bool, year: nat): (r: seq<Tag>)
    ensures Tag("title", m.title) in r
    ensures m.genre.Some? ==> Tag("description", m.genre.value) in r
  {
    CommonOggTags(m, copyright, year) + if m.genre.Some? then [Tag("description", m.genre.value)] else []
  }

  /** Intended: the description tag holds the comment. */
  function OggTags(m: Metadata, copyright: bool, year: nat): (r: seq<Tag>)
    ensures Tag("title", m.title) in r
    ensures m.comment.Some? ==> Tag("description", m.comment.value) in r
  {
    CommonOggTags(m, copyright, year) + if m.comment.Some? then [Tag("description", m.comment.value)] else []
  }

  lemma NoDescriptionInCommon(m: Metadata, copyright: bool, year: nat, v: string)
    ensures Tag("description", v) !in CommonOggTags(m, copyright, year)
  {
    var c := CommonOggTags(m, copyright, year);
    forall i | 0 <= i < |c| ensures c[i].key != "description" {
      assert c[i].key in {"title", "date", "artist", "copyright", "album", "genre", "tracknumber"};
    }
  }

  /** A comment "c" with genre "g": the as-written header describes the file
      as "g" and never as "c". */
  lemma OggDescriptionTakesGenre()
    ensures var m := Metadata("t", None, None, Some("g"), Some("c"), None);
      Tag("description", "g") in OggTagsAsWritten(m, false, 2024)
      && Tag("description", "c") !in OggTagsAsWritten(m, false, 2024)
  {
    var m := Metadata("t", None, None, Some("g"), Some("c"), None);
    NoDescriptionInCommon(m, false, 2024, "c");
    var tags := OggTagsAsWritten(m, false, 2024);
    assert tags[|tags| - 1] == Tag("description", "g");
  }

  /** The corrected header describes the file by its comment, and only then. */
  lemma OggDescriptionIsComment(m: Metadata, copyright: bool, year: nat, v: string)
    ensures Tag("description", v) in OggTags(m, copyright, year) <==> m.comment == Some(v)
  {
    NoDescriptionInCommon(m, copyright, year, v);
    var tags := OggTags(m, copyright, year);
    if m.comment == Some(v) {
      assert tags[|tags| - 1] == Tag("description", v);
    }
  }

  /** A copyright tag is written exactly when there is an artist and the
      copyright flag is set. */
  lemma OggCopyrightRule(m: Metadata, copyright: bool, year: nat)
    ensures (exists i :: 0 <= i < |OggTags(m, copyright, year)| && OggTags(m, copyright, year)[i].key == "copyright")
      <==> m.artist.Some? && copyright
  {
    var tags := OggTags(m, copyright, year);
    if m.artist.Some? && copyright {
      assert tags[3].key == "copyright";
    } else {
      forall i | 0 <= i < |tags| ensures tags[i].key != "copyright" {
        assert tags[i].key in {"title", "date", "artist", "album", "genre", "tracknumber", "description"};
      }
    }
  }

  // Sample interleaving.

  function Min(a: nat, b: nat): nat
  {
    if a <= b then a else b
  }

  /** The WAV and Ogg writers' sample order: left then right for each frame
      of the two channel buffers (zipped, so the shorter one decides). */
  method Interleave(left: seq<int>, right: seq<int>) returns (samples: seq<int>)
    ensures |samples| == 2 * Min(|left|, |right|)
    ensures forall i :: 0 <= i < Min(|left|, |right|) ==> samples[2 * i] == left[i] && samples[2 * i + 1] == right[i]
  {
    samples := [];
    var i := 0;
    while i < Min(|left|, |right|)
      invariant 0 <= i <= Min(|left|, |right|)
      invariant |samples| == 2 * i
      invariant forall j :: 0 <= j < i ==> samples[2 * j] == left[j] && samples[2 * j + 1] == right[j]
    {
      samples := samples + [left[i], right[i]];
      i := i + 1;
    }
  }
}
