// The piano roll's per-edit-mode step sizes: how far one key press moves the
// time cursor, the note range and the volume, in the normal, quick and
// precise edit modes.

module EditModeDeltas {
  import opened Common

  datatype EditMode = Normal | Quick | Precise

  /** The eight configured step sizes; times are in pulses. */
  datatype Deltas = Deltas(
    quickTimeFactor: nat,
    preciseTime: nat,
    normalNote: nat,
    quickNote: nat,
    preciseNote: nat,
    normalVolume: nat,
    quickVolume: nat,
    preciseVolume: nat)

  /** The values of the shipped configuration file. */
  const Shipped: Deltas := Deltas(4, PPQ_U / 32, 1, 12, 1, 1, 10, 1)

  /** The time step: the current beat, the beat times the quick factor, or the
      fixed precise step. */
  function GetDt(d: Deltas, mode: EditMode, beat: nat): (r: nat)
  {
    match mode
    case Normal => beat
    case Quick => beat * d.quickTimeFactor
    case Precise => d.preciseTime
  }

  /** The note step configured for `mode`. */
  function GetDn(d: Deltas, mode: EditMode): (r: nat)
  {
    match mode
    case Normal => d.normalNote
    case Quick => d.quickNote
    case Precise => d.preciseNote
  }

  /** The volume step configured for `mode`. */
  function GetDv(d: Deltas, mode: EditMode): (r: nat)
  {
    match mode
    case Normal => d.normalVolume
    case Quick => d.quickVolume
    case Precise => d.preciseVolume
  }

  /** A longer beat never gives a shorter time step, and with a positive
      quick factor the quick step is at least the normal one. */
  lemma TimeStepMonotone(d: Deltas, mode: EditMode, beat: nat, longer: nat)
    requires beat <= longer
    ensures GetDt(d, mode, beat) <= GetDt(d, mode, longer)
    ensures d.quickTimeFactor > 0 ==> GetDt(d, Normal, beat) <= GetDt(d, Quick, beat)
  {
    if mode.Quick? {
      assert longer * d.quickTimeFactor == beat * d.quickTimeFactor + (longer - beat) * d.quickTimeFactor;
    }
    if d.quickTimeFactor > 0 {
      assert beat * d.quickTimeFactor == beat + beat * (d.quickTimeFactor - 1);
    }
  }

  /** The shipped step sizes: quick time is four beats, precise time a
      thirty-second of a quarter note, a quick note step an octave, a quick
      volume step ten, and every other step one. */
  lemma ShippedSteps(mode: EditMode, beat: nat)
    ensures GetDt(Shipped, mode, beat) == if mode.Quick? then 4 * beat else if mode.Normal? then beat else 6
    ensures GetDn(Shipped, mode) == if mode.Quick? then 12 else 1
    ensures GetDv(Shipped, mode) == if mode.Quick? then 10 else 1
  {
  }
}
