// Localized text lookup: keyed strings, placeholder substitution, the spoken
// forms of pulse counts and clock times, note names, the tooltip cache, the
// key-code tables and the wildcard patterns.

module TextLookup {
  import opened Common

  /** A tooltip in its spoken and its displayed form. */
  datatype TtsString = TtsString(spoken: string, seen: string)

  // String replacement.

  /** `s` begins with `pat`. */
  predicate StartsWith(s: string, pat: string)
  {
    |pat| <= |s| && s[..|pat|] == pat
  }

  /** `pat` occurs somewhere in `s`. */
  predicate Occurs(s: string, pat: string)
  {
    exists i :: 0 <= i <= |s| && StartsWith(s[i..], pat)
  }

  /** `str::replace`: scans left to right and replaces every non-overlapping
      occurrence of the non-empty `pat` by `rep`. */
  function ReplaceAll(s: string, pat: string, rep: string): (r: string)
    requires |pat| > 0
    ensures rep == pat ==> r == s
    ensures StartsWith(s, pat) ==> StartsWith(r, rep)
    decreases |s|
  {
    if |s| < |pat| then s
    else if StartsWith(s, pat) then
      assert s == pat + s[|pat|..];
      rep + ReplaceAll(s[|pat|..], pat, rep)
    else [s[0]] + ReplaceAll(s[1..], pat, rep)
  }

  /** A string without the pattern comes back unchanged. */
  lemma {:induction false} ReplaceAllAbsent(s: string, pat: string, rep: string)
    requires |pat| > 0 && !Occurs(s, pat)
    ensures ReplaceAll(s, pat, rep) == s
  {
    if |s| >= |pat| {
      assert s[0..] == s;
      assert !Occurs(s[1..], pat) by {
        forall i | 0 <= i <= |s[1..]| ensures !StartsWith(s[1..][i..], pat) {
          assert s[1..][i..] == s[i + 1..];
        }
      }
      ReplaceAllAbsent(s[1..], pat, rep);
      assert s == [s[0]] + s[1..];
    }
  }

  /** A string without the first character of the pattern does not contain it. */
  lemma NoHeadNoOccurrence(s: string, pat: string)
    requires |pat| > 0 && pat[0] !in s
    ensures !Occurs(s, pat)
  {
    forall i | 0 <= i <= |s| ensures !StartsWith(s[i..], pat) {
      if i < |s| {
        assert s[i..][0] == s[i] && s[i] in s;
      }
    }
  }

  /** When the text before the first occurrence cannot start the pattern, that
      occurrence is replaced and the text before it is kept. */
  lemma {:induction false} ReplaceAllFirst(a: string, pat: string, b: string, rep: string)
    requires |pat| > 0 && pat[0] !in a
    ensures ReplaceAll(a + pat + b, pat, rep) == a + rep + ReplaceAll(b, pat, rep)
  {
    if a == [] {
      assert a + pat + b == pat + b;
      ReplaceAllAtPattern(pat, b, rep);
    } else {
      var tail := a[1..] + pat + b;
      var done := ReplaceAll(b, pat, rep);
      assert a + pat + b == [a[0]] + tail;
      assert pat[0] !in a[1..];
      ReplaceAllFirst(a[1..], pat, b, rep);
      ReplaceAllSkips(a[0], tail, pat, rep);
      assert [a[0]] + (a[1..] + rep + done) == a + rep + done;
    }
  }

  /** Text that starts with the pattern has that occurrence replaced. */
  lemma ReplaceAllAtPattern(pat: string, b: string, rep: string)
    requires |pat| > 0
    ensures ReplaceAll(pat + b, pat, rep) == rep + ReplaceAll(b, pat, rep)
  {
    var s := pat + b;
    assert s[..|pat|] == pat && s[|pat|..] == b;
  }

  /** A character that cannot start the pattern is copied. */
  lemma ReplaceAllSkips(c: char, s: string, pat: string, rep: string)
    requires |pat| > 0 && c != pat[0]
    ensures ReplaceAll([c] + s, pat, rep) == [c] + ReplaceAll(s, pat, rep)
  {
    var cs := [c] + s;
    assert cs[0] == c;
    assert cs[1..] == s;
  }

  /** Collapsing double spaces is a single pass: three spaces become two. */
  lemma CollapseIsOnePass()
    ensures ReplaceAll("   ", "  ", " ") == "  "
  {
    assert "   "[..2] == "  ";
    assert "   "[2..] == " ";
  }

  /** The pattern of wildcard `i`: `prefix` followed by the decimal of `i`. */
  function Wildcard(prefix: string, i: nat): (r: string)
    ensures |r| > |prefix| && r[..|prefix|] == prefix
  {
    prefix + NatToString(i)
  }

  /** Distinct indices give distinct wildcards. */
  lemma WildcardInjective(prefix: string, i: nat, j: nat)
    requires Wildcard(prefix, i) == Wildcard(prefix, j)
    ensures i == j
  {
    var wi, wj := Wildcard(prefix, i), Wildcard(prefix, j);
    assert wi[|prefix|..] == NatToString(i);
    assert wj[|prefix|..] == NatToString(j);
    NatToStringInjective(i, j);
  }

  /** The template after replacing `\0` .. `\(n-1)` by the first `n` values, in order. */
  function FillValues(t: string, values: seq<string>, n: nat): (r: string)
    requires n <= |values|
    ensures (forall i :: 0 <= i < n ==> values[i] == Wildcard("\\", i)) ==> r == t
  {
    if n == 0 then t
    else ReplaceAll(FillValues(t, values, n - 1), Wildcard("\\", n - 1), values[n - 1])
  }

  /** A template without backslashes is returned as is, whatever the values. */
  lemma {:induction false} FillValuesNoWildcards(t: string, values: seq<string>, n: nat)
    requires n <= |values| && '\\' !in t
    ensures FillValues(t, values, n) == t
  {
    if n > 0 {
      FillValuesNoWildcards(t, values, n - 1);
      var w := Wildcard("\\", n - 1);
      NoHeadNoOccurrence(t, w);
      ReplaceAllAbsent(t, w, values[n - 1]);
    }
  }

  /** A one-wildcard template with no backslash before `\0` gets the value spliced in. */
  lemma FillOneValue(a: string, b: string, v: string)
    requires '\\' !in a && '\\' !in b
    ensures FillValues(a + "\\0" + b, [v], 1) == a + v + b
  {
    assert Wildcard("\\", 0) == "\\0";
    ReplaceAllFirst(a, "\\0", b, v);
    NoHeadNoOccurrence(b, "\\0");
    ReplaceAllAbsent(b, "\\0", v);
  }

  // Spoken pulse counts.

  /** The fraction text key the pulse counts that are not whole beats have. */
  function FractionKey(ppq: nat): Option<string>
  {
    if ppq == 288 then Some("FRACTION_TTS_ONE_AND_A_HALF")
    else if ppq == 96 then Some("FRACTION_TTS_ONE_HALF")
    else if ppq == 64 then Some("FRACTION_TTS_ONE_THIRD")
    else if ppq == 48 then Some("FRACTION_TTS_ONE_FOURTH")
    else if ppq == 32 then Some("FRACTION_TTS_ONE_SIXTH")
    else if ppq == 24 then Some("FRACTION_TTS_ONE_EIGHTH")
    else if ppq == 12 then Some("FRACTION_TTS_ONE_SIXTEENTH")
    else if ppq == 6 then Some("FRACTION_TTS_ONE_THIRTY_SECOND")
    else None
  }

  /** The fraction of a beat each fraction key names, as (numerator, denominator). */
  function FractionOf(key: string): (nat, nat)
  {
    if key == "FRACTION_TTS_ONE_AND_A_HALF" then (3, 2)
    else if key == "FRACTION_TTS_ONE_HALF" then (1, 2)
    else if key == "FRACTION_TTS_ONE_THIRD" then (1, 3)
    else if key == "FRACTION_TTS_ONE_FOURTH" then (1, 4)
    else if key == "FRACTION_TTS_ONE_SIXTH" then (1, 6)
    else if key == "FRACTION_TTS_ONE_EIGHTH" then (1, 8)
    else if key == "FRACTION_TTS_ONE_SIXTEENTH" then (1, 16)
    else (1, 32)
  }

  /** Every fraction key names exactly the fraction of a beat its pulse count is. */
  lemma FractionKeysAreExact(ppq: nat)
    requires FractionKey(ppq).Some?
    ensures ppq % PPQ_U != 0
    ensures ppq * FractionOf(FractionKey(ppq).value).1 == PPQ_U * FractionOf(FractionKey(ppq).value).0
  {
  }

  /** What `get_ppq_tts` says: a text, a missing key (a panic), or the two-decimal
      rendering of `ppq / PPQ` (floating point, not modelled). */
  datatype PpqTts = Spoken(text: string) | MissingKey(key: string) | TwoDecimals(ppq: nat)

  // The tooltip cache.

  /** One cached tooltip lookup: the cached value if there is one, otherwise
      `built` (the freshly built tooltip), which is then cached. */
  function Memo(cache: map<string, TtsString>, key: string, built: TtsString): (r: (TtsString, map<string, TtsString>))
    ensures key in r.1 && r.1[key] == r.0
    ensures key in cache ==> r.0 == cache[key] && r.1 == cache
    ensures key !in cache ==> r.0 == built && r.1 == cache[key := built]
  {
    if key in cache then (cache[key], cache) else (built, cache[key := built])
  }

  /** After the first lookup, a key's tooltip never changes, whatever is built later. */
  lemma MemoIsStable(cache: map<string, TtsString>, key: string, first: TtsString, later: TtsString)
    ensures Memo(Memo(cache, key, first).1, key, later) == Memo(cache, key, first)
  {
  }

  // Clock times.

  datatype Clock = Clock(hours: nat, minutes: nat, seconds: nat)

  lemma ClockDivisions(secs: nat)
    ensures (secs / 3600) * 60 <= secs / 60
    ensures (secs / 60) * 60 <= secs
    ensures secs / 60 - (secs / 3600) * 60 == (secs / 60) % 60
  {
    var q := secs / 60;
    assert secs / 3600 == q / 60;
  }

  /** The clock fields as `get_time` computes them: the seconds subtract only the
      minutes of the current hour. */
  function ClockAsWritten(secs: nat): (c: Clock)
    ensures c.hours == secs / 3600 && c.minutes < 60
    ensures c.minutes * 60 + c.seconds == secs
  {
    ClockDivisions(secs);
    var h := secs / 3600;
    var m := secs / 60 - h * 60;
    Clock(h, m, secs - m * 60)
  }

  /** The clock fields of `secs` seconds. */
  function ClockOf(secs: nat): (c: Clock)
    ensures c.minutes < 60 && c.seconds < 60
    ensures c.hours * 3600 + c.minutes * 60 + c.seconds == secs
  {
    ClockDivisions(secs);
    Clock(secs / 3600, (secs / 60) % 60, secs % 60)
  }

  /** Under an hour the computation as written is right. */
  lemma AsWrittenBelowAnHour(secs: nat)
    requires secs < 3600
    ensures ClockAsWritten(secs) == ClockOf(secs)
  {
    ClockDivisions(secs);
  }

  /** From one hour on, the seconds as written are off by 3600 per whole hour. */
  lemma AsWrittenFromAnHour(secs: nat)
    ensures ClockAsWritten(secs).hours == ClockOf(secs).hours
    ensures ClockAsWritten(secs).minutes == ClockOf(secs).minutes
    ensures ClockAsWritten(secs).seconds == ClockOf(secs).seconds + 3600 * ClockOf(secs).hours
  {
    ClockDivisions(secs);
    var h, q := secs / 3600, secs / 60;
    assert q == h * 60 + q % 60;
    assert secs == q * 60 + secs % 60;
  }

  /** One hour, one minute and one second reads as "1 hour, 1 minute, 3601 seconds". */
  lemma AsWrittenAt3661()
    ensures ClockAsWritten(3661) == Clock(1, 1, 3601)
    ensures ClockOf(3661) == Clock(1, 1, 1)
  {
  }

  /** The stems of the text keys that name each key code (before the
      "_SPOKEN" or "_SEEN" suffix). */
  const KEYCODE_LOOKUPS: seq<string> := [
    "Space", "Apostrophe", "Comma", "Minus", "Period", "Slash", "Key0", "Key1", "Key2",
    "Key3", "Key4", "Key5", "Key6", "Key7", "Key8", "Key9", "Semicolon", "Equal", "A", "B",
    "C", "D", "E", "F", "G", "H", "I", "J", "K", "L", "M", "N", "O", "P", "Q", "R", "S",
    "T", "U", "V", "W", "X", "Y", "Z", "LeftBracket", "Backslash", "RightBracket",
    "GraveAccent", "World1", "World2", "Escape", "Enter", "Tab", "Backspace", "Insert",
    "Delete", "Right", "Left", "Down", "Up", "PageUp", "PageDown", "Home", "End",
    "CapsLock", "ScrollLock", "NumLock", "PrintScreen", "Pause", "F1", "F2", "F3", "F4",
    "F5", "F6", "F7", "F8", "F9", "F10", "F11", "F12", "F13", "F14", "F15", "F16", "F17",
    "F18", "F19", "F20", "F21", "F22", "F23", "F24", "F25", "Kp0", "Kp1", "Kp2", "Kp3",
    "Kp4", "Kp5", "Kp6", "Kp7", "Kp8", "Kp9", "KpDecimal", "KpDivide", "KpMultiply",
    "KpSubtract", "KpAdd", "KpEnter", "KpEqual", "LeftShift", "LeftControl", "LeftAlt",
    "LeftSuper", "RightShift", "RightControl", "RightAlt", "RightSuper", "Menu", "Unknown"]

  function KeycodeSuffix(spoken: bool): string
  {
    if spoken then "_SPOKEN" else "_SEEN"
  }

  /** Builds the key-code table: key `keys[i]` gets the text of
      `KEYCODE_LOOKUPS[i]` plus the suffix, for as many pairs as both lists
      have; a missing text key is a panic (`None`). */
  method GetKeycodeMap<K(==)>(text: map<string, string>, keys: seq<K>, spoken: bool) returns (r: Option<map<K, string>>)
    ensures var n := if |keys| < |KEYCODE_LOOKUPS| then |keys| else |KEYCODE_LOOKUPS|;
      && (r.Some? <==> forall i :: 0 <= i < n ==> KEYCODE_LOOKUPS[i] + KeycodeSuffix(spoken) in text)
      && (r.Some? ==> r.value.Keys == set i | 0 <= i < n :: keys[i])
      && (r.Some? ==> forall i :: 0 <= i < n && (forall j :: i < j < n ==> keys[j] != keys[i]) ==>
            r.value[keys[i]] == text[KEYCODE_LOOKUPS[i] + KeycodeSuffix(spoken)])
  {
    r := ZipLookups(text, keys, KEYCODE_LOOKUPS, KeycodeSuffix(spoken));
  }

  /** The loop of `get_keycode_map`, over any list of lookup keys. */
  method ZipLookups<K(==)>(text: map<string, string>, keys: seq<K>, lookups: seq<string>, suffix: string) returns (r: Option<map<K, string>>)
    ensures var n := if |keys| < |lookups| then |keys| else |lookups|;
      && (r.Some? <==> forall i :: 0 <= i < n ==> lookups[i] + suffix in text)
      && (r.Some? ==> r.value.Keys == set i | 0 <= i < n :: keys[i])
      && (r.Some? ==> forall i :: 0 <= i < n && (forall j :: i < j < n ==> keys[j] != keys[i]) ==>
            r.value[keys[i]] == text[lookups[i] + suffix])
  {
    var n := if |keys| < |lookups| then |keys| else |lookups|;
    var m: map<K, string> := map[];
    var i := 0;
    while i < n
      invariant 0 <= i <= n
      invariant forall k :: 0 <= k < i ==> lookups[k] + suffix in text
      invariant m.Keys == set k | 0 <= k < i :: keys[k]
      invariant forall k :: 0 <= k < i && (forall j :: k < j < i ==> keys[j] != keys[k]) ==>
        m[keys[k]] == text[lookups[k] + suffix]
    {
      var lookup := lookups[i] + suffix;
      if lookup !in text {
        return None;
      }
      m := m[keys[i] := text[lookup]];
      i := i + 1;
    }
    r := Some(m);
  }

  /** The localized text tables and the tooltip cache. */
  class Text {
    var text: map<string, string>
    var noteNames: seq<string>
    var ttsStrings: map<string, TtsString>

    constructor (text: map<string, string>, noteNames: seq<string>)
      ensures this.text == text && this.noteNames == noteNames && ttsStrings == map[]
    {
      this.text := text;
      this.noteNames := noteNames;
      ttsStrings := map[];
    }

    /** The text of `key`; a missing key is a panic (`None`). */
    function Get(key: string): (r: Option<string>)
      reads this
      ensures r.Some? <==> key in text
      ensures r.Some? ==> r.value == text[key]
    {
      if key in text then Some(text[key]) else None
    }

    /** Fills `\0`, `\1`, ... with `values` in order, then collapses double spaces
        in one pass; a missing key is a panic (`None`). */
    method GetWithValues(key: string, values: seq<string>) returns (r: Option<string>)
      ensures r.Some? <==> key in text
      ensures r.Some? ==> r.value == ReplaceAll(FillValues(text[key], values, |values|), "  ", " ")
    {
      if key !in text {
        return None;
      }
      var t := text[key];
      var i := 0;
      while i < |values|
        invariant 0 <= i <= |values|
        invariant t == FillValues(text[key], values, i)
      {
        t := ReplaceAll(t, Wildcard("\\", i), values[i]);
        i := i + 1;
      }
      r := Some(ReplaceAll(t, "  ", " "));
    }

    /** The spoken form of a clock time `secs` seconds long: with hours when there
        is at least one, otherwise minutes and seconds. */
    method GetTime(secs: nat) returns (r: Option<string>)
      ensures var c := ClockOf(secs);
        if c.hours > 0 then
          && (r.Some? <==> "TIME_TTS_HOURS" in text)
          && (r.Some? ==> r.value == ReplaceAll(FillValues(text["TIME_TTS_HOURS"],
                [NatToString(c.hours), NatToString(c.minutes), NatToString(c.seconds)], 3), "  ", " "))
        else
          && (r.Some? <==> "TIME_TTS" in text)
          && (r.Some? ==> r.value == ReplaceAll(FillValues(text["TIME_TTS"],
                [NatToString(c.minutes), NatToString(c.seconds)], 2), "  ", " "))
    {
      var c := ClockOf(secs);
      if c.hours > 0 {
        r := GetWithValues("TIME_TTS_HOURS", [NatToString(c.hours), NatToString(c.minutes), NatToString(c.seconds)]);
      } else {
        r := GetWithValues("TIME_TTS", [NatToString(c.minutes), NatToString(c.seconds)]);
      }
    }

    /** Says a pulse count: whole beats as a number, the known fractions by their
        text, and anything else as a two-decimal number of beats. */
    function GetPpqTts(ppq: nat): (r: PpqTts)
      reads this
      ensures ppq % PPQ_U == 0 ==> r == Spoken(NatToString(ppq / PPQ_U))
      ensures ppq % PPQ_U != 0 && FractionKey(ppq).Some? ==>
        r == (if FractionKey(ppq).value in text then Spoken(text[FractionKey(ppq).value]) else MissingKey(FractionKey(ppq).value))
      ensures ppq % PPQ_U != 0 && FractionKey(ppq).None? ==> r == TwoDecimals(ppq)
    {
      if ppq % PPQ_U == 0 then Spoken(NatToString(ppq / PPQ_U))
      else match FractionKey(ppq)
        case Some(k) => if k in text then Spoken(text[k]) else MissingKey(k)
        case None => TwoDecimals(ppq)
    }

    /** The name of MIDI note `note`: an underflow below the lowest note or an
        index past the table is a panic (`None`). */
    function GetNoteName(minNote: nat, note: nat): (r: Option<string>)
      reads this
      ensures r.Some? <==> minNote <= note < minNote + |noteNames|
      ensures r.Some? ==> r.value == noteNames[note - minNote]
    {
      if note < minNote || note - minNote >= |noteNames| then None else Some(noteNames[note - minNote])
    }

    /** The cached tooltip of `key`; `built` is what building it afresh gives. */
    method GetTooltip(key: string, built: TtsString) returns (t: TtsString)
      modifies this`ttsStrings
      ensures (t, ttsStrings) == Memo(old(ttsStrings), key, built)
    {
      if key in ttsStrings {
        t := ttsStrings[key];
      } else {
        ttsStrings := ttsStrings[key := built];
        t := ttsStrings[key];
      }
    }
  }

  /** Reading a whole-beat pulse count back gives the number of beats. */
  lemma PpqTtsWholeBeats(t: Text, beats: nat)
    ensures t.GetPpqTts(beats * PPQ_U).Spoken?
    ensures DigitsValue(t.GetPpqTts(beats * PPQ_U).text) == beats
  {
    NatToStringRoundTrip(beats);
  }
}
