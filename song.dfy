/**
  The compiled timeline: a `Song` owns an append-only list of tone and rest
  events, the list of compile errors, the running length in seconds and the
  selection window that the linkers filter on. `SongEvent` is the event
  object; a tone carries a pitch (its frequency in Hz), a rest does not.
*/
module Songs {
  import opened JavaLang

  /** The value of an event: a tone with its frequency, or a rest. */
  datatype Event =
    | Tone(time: real, duration: real, pitch: real)
    | Rest(time: real, duration: real)

  function EndTime(e: Event): real {
    e.time + e.duration
  }

  function Pow2Nat(k: nat): (r: nat)
    ensures r >= 1
  {
    if k == 0 then 1 else 2 * Pow2Nat(k - 1)
  }

  /** `Double.MAX_VALUE`, (2^53 - 1) * 2^971. */
  const DOUBLE_MAX: real := (0x1F_FFFF_FFFF_FFFF * Pow2Nat(971)) as real

  /** The value of a whole `Song`. */
  datatype SongValue = SongValue(
    events: seq<Event>,
    errors: seq<string>,
    lengthSec: real,
    selectionStart: real,
    selectionEnd: real)
  {
    /** What `addTone(double, double)` does to the song. */
    function WithTone(freq: real, secDuration: real): SongValue {
      this.(events := events + [Tone(lengthSec, secDuration, freq)], lengthSec := lengthSec + secDuration)
    }

    /** What `addRest(double)` does to the song. */
    function WithRest(secDuration: real): SongValue {
      this.(events := events + [Rest(lengthSec, secDuration)], lengthSec := lengthSec + secDuration)
    }

    function WithError(message: string): SongValue {
      this.(errors := errors + [message])
    }
  }

  /** A new `Song`: nothing in it, and a selection window of [0, Double.MAX_VALUE]. */
  function NewSong(): SongValue {
    SongValue([], [], 0.0, 0.0, DOUBLE_MAX)
  }

  /**
    The timeline invariant that `Song`'s own mutators keep: the first event
    starts at 0, each later event starts where the one before it ends, and
    the length is where the last one ends.
  */
  predicate Chained(sv: SongValue) {
    var es := sv.events;
    (es == [] ==> sv.lengthSec == 0.0)
    && (es != [] ==> es[0].time == 0.0 && sv.lengthSec == EndTime(es[|es| - 1]))
    && (forall k :: 0 < k < |es| ==> es[k].time == EndTime(es[k - 1]))
  }

  lemma NewSongChained()
    ensures Chained(NewSong())
  {
  }

  /** Every `add*` keeps the timeline chained: a new event starts at the old length. */
  lemma WithToneChained(sv: SongValue, freq: real, secDuration: real)
    requires Chained(sv)
    ensures Chained(sv.WithTone(freq, secDuration))
  {
  }

  lemma WithRestChained(sv: SongValue, secDuration: real)
    requires Chained(sv)
    ensures Chained(sv.WithRest(secDuration))
  {
  }

  /** With durations that are not negative, no event of a chained timeline ends after its length. */
  lemma {:induction false} ChainedWithinLength(sv: SongValue, j: nat)
    requires Chained(sv)
    requires forall k :: 0 <= k < |sv.events| ==> sv.events[k].duration >= 0.0
    requires j < |sv.events|
    ensures EndTime(sv.events[j]) <= sv.lengthSec
    decreases |sv.events| - j
  {
    if j + 1 < |sv.events| {
      assert sv.events[j + 1].time == EndTime(sv.events[j]);
      ChainedWithinLength(sv, j + 1);
    }
  }

  /** With durations that are not negative, a chained timeline is in time order. */
  lemma {:induction false} ChainedInTimeOrder(sv: SongValue, i: nat, j: nat)
    requires Chained(sv)
    requires forall k :: 0 <= k < |sv.events| ==> sv.events[k].duration >= 0.0
    requires i <= j < |sv.events|
    ensures sv.events[i].time <= sv.events[j].time
    decreases j - i
  {
    if i < j {
      assert sv.events[i + 1].time == EndTime(sv.events[i]);
      ChainedInTimeOrder(sv, i + 1, j);
    }
  }

  /** The seconds of `wholeNoteDuration` whole notes at `tempoBPM` quarter notes a minute. */
  function TempoSeconds(wholeNoteDuration: real, tempoBPM: real): real {
    wholeNoteDuration * 4.0 * DoubleDiv(1.0, tempoBPM * DoubleDiv(1.0, 60.0))
  }

  lemma TempoSecondsFormula(wholeNoteDuration: real, tempoBPM: real)
    requires tempoBPM != 0.0
    ensures TempoSeconds(wholeNoteDuration, tempoBPM) == wholeNoteDuration * 4.0 * 60.0 / tempoBPM
  {
    var perBeat := DoubleDiv(1.0, tempoBPM * DoubleDiv(1.0, 60.0));
    assert tempoBPM * DoubleDiv(1.0, 60.0) == tempoBPM / 60.0;
    assert perBeat == 60.0 / tempoBPM;
  }

  /** 2 to an integer power. */
  function Pow2(e: int): (r: real)
    ensures r > 0.0
    decreases if e < 0 then -e else e
  {
    if e == 0 then 1.0 else if e > 0 then 2.0 * Pow2(e - 1) else Pow2(e + 1) / 2.0
  }

  lemma {:induction false} Pow2Succ(e: int)
    ensures Pow2(e + 1) == 2.0 * Pow2(e)
    decreases if e < 0 then -e else e
  {
    if e < -1 {
      Pow2Succ(e + 1);
    }
  }

  const BASE_FREQ: real := 8.1757989156

  /**
    2^(k/12) for the twelve semitones of an octave, to ten decimal places.
    `Math.pow` itself is not modelled: only these approximations are.
  */
  function SemitoneRatio(k: int): (r: real)
    requires 0 <= k < 12
    ensures 1.0 <= r < 2.0
  {
    [1.0, 1.0594630944, 1.1224620483, 1.1892071150, 1.2599210499, 1.3348398542,
     1.4142135624, 1.4983070769, 1.5874010520, 1.6817928305, 1.7817974363, 1.8877486254][k]
  }

  /** `Song.getNoteFreq`: 8.1757989156 * 2^(noteValue / 12). */
  function NoteFreq(noteValue: int): real {
    BASE_FREQ * SemitoneRatio(noteValue % 12) * Pow2(noteValue / 12)
  }

  lemma NoteFreqPositive(noteValue: int)
    ensures NoteFreq(noteValue) > 0.0
  {
    var r := SemitoneRatio(noteValue % 12);
    var p := Pow2(noteValue / 12);
    assert r * p > 0.0;
  }

  /** One octave up doubles the frequency. */
  lemma NoteFreqOctave(noteValue: int)
    ensures NoteFreq(noteValue + 12) == 2.0 * NoteFreq(noteValue)
  {
    assert (noteValue + 12) % 12 == noteValue % 12;
    assert (noteValue + 12) / 12 == noteValue / 12 + 1;
    Pow2Succ(noteValue / 12);
  }

  lemma NoteFreqStep(noteValue: int)
    ensures NoteFreq(noteValue) < NoteFreq(noteValue + 1)
  {
    var q, r := noteValue / 12, noteValue % 12;
    var p := Pow2(q);
    if r < 11 {
      assert (noteValue + 1) % 12 == r + 1 && (noteValue + 1) / 12 == q;
      assert SemitoneRatio(r) < SemitoneRatio(r + 1);
      assert SemitoneRatio(r) * p < SemitoneRatio(r + 1) * p;
    } else {
      assert (noteValue + 1) % 12 == 0 && (noteValue + 1) / 12 == q + 1;
      Pow2Succ(q);
      assert SemitoneRatio(r) * p < 2.0 * p;
    }
  }

  /** Higher notes have higher frequencies. */
  lemma {:induction false} NoteFreqIncreasing(lower: int, higher: int)
    requires lower < higher
    ensures NoteFreq(lower) < NoteFreq(higher)
    decreases higher - lower
  {
    NoteFreqStep(lower);
    if lower + 1 < higher {
      NoteFreqIncreasing(lower + 1, higher);
    }
  }

  /** Middle C, note 60, sounds at about 261.63 Hz. */
  lemma MiddleCFreq()
    ensures NoteFreq(60) == 261.6255652992
  {
    assert Pow2(5) == 32.0 by {
      assert Pow2(1) == 2.0;
      assert Pow2(2) == 4.0;
      assert Pow2(3) == 8.0;
      assert Pow2(4) == 16.0;
    }
  }

  /**
    An event object. `ToneEvent` and `RestEvent` are the two kinds of
    `SongEvent`; only a tone has a pitch.
  */
  class SongEvent {
    var timeSeconds: real
    var durationSeconds: real
    var pitch: real
    const isTone: bool

    /** `ToneEvent(double, double, double)`: time and duration go to the base event. */
    constructor ToneEvent(timeSeconds: real, durationSeconds: real, pitch: real)
      ensures isTone
      ensures this.timeSeconds == timeSeconds && this.durationSeconds == durationSeconds
      ensures this.pitch == pitch
    {
      this.timeSeconds := timeSeconds;
      this.durationSeconds := durationSeconds;
      this.pitch := pitch;
      isTone := true;
    }

    /** `RestEvent`, built by `SongEvent(double, double)`. */
    constructor RestEvent(timeSeconds: real, durationSeconds: real)
      ensures !isTone
      ensures this.timeSeconds == timeSeconds && this.durationSeconds == durationSeconds
    {
      this.timeSeconds := timeSeconds;
      this.durationSeconds := durationSeconds;
      pitch := 0.0;
      isTone := false;
    }

    function GetTimeSeconds(): (r: real)
      reads this
      ensures r == timeSeconds
    {
      timeSeconds
    }

    method SetTimeSeconds(timeSeconds: real)
      modifies this
      ensures this.timeSeconds == timeSeconds
      ensures durationSeconds == old(durationSeconds) && pitch == old(pitch)
    {
      this.timeSeconds := timeSeconds;
    }

    function GetDurationSeconds(): (r: real)
      reads this
      ensures r == durationSeconds
    {
      durationSeconds
    }

    method SetDurationSeconds(durationSeconds: real)
      modifies this
      ensures this.durationSeconds == durationSeconds
      ensures timeSeconds == old(timeSeconds) && pitch == old(pitch)
    {
      this.durationSeconds := durationSeconds;
    }

    function GetPitch(): (r: real)
      requires isTone
      reads this
      ensures r == pitch
    {
      pitch
    }

    method SetPitch(pitch: real)
      requires isTone
      modifies this
      ensures this.pitch == pitch
      ensures timeSeconds == old(timeSeconds) && durationSeconds == old(durationSeconds)
    {
      this.pitch := pitch;
    }

    function Value(): (e: Event)
      reads this
      ensures e.Tone? == isTone
      ensures e.time == timeSeconds && e.duration == durationSeconds
      ensures isTone ==> e.pitch == pitch
    {
      if isTone then Tone(timeSeconds, durationSeconds, pitch) else Rest(timeSeconds, durationSeconds)
    }
  }

  /** The values of a list of event objects, in order. */
  function EventValues(es: seq<SongEvent>): (vs: seq<Event>)
    reads es
    ensures |vs| == |es|
    ensures forall k :: 0 <= k < |es| ==> vs[k] == es[k].Value()
  {
    if es == [] then [] else EventValues(es[..|es| - 1]) + [es[|es| - 1].Value()]
  }

  class Song {
    var tones: seq<SongEvent>
    var errors: seq<string>
    var currLengthSec: real
    var selectionStartTimeSec: real
    var selectionEndTimeSec: real

    /** A new song is empty, error-free, of length 0, with the widest selection window. */
    constructor ()
      ensures Value() == NewSong()
      ensures tones == [] && errors == []
    {
      tones := [];
      errors := [];
      currLengthSec := 0.0;
      selectionStartTimeSec := 0.0;
      selectionEndTimeSec := DOUBLE_MAX;
    }

    function Value(): SongValue
      reads this, tones
    {
      SongValue(EventValues(tones), errors, currLengthSec, selectionStartTimeSec, selectionEndTimeSec)
    }

    function GetTones(): (r: seq<SongEvent>)
      reads this
      ensures r == tones
    {
      tones
    }

    method SetTones(tones: seq<SongEvent>)
      modifies this
      ensures this.tones == tones
      ensures errors == old(errors) && currLengthSec == old(currLengthSec)
      ensures selectionStartTimeSec == old(selectionStartTimeSec)
      ensures selectionEndTimeSec == old(selectionEndTimeSec)
    {
      this.tones := tones;
    }

    function GetErrors(): (r: seq<string>)
      reads this
      ensures r == errors
    {
      errors
    }

    method SetErrors(errors: seq<string>)
      modifies this
      ensures this.errors == errors
      ensures tones == old(tones) && currLengthSec == old(currLengthSec)
      ensures selectionStartTimeSec == old(selectionStartTimeSec)
      ensures selectionEndTimeSec == old(selectionEndTimeSec)
    {
      this.errors := errors;
    }

    /** `addTone(double freq, double secDuration)`: a tone at the current length. */
    method AddToneFreq(freq: real, secDuration: real)
      modifies this
      ensures |tones| == |old(tones)| + 1 && tones[..|old(tones)|] == old(tones)
      ensures fresh(tones[|tones| - 1])
      ensures tones[|tones| - 1].Value() == Tone(old(currLengthSec), secDuration, freq)
      ensures Value() == old(Value()).WithTone(freq, secDuration)
    {
      var e := new SongEvent.ToneEvent(currLengthSec, secDuration, freq);
      tones := tones + [e];
      assert tones[..|tones| - 1] == old(tones);
      IncrementLength(secDuration);
    }

    /** `addTone(int noteValue, double secDuration)`: the note's frequency is stored. */
    method AddToneNote(noteValue: int, secDuration: real)
      modifies this
      ensures |tones| == |old(tones)| + 1 && tones[..|old(tones)|] == old(tones)
      ensures fresh(tones[|tones| - 1])
      ensures tones[|tones| - 1].Value() == Tone(old(currLengthSec), secDuration, NoteFreq(noteValue))
      ensures Value() == old(Value()).WithTone(NoteFreq(noteValue), secDuration)
    {
      var e := new SongEvent.ToneEvent(currLengthSec, secDuration, NoteFreq(noteValue));
      tones := tones + [e];
      assert tones[..|tones| - 1] == old(tones);
      IncrementLength(secDuration);
    }

    /** `addRest(double secDuration)`: a rest, with no pitch, at the current length. */
    method AddRest(secDuration: real)
      modifies this
      ensures |tones| == |old(tones)| + 1 && tones[..|old(tones)|] == old(tones)
      ensures fresh(tones[|tones| - 1])
      ensures tones[|tones| - 1].Value() == Rest(old(currLengthSec), secDuration)
      ensures Value() == old(Value()).WithRest(secDuration)
    {
      var e := new SongEvent.RestEvent(currLengthSec, secDuration);
      tones := tones + [e];
      assert tones[..|tones| - 1] == old(tones);
      IncrementLength(secDuration);
    }

    /** `addTone(int, double wholeNoteDuration, double tempoBPM)`. */
    method AddToneTempo(noteValue: int, wholeNoteDuration: real, tempoBPM: real)
      modifies this
      ensures |tones| == |old(tones)| + 1 && tones[..|old(tones)|] == old(tones)
      ensures fresh(tones[|tones| - 1])
      ensures Value() == old(Value()).WithTone(NoteFreq(noteValue), TempoSeconds(wholeNoteDuration, tempoBPM))
    {
      var freq := NoteFreq(noteValue);
      var quarterNoteDuration := wholeNoteDuration * 4.0;
      var tempoSecPerQuarterNote := DoubleDiv(1.0, tempoBPM * DoubleDiv(1.0, 60.0));
      var noteDurationSec := quarterNoteDuration * tempoSecPerQuarterNote;
      assert noteDurationSec == TempoSeconds(wholeNoteDuration, tempoBPM);
      var e := new SongEvent.ToneEvent(currLengthSec, noteDurationSec, freq);
      tones := tones + [e];
      assert tones[..|tones| - 1] == old(tones);
      IncrementLength(noteDurationSec);
    }

    /** `addRest(double wholeNoteDuration, double tempoBPM)`. */
    method AddRestTempo(wholeNoteDuration: real, tempoBPM: real)
      modifies this
      ensures |tones| == |old(tones)| + 1 && tones[..|old(tones)|] == old(tones)
      ensures fresh(tones[|tones| - 1])
      ensures Value() == old(Value()).WithRest(TempoSeconds(wholeNoteDuration, tempoBPM))
    {
      var quarterNoteDuration := wholeNoteDuration * 4.0;
      var tempoSecPerQuarterNote := DoubleDiv(1.0, tempoBPM * DoubleDiv(1.0, 60.0));
      var noteDurationSec := quarterNoteDuration * tempoSecPerQuarterNote;
      assert noteDurationSec == TempoSeconds(wholeNoteDuration, tempoBPM);
      var e := new SongEvent.RestEvent(currLengthSec, noteDurationSec);
      tones := tones + [e];
      assert tones[..|tones| - 1] == old(tones);
      IncrementLength(noteDurationSec);
    }

    method IncrementLength(noteDurationSec: real)
      modifies this
      ensures currLengthSec == old(currLengthSec) + noteDurationSec
      ensures tones == old(tones) && errors == old(errors)
      ensures selectionStartTimeSec == old(selectionStartTimeSec)
      ensures selectionEndTimeSec == old(selectionEndTimeSec)
    {
      currLengthSec := currLengthSec + noteDurationSec;
    }

    function GetCurrLengthSec(): (r: real)
      reads this
      ensures r == currLengthSec
    {
      currLengthSec
    }

    method SetCurrLengthSec(currLengthSec: real)
      modifies this
      ensures this.currLengthSec == currLengthSec
      ensures tones == old(tones) && errors == old(errors)
      ensures selectionStartTimeSec == old(selectionStartTimeSec)
      ensures selectionEndTimeSec == old(selectionEndTimeSec)
    {
      this.currLengthSec := currLengthSec;
    }

    function GetSelectionStartTimeSec(): (r: real)
      reads this
      ensures r == selectionStartTimeSec
    {
      selectionStartTimeSec
    }

    method SetSelectionStartTimeSec(selectionStartTimeSec: real)
      modifies this
      ensures this.selectionStartTimeSec == selectionStartTimeSec
      ensures tones == old(tones) && errors == old(errors) && currLengthSec == old(currLengthSec)
      ensures selectionEndTimeSec == old(selectionEndTimeSec)
    {
      this.selectionStartTimeSec := selectionStartTimeSec;
    }

    function GetSelectionEndTimeSec(): (r: real)
      reads this
      ensures r == selectionEndTimeSec
    {
      selectionEndTimeSec
    }

    method SetSelectionEndTimeSec(selectionEndTimeSec: real)
      modifies this
      ensures this.selectionEndTimeSec == selectionEndTimeSec
      ensures tones == old(tones) && errors == old(errors) && currLengthSec == old(currLengthSec)
      ensures selectionStartTimeSec == old(selectionStartTimeSec)
    {
      this.selectionEndTimeSec := selectionEndTimeSec;
    }
  }
}
