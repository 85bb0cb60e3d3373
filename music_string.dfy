/**
  The meaning of MusicString text, as functions: the token shapes the
  compiler accepts, what each kind of token does to the compiler's state
  (transposition, key signature, tempo and its ramp, the beat and
  millisecond clock) and to the song, and the fail-fast run over all the
  words of the text. The `MusicStringSongCompiler` class is proved to
  compute exactly this.
*/
module MusicString {
  import opened JavaLang
  import opened Tokens
  import opened Songs
  import opened Lexing

  /** The compiler's fields, as one value. */
  datatype CompilerState = CompilerState(
    tran: int,
    timeBeat: real,
    timeMS: real,
    tempo: real,
    rampStart: real,
    rampLength: real,
    rampInitial: real,
    rampFinal: real,
    keySig: int,
    selectionStart: int,
    selectionEnd: int)

  /** The state every compilation starts from: 120 BPM and everything else 0. */
  function Reset(selectionStart: int, selectionEnd: int): CompilerState {
    CompilerState(0, 0.0, 0.0, 120.0, 0.0, 0.0, 0.0, 0.0, 0, selectionStart, selectionEnd)
  }

  // ---------------------------------------------------------------- durations

  const DURATION_LETTERS: string := "whqistxo"

  predicate IsDurationLetter(c: char) {
    c in DURATION_LETTERS
  }

  /** The letter at index `i` of "whqistxo" is 1 / 2^i of a whole note. */
  function LetterDuration(c: char): (d: real)
    requires IsDurationLetter(c)
    ensures 0.0 < d <= 1.0
  {
    var p := Pow2Nat(IndexOf(DURATION_LETTERS, c)) as real;
    assert p >= 1.0;
    1.0 / p
  }

  /** What the character at `k` adds to a duration: its letter's value, half again when a `.` follows. */
  function Contribution(s: string, k: nat): (d: real)
    requires k < |s|
    ensures d >= 0.0
  {
    if !IsDurationLetter(s[k]) then 0.0
    else if k + 1 < |s| && s[k + 1] == '.' then LetterDuration(s[k]) * 1.5
    else LetterDuration(s[k])
  }

  /** The sum of the contributions of the characters from `i` on. */
  function DurationsFrom(s: string, i: nat): (d: real)
    requires i <= |s|
    ensures d >= 0.0
    decreases |s| - i
  {
    if i == |s| then 0.0 else Contribution(s, i) + DurationsFrom(s, i + 1)
  }

  /** Where a scan over durations resumes after the character at `i`: past a `.` that follows a letter. */
  function DurationStepEnd(s: string, i: nat): (j: nat)
    requires i < |s|
    ensures i < j <= |s|
  {
    if IsDurationLetter(s[i]) && i + 1 < |s| && s[i + 1] == '.' then i + 2 else i + 1
  }

  /** One step of a left-to-right scan: the character at `i` (with its dot) and then the rest. */
  lemma DurationsFromStep(s: string, i: nat)
    requires i < |s|
    ensures DurationsFrom(s, i) == Contribution(s, i) + DurationsFrom(s, DurationStepEnd(s, i))
  {
    if DurationStepEnd(s, i) == i + 2 {
      assert !IsDurationLetter(s[i + 1]);
      assert DurationsFrom(s, i + 1) == Contribution(s, i + 1) + DurationsFrom(s, i + 2);
    }
  }

  /** Whether `*` occurs among the first `n + 1` characters, from the first `n`. */
  lemma StarBeforeStep(s: string, n: nat)
    requires n < |s|
    ensures StarBefore(s, n + 1) == (StarBefore(s, n) || s[n] == '*')
  {
    assert s[..n + 1] == s[..n] + [s[n]];
  }

  /** `([whqistxo]\.?)*`: duration letters, each optionally dotted. */
  predicate MatchesDurations(s: string)
    decreases |s|
  {
    s == [] || (IsDurationLetter(s[0]) && (if |s| > 1 && s[1] == '.' then MatchesDurations(s[2..]) else MatchesDurations(s[1..])))
  }

  /** The value of a duration string read group by group: letters sum, a dotted letter counts 1.5 times. */
  function GroupsValue(s: string): real
    requires MatchesDurations(s)
    decreases |s|
  {
    if s == [] then 0.0
    else if |s| > 1 && s[1] == '.' then LetterDuration(s[0]) * 1.5 + GroupsValue(s[2..])
    else LetterDuration(s[0]) + GroupsValue(s[1..])
  }

  lemma {:induction false} DurationsFromShift(s: string, i: nat, j: nat)
    requires i <= j <= |s|
    ensures DurationsFrom(s, j) == DurationsFrom(s[i..], j - i)
    decreases |s| - j
  {
    if j < |s| {
      DurationsFromShift(s, i, j + 1);
      assert Contribution(s, j) == Contribution(s[i..], j - i);
    }
  }

  /** A dotted letter first: half again its value, then the rest. */
  lemma DurationsFromDotted(s: string)
    requires |s| > 1 && IsDurationLetter(s[0]) && s[1] == '.'
    ensures DurationsFrom(s, 0) == LetterDuration(s[0]) * 1.5 + DurationsFrom(s[2..], 0)
  {
    DurationsFromStep(s, 0);
    DurationsFromShift(s, 2, 2);
  }

  /** An undotted letter first: its value, then the rest. */
  lemma DurationsFromPlain(s: string)
    requires |s| > 0 && IsDurationLetter(s[0]) && !(|s| > 1 && s[1] == '.')
    ensures DurationsFrom(s, 0) == LetterDuration(s[0]) + DurationsFrom(s[1..], 0)
  {
    DurationsFromShift(s, 1, 1);
  }

  /** The per-character scan adds up exactly the groups of a duration string. */
  lemma {:induction false} DurationsFromGroups(s: string)
    requires MatchesDurations(s)
    ensures DurationsFrom(s, 0) == GroupsValue(s)
    decreases |s|
  {
    if s != [] {
      if |s| > 1 && s[1] == '.' {
        DurationsFromGroups(s[2..]);
        DurationsFromDotted(s);
      } else {
        DurationsFromGroups(s[1..]);
        DurationsFromPlain(s);
      }
    }
  }

  /** A half note is 1/2 of a whole note. */
  lemma HalfLetter()
    ensures IsDurationLetter('h') && LetterDuration('h') == 0.5
  {
    assert DURATION_LETTERS[1] == 'h';
    assert IndexOf(DURATION_LETTERS, 'h') == 1;
  }

  /** A quarter note is 1/4 of a whole note. */
  lemma QuarterLetter()
    ensures IsDurationLetter('q') && LetterDuration('q') == 0.25
  {
    assert DURATION_LETTERS[2] == 'q';
    assert IndexOf(DURATION_LETTERS, 'q') == 2;
    assert Pow2Nat(2) == 4;
  }

  /** A dotted quarter is 3/8 of a whole note. */
  lemma DottedQuarterExample()
    ensures DurationsFrom("q.", 0) == 0.375
  {
    var s := "q.";
    QuarterLetter();
    assert !IsDurationLetter(s[1]);
    assert DurationsFrom(s, 1) == 0.0;
    assert Contribution(s, 0) == 0.25 * 1.5;
  }

  /** A half and a quarter make 3/4 of a whole note. */
  lemma HalfQuarterExample()
    ensures DurationsFrom("hq", 0) == 0.75
  {
    var s := "hq";
    HalfLetter();
    QuarterLetter();
    assert Contribution(s, 1) == 0.25;
    assert Contribution(s, 0) == 0.5;
  }

  // ---------------------------------------------------------------- token shapes

  /** `([whqistxo]\.?)*[*]?`, then `[!]?` where `bang` allows it. */
  predicate MatchesDurationTail(s: string, bang: bool) {
    var s1 := if bang && |s| > 0 && s[|s| - 1] == '!' then s[..|s| - 1] else s;
    var s2 := if |s1| > 0 && s1[|s1| - 1] == '*' then s1[..|s1| - 1] else s1;
    MatchesDurations(s2)
  }

  predicate IsNoteLetter(c: char) {
    'a' <= c <= 'g'
  }

  predicate IsModifier(c: char) {
    c == '#' || c == 'b' || c == 'n'
  }

  /** `[abcdefg][#bn]?[\d]?([whqistxo]\.?)*[\*]?[!]?` */
  predicate MatchesNoteModifierFirst(s: string) {
    |s| >= 1 && IsNoteLetter(s[0]) &&
    var i := if |s| > 1 && IsModifier(s[1]) then 2 else 1;
    var j := if |s| > i && IsDigit(s[i]) then i + 1 else i;
    MatchesDurationTail(s[j..], true)
  }

  /** `[abcdefg][\d]?[#bn]?([whqistxo]\.?)*[\*]?[!]?` */
  predicate MatchesNoteOctaveFirst(s: string) {
    |s| >= 1 && IsNoteLetter(s[0]) &&
    var i := if |s| > 1 && IsDigit(s[1]) then 2 else 1;
    var j := if |s| > i && IsModifier(s[i]) then i + 1 else i;
    MatchesDurationTail(s[j..], true)
  }

  /** `r([whqistxo]\.?)*[\*]?` */
  predicate MatchesRest(s: string) {
    |s| >= 1 && s[0] == 'r' && MatchesDurationTail(s[1..], false)
  }

  /** The note and rest shapes `processNote` accepts (on the lower-cased text). */
  predicate IsNoteToken(s: string) {
    MatchesNoteModifierFirst(s) || MatchesNoteOctaveFirst(s) || MatchesRest(s)
  }

  /** The end of the run of digits that starts at `i`. */
  function DigitRunEnd(s: string, i: nat): (e: nat)
    requires i <= |s|
    ensures i <= e <= |s|
    ensures forall k :: i <= k < e ==> IsDigit(s[k])
    ensures e < |s| ==> !IsDigit(s[e])
    decreases |s| - i
  {
    if i == |s| || !IsDigit(s[i]) then i else DigitRunEnd(s, i + 1)
  }

  /** `t[\+-]?\d+([whqistxo]\.?)*[\*]?` */
  predicate IsTempoToken(s: string) {
    |s| >= 1 && s[0] == 't' &&
    var i := if |s| > 1 && (s[1] == '+' || s[1] == '-') then 2 else 1;
    var e := DigitRunEnd(s, i);
    i < e && MatchesDurationTail(s[e..], false)
  }

  /** `tran[\+-]?\d+` or `tranreset` */
  predicate IsTranToken(s: string) {
    s == "tranreset"
    || (|s| > 4 && s[..4] == "tran" &&
        var i := if s[4] == '+' || s[4] == '-' then 5 else 4;
        i < |s| && AllDigits(s[i..]))
  }

  predicate StartsWithTran(s: string) {
    |s| >= 4 && s[..4] == "tran"
  }

  // ---------------------------------------------------------------- pitch

  /** The note letters c, d, e, f, g, a, b are 0, 2, 4, 5, 7, 9, 11; anything else 0. */
  function LetterPitch(c: char): int {
    match c
    case 'c' => 0
    case 'd' => 2
    case 'e' => 4
    case 'f' => 5
    case 'g' => 7
    case 'a' => 9
    case 'b' => 11
    case _ => 0
  }

  /** What the character loop of `processNote` has gathered, apart from the duration. */
  datatype NoteScan = NoteScan(noteValue: int, accidental: bool, triplet: bool, tremolo: bool, octave: int)

  /** The effect of the character at `k`: flat, natural, sharp, triplet, tremolo, octave digit. */
  function ScanChar(sc: NoteScan, c: char): NoteScan {
    var sc1 :=
      if c == 'b' then sc.(noteValue := sc.noteValue - 1, accidental := true)
      else if c == 'n' then sc.(accidental := true)
      else if c == '#' then sc.(noteValue := sc.noteValue + 1, accidental := true)
      else if c == '*' then sc.(triplet := true)
      else if c == '!' then sc.(tremolo := true)
      else sc;
    if IsDigit(c) then sc1.(octave := DigitValue(c)) else sc1
  }

  /** A `.` (the dot after a duration letter) changes nothing in the scan. */
  lemma ScanNoteDot(s: string, n: nat)
    requires 1 <= n < |s| && s[n] == '.'
    ensures ScanNote(s, n + 1) == ScanNote(s, n)
  {
  }

  /** The scan of the characters from index 1 up to `n`; index 0 gives the letter's pitch. */
  function ScanNote(s: string, n: nat): NoteScan
    requires 1 <= n <= |s|
  {
    if n == 1 then NoteScan(LetterPitch(s[0]), false, false, false, -1)
    else ScanChar(ScanNote(s, n - 1), s[n - 1])
  }

  const FLAT_ORDER: seq<int> := [11, 4, 9, 2, 7, 0, 5]
  const SHARP_ORDER: seq<int> := [5, 0, 7, 2, 9, 4, 11]

  /**
    The key signature's adjustment of an unaltered note, one test per
    pitch class, in the order the compiler makes them (Java's `%`).
  */
  function KeyAdjust(n: int, keySig: int): int {
    KeySharpen(KeyFlatten(n, keySig), keySig)
  }

  /** One test: when `applies` holds and the note is of pitch class `pitchClass` (Java's `%`), shift it by `delta`. */
  function KeyTest(n: int, applies: bool, pitchClass: int, delta: int): int {
    if applies && JavaRem(n, 12) == pitchClass then n + delta else n
  }

  /** The seven flat tests, B first, each on the result of the one before. */
  function KeyFlatten(n: int, keySig: int): int {
    var n1 := KeyTest(n, keySig <= -1, 11, -1);
    var n2 := KeyTest(n1, keySig <= -2, 4, -1);
    var n3 := KeyTest(n2, keySig <= -3, 9, -1);
    var n4 := KeyTest(n3, keySig <= -4, 2, -1);
    var n5 := KeyTest(n4, keySig <= -5, 7, -1);
    var n6 := KeyTest(n5, keySig <= -6, 0, -1);
    KeyTest(n6, keySig <= -7, 5, -1)
  }

  /** The seven sharp tests, F first, each on the result of the one before. */
  function KeySharpen(n: int, keySig: int): int {
    var n1 := KeyTest(n, keySig >= 1, 5, 1);
    var n2 := KeyTest(n1, keySig >= 2, 0, 1);
    var n3 := KeyTest(n2, keySig >= 3, 7, 1);
    var n4 := KeyTest(n3, keySig >= 4, 2, 1);
    var n5 := KeyTest(n4, keySig >= 5, 9, 1);
    var n6 := KeyTest(n5, keySig >= 6, 4, 1);
    KeyTest(n6, keySig >= 7, 11, 1)
  }

  /** The position of a pitch class in the order of flats B, E, A, D, G, C, F; 7 if it is none of them. */
  function FlatRank(n: int): (r: nat)
    ensures r < 7 ==> FLAT_ORDER[r] == n
    ensures r == 7 ==> n !in FLAT_ORDER
  {
    match n
    case 11 => 0
    case 4 => 1
    case 9 => 2
    case 2 => 3
    case 7 => 4
    case 0 => 5
    case 5 => 6
    case _ => 7
  }

  /** The position of a pitch class in the order of sharps F, C, G, D, A, E, B; 7 if it is none of them. */
  function SharpRank(n: int): (r: nat)
    ensures r < 7 ==> SHARP_ORDER[r] == n
    ensures r == 7 ==> n !in SHARP_ORDER
  {
    match n
    case 5 => 0
    case 0 => 1
    case 7 => 2
    case 2 => 3
    case 9 => 4
    case 4 => 5
    case 11 => 6
    case _ => 7
  }

  /**
    A key signature of k < 0 lowers the first |k| of B, E, A, D, G, C, F by a
    semitone, one of k > 0 raises the first k of F, C, G, D, A, E, B, and no
    other pitch class moves.
  */
  lemma KeyAdjustReference(n: int, keySig: int)
    requires 0 <= n < 12
    ensures KeyAdjust(n, keySig) ==
      if FlatRank(n) < 7 && FlatRank(n) < -keySig then n - 1
      else if SharpRank(n) < 7 && SharpRank(n) < keySig then n + 1
      else n
  {
    forall m | -1 <= m <= 12
      ensures JavaRem(m, 12) == if m == 12 then 0 else m
    {
    }
    if n == 0 {
      assert FlatRank(0) == 5 && SharpRank(0) == 1;
    } else if n == 1 {
      assert FlatRank(1) == 7 && SharpRank(1) == 7;
    } else if n == 2 {
      assert FlatRank(2) == 3 && SharpRank(2) == 3;
    } else if n == 3 {
      assert FlatRank(3) == 7 && SharpRank(3) == 7;
    } else if n == 4 {
      assert FlatRank(4) == 1 && SharpRank(4) == 5;
    } else if n == 5 {
      assert FlatRank(5) == 6 && SharpRank(5) == 0;
    } else if n == 6 {
      assert FlatRank(6) == 7 && SharpRank(6) == 7;
    } else if n == 7 {
      assert FlatRank(7) == 4 && SharpRank(7) == 2;
    } else if n == 8 {
      assert FlatRank(8) == 7 && SharpRank(8) == 7;
    } else if n == 9 {
      assert FlatRank(9) == 2 && SharpRank(9) == 4;
    } else if n == 10 {
      assert FlatRank(10) == 7 && SharpRank(10) == 7;
    } else {
      assert FlatRank(11) == 0 && SharpRank(11) == 6;
    }
  }

  /** No note moves more than one semitone. */
  lemma KeyAdjustBounded(n: int, keySig: int)
    requires 0 <= n < 12
    ensures -1 <= KeyAdjust(n, keySig) - n <= 1
  {
    KeyAdjustReference(n, keySig);
  }

  // ---------------------------------------------------------------- clock

  function MinReal(a: real, b: real): real {
    if a <= b then a else b
  }

  /** The beat at which the current tempo ramp ends. */
  function RampEnd(st: CompilerState): real {
    st.rampStart + st.rampLength
  }

  /**
    Minutes taken from the start of a ramp to `beat`, with seconds per beat
    changing linearly from 1/initialTempo to 1/finalTempo over `beatLength`
    beats (up to an additive constant).
  */
  function IntegralTerm(beat: real, beatLength: real, initialTempo: real, finalTempo: real): real {
    DoubleDiv(beat, initialTempo)
    + DoubleDiv(DoubleDiv(1.0, finalTempo) - DoubleDiv(1.0, initialTempo), 2.0 * beatLength) * beat * beat
  }

  /**
    `incrementCurrTime`: the part of `beats` inside the ramp is timed by the
    ramp's integral, the part after it at the current tempo. Returns the new
    state and the milliseconds the clock moved.
  */
  function Advance(st: CompilerState, beats: real): (r: (CompilerState, real))
    ensures r.0.timeBeat == st.timeBeat + beats
    ensures r.1 == r.0.timeMS - st.timeMS
    ensures r.0 == st.(timeBeat := r.0.timeBeat, timeMS := r.0.timeMS)
  {
    var inRamp := st.timeBeat < RampEnd(st);
    var endBeat := MinReal(st.timeBeat + beats, RampEnd(st));
    var minutesOfBeats :=
      IntegralTerm(endBeat - st.rampStart, st.rampLength, st.rampInitial, st.rampFinal)
      - IntegralTerm(st.timeBeat - st.rampStart, st.rampLength, st.rampInitial, st.rampFinal);
    var ms1 := if inRamp then st.timeMS + minutesOfBeats * 60.0 * 1000.0 else st.timeMS;
    var beatsAtConstantTempo := if inRamp then (st.timeBeat + beats) - RampEnd(st) else beats;
    var ms2 :=
      if beatsAtConstantTempo > 0.0 then ms1 + beatsAtConstantTempo * DoubleDiv(1.0, st.tempo) * 60.0 * 1000.0
      else ms1;
    (st.(timeMS := ms2, timeBeat := st.timeBeat + beats), ms2 - st.timeMS)
  }

  /** Once the ramp is over (or none was installed), `beats` take beats * 60000 / tempo ms. */
  lemma AdvanceAfterRamp(st: CompilerState, beats: real)
    requires st.timeBeat >= RampEnd(st)
    requires beats > 0.0 && st.tempo != 0.0
    ensures Advance(st, beats).1 == beats * 60000.0 / st.tempo
  {
  }

  /** With equal initial and final tempo the integral is just beat / tempo. */
  lemma IntegralTermConstant(beat: real, beatLength: real, tempo: real)
    requires tempo != 0.0
    ensures IntegralTerm(beat, beatLength, tempo, tempo) == beat / tempo
  {
  }

  /** A whole ramp of L beats takes L * (1/initial + 1/final) / 2 minutes. */
  lemma RampTotal(beatLength: real, initialTempo: real, finalTempo: real)
    requires beatLength > 0.0 && initialTempo != 0.0 && finalTempo != 0.0
    ensures IntegralTerm(beatLength, beatLength, initialTempo, finalTempo) - IntegralTerm(0.0, beatLength, initialTempo, finalTempo)
            == beatLength * (1.0 / initialTempo + 1.0 / finalTempo) / 2.0
  {
    var c := (1.0 / finalTempo - 1.0 / initialTempo) / (2.0 * beatLength);
    assert c * beatLength * beatLength == (1.0 / finalTempo - 1.0 / initialTempo) * beatLength / 2.0;
  }

  /** A ramp from 60 to 120 BPM over four beats takes three seconds. */
  lemma RampExample()
    ensures (IntegralTerm(4.0, 4.0, 60.0, 120.0) - IntegralTerm(0.0, 4.0, 60.0, 120.0)) * 60.0 * 1000.0 == 3000.0
  {
    RampTotal(4.0, 60.0, 120.0);
  }

  /** The milliseconds `Advance` spends inside the ramp, from `from` up to `to` beats. */
  function RampMS(st: CompilerState, from: real, to: real): real {
    (IntegralTerm(to - st.rampStart, st.rampLength, st.rampInitial, st.rampFinal)
     - IntegralTerm(from - st.rampStart, st.rampLength, st.rampInitial, st.rampFinal)) * 60.0 * 1000.0
  }

  /** Milliseconds per beat at the current tempo. */
  function BeatMS(st: CompilerState): real {
    DoubleDiv(1.0, st.tempo) * 60.0 * 1000.0
  }

  /** `Advance` after the ramp: every beat at the current tempo. */
  lemma AdvanceAfter(st: CompilerState, beats: real)
    requires beats >= 0.0 && st.timeBeat >= RampEnd(st)
    ensures Advance(st, beats).0.timeMS == st.timeMS + beats * BeatMS(st)
  {
  }

  /** `Advance` across the ramp's end: the rest of the ramp, then the beats after it. */
  lemma AdvanceCrossing(st: CompilerState, beats: real)
    requires st.timeBeat < RampEnd(st) <= st.timeBeat + beats
    ensures Advance(st, beats).0.timeMS
            == st.timeMS + RampMS(st, st.timeBeat, RampEnd(st)) + (st.timeBeat + beats - RampEnd(st)) * BeatMS(st)
  {
    assert MinReal(st.timeBeat + beats, RampEnd(st)) == RampEnd(st);
  }

  /** `Advance` inside the ramp: only the ramp's integral. */
  lemma AdvanceInside(st: CompilerState, beats: real)
    requires beats >= 0.0 && st.timeBeat + beats < RampEnd(st)
    ensures Advance(st, beats).0.timeMS == st.timeMS + RampMS(st, st.timeBeat, st.timeBeat + beats)
  {
    assert MinReal(st.timeBeat + beats, RampEnd(st)) == st.timeBeat + beats;
  }

  /**
    Advancing the clock by `a` and then by `b` beats ends where advancing it by
    `a + b` at once does: the clock does not depend on how the beats are cut up.
  */
  lemma AdvanceAdditive(st: CompilerState, a: real, b: real)
    requires a >= 0.0 && b >= 0.0
    ensures Advance(Advance(st, a).0, b).0 == Advance(st, a + b).0
  {
    if st.timeBeat >= RampEnd(st) {
      AdditiveAfterRamp(st, a, b);
    } else if st.timeBeat + a >= RampEnd(st) {
      AdditiveCrossing(st, a, b);
    } else if st.timeBeat + a + b < RampEnd(st) {
      AdditiveInsideRamp(st, a, b);
    } else {
      AdditiveLeavingRamp(st, a, b);
    }
  }

  lemma AdditiveAfterRamp(st: CompilerState, a: real, b: real)
    requires a >= 0.0 && b >= 0.0 && st.timeBeat >= RampEnd(st)
    ensures Advance(Advance(st, a).0, b).0.timeMS == Advance(st, a + b).0.timeMS
  {
    var s1 := Advance(st, a).0;
    var k := BeatMS(st);
    AdvanceAfter(st, a);
    AdvanceAfter(s1, b);
    AdvanceAfter(st, a + b);
    assert a * k + b * k == (a + b) * k;
  }

  lemma AdditiveCrossing(st: CompilerState, a: real, b: real)
    requires a >= 0.0 && b >= 0.0 && st.timeBeat < RampEnd(st) <= st.timeBeat + a
    ensures Advance(Advance(st, a).0, b).0.timeMS == Advance(st, a + b).0.timeMS
  {
    var s1 := Advance(st, a).0;
    var E, t, k := RampEnd(st), st.timeBeat, BeatMS(st);
    var R := RampMS(st, t, E);
    AdvanceCrossing(st, a);
    assert RampEnd(s1) == E && BeatMS(s1) == k;
    AdvanceAfter(s1, b);
    AdvanceCrossing(st, a + b);
    SumTimes(t + a - E, b, k);
  }

  lemma AdditiveInsideRamp(st: CompilerState, a: real, b: real)
    requires a >= 0.0 && b >= 0.0 && st.timeBeat + a + b < RampEnd(st)
    ensures Advance(Advance(st, a).0, b).0.timeMS == Advance(st, a + b).0.timeMS
  {
    var s1 := Advance(st, a).0;
    var t := st.timeBeat;
    AdvanceInside(st, a);
    AdvanceInside(s1, b);
    AdvanceInside(st, a + b);
    assert RampMS(s1, t + a, t + a + b) == RampMS(st, t + a, t + a + b);
    RampMSSplit(st, t, t + a, t + a + b);
  }

  lemma AdditiveLeavingRamp(st: CompilerState, a: real, b: real)
    requires a >= 0.0 && b >= 0.0 && st.timeBeat + a < RampEnd(st) <= st.timeBeat + a + b
    ensures Advance(Advance(st, a).0, b).0.timeMS == Advance(st, a + b).0.timeMS
  {
    var s1 := Advance(st, a).0;
    var E, t, k := RampEnd(st), st.timeBeat, BeatMS(st);
    AdvanceInside(st, a);
    assert RampEnd(s1) == E && BeatMS(s1) == k;
    assert RampMS(s1, t + a, E) == RampMS(st, t + a, E);
    AdvanceCrossing(s1, b);
    AdvanceCrossing(st, a + b);
    RampMSSplit(st, t, t + a, E);
  }

  /** Distributivity, stated once so the clock lemmas need not search for it. */
  lemma SumTimes(u: real, v: real, k: real)
    ensures u * k + v * k == (u + v) * k
  {
  }

  lemma RampMSSplit(st: CompilerState, x: real, y: real, z: real)
    ensures RampMS(st, x, y) + RampMS(st, y, z) == RampMS(st, x, z)
  {
  }

  // ---------------------------------------------------------------- token steps

  /** What a token that only touches the compiler's state does: update it, reject the token, or throw. */
  datatype Update =
    | Updated(st: CompilerState)
    | Rejected(message: string)
    | Thrown

  /** What one token does: go on with a new state and song, stop with an error, or throw. */
  datatype StepResult =
    | Next(st: CompilerState, song: SongValue)
    | Fail(message: string)
    | Throw

  function Lift(u: Update, song: SongValue): StepResult {
    match u
    case Updated(st) => Next(st, song)
    case Rejected(message) => Fail(message)
    case Thrown => Throw
  }

  /** `processTranToken`, guarded by `isValidTranToken`; an `int` overflow of the amount throws. */
  function TranUpdate(st: CompilerState, lex: Lexeme): Update {
    var s := ToLower(lex.text);
    if !IsTranToken(s) then Rejected("Cannot read a \"tran\" token.")
    else if s[4..] == "reset" then Updated(st.(tran := 0))
    else match ParseInt(s[4..])
      case None => Thrown
      case Some(amount) => Updated(st.(tran := Wrap32(st.tran + amount)))
  }

  /** `processKeySig`: the lower-cased text is looked up in the key-signature table. */
  function KeySigUpdate(st: CompilerState, lex: Lexeme, keySigs: map<string, int>): Update {
    var s := ToLower(lex.text);
    if s !in keySigs then Rejected("Could not read key signature: " + lex.text)
    else Updated(st.(keySig := keySigs[s]))
  }

  /** The tempo token's text after the `t` and its optional sign. */
  function TempoBody(s: string): (b: string)
    requires IsTempoToken(s)
    ensures |b| > 0 && IsDigit(b[0])
  {
    var i := if s[1] == '+' || s[1] == '-' then 2 else 1;
    assert IsDigit(s[i]);
    s[i..]
  }

  /** The digits of a tempo token's amount. */
  function TempoDigits(s: string): (d: string)
    requires IsTempoToken(s)
    ensures |d| > 0 && AllDigits(d)
  {
    var body := TempoBody(s);
    body[..DigitRunEnd(body, 0)]
  }

  /** The rest of a tempo token from the last digit of its amount on: where its duration letters are. */
  function TempoTail(s: string): string
    requires IsTempoToken(s)
  {
    var body := TempoBody(s);
    body[DigitRunEnd(body, 0) - 1..]
  }

  /** The length of a tempo ramp in whole notes, two thirds of it when `*` occurs. */
  function TempoWhole(s: string): (w: real)
    requires IsTempoToken(s)
    ensures w >= 0.0
  {
    var tail := TempoTail(s);
    var whole := DurationsFrom(tail, 0);
    if StarBefore(tail, |tail|) then whole * (2.0 / 3.0) else whole
  }

  /** Whether `*` occurs among the first `n` characters. */
  predicate StarBefore(s: string, n: nat)
    requires n <= |s|
  {
    '*' in s[..n]
  }

  /** The new tempo: the amount itself, or the old tempo plus or minus it. */
  function NewTempo(st: CompilerState, s: string, amount: int): real
    requires |s| >= 2
  {
    if s[1] == '+' then st.tempo + amount as real
    else if s[1] == '-' then st.tempo + (-amount as real)
    else amount as real
  }

  /**
    The state after a tempo change to `tempo`: with a duration of `whole`
    whole notes, a ramp from the old tempo that starts at the current beat
    and lasts four beats per whole note; without one, any earlier ramp stays.
  */
  function TempoChange(st: CompilerState, tempo: real, whole: real): (r: CompilerState)
    ensures r.tempo == tempo
    ensures whole > 0.0 ==> r.rampStart == st.timeBeat && r.rampLength == whole * 4.0
                            && r.rampInitial == st.tempo && r.rampFinal == tempo
    ensures whole <= 0.0 ==> r == st.(tempo := tempo)
    ensures r.(tempo := st.tempo, rampStart := st.rampStart, rampLength := st.rampLength,
               rampInitial := st.rampInitial, rampFinal := st.rampFinal) == st
  {
    var st1 := st.(tempo := tempo);
    if whole > 0.0 then
      st1.(rampStart := st.timeBeat, rampLength := whole * 4.0, rampInitial := st.tempo, rampFinal := tempo)
    else st1
  }

  /**
    `processTempo`: set or shift the tempo; a duration after the amount turns
    the change into a ramp. An amount that does not fit in an `int` throws.
  */
  function TempoUpdate(st: CompilerState, lex: Lexeme): Update {
    var s := ToLower(lex.text);
    if !IsTempoToken(s) then Rejected("Cannot read tempo change: " + lex.text)
    else
      match ParseInt(TempoDigits(s))
      case None => Thrown
      case Some(amount) => Updated(TempoChange(st, NewTempo(st, s, amount), TempoWhole(s)))
  }

  /** The number of a note token, from its letter, modifiers, octave, key signature and transposition. */
  function NoteNumber(s: string, st: CompilerState): int
    requires |s| >= 1
  {
    var sc := ScanNote(s, |s|);
    var adjusted := if sc.accidental then sc.noteValue else KeyAdjust(sc.noteValue, st.keySig);
    var octave := if sc.octave == -1 then 4 else sc.octave;
    Wrap32(adjusted + (octave + 1) * 12 + st.tran)
  }

  /** The whole-note duration of a note token: 1/4 when it has no letters, 2/3 of it with `*`. */
  function NoteDuration(s: string): (r: real)
    requires |s| >= 1
    ensures r > 0.0
  {
    var whole0 := DurationsFrom(s, 1);
    var whole1 := if whole0 == 0.0 then 0.25 else whole0;
    if ScanNote(s, |s|).triplet then whole1 * (2.0 / 3.0) else whole1
  }

  function Ceil(x: real): (r: int)
    ensures x <= r as real < x + 1.0
  {
    -Floor(-x)
  }

  /**
    The tremolo loop from iteration `i` up to `n`: each sub-tone moves the
    clock by the full note's beats, and lasts that time divided by the
    number of trembles; the frequency alternates between the note's and
    1% above it.
  */
  function Tremolo(st: CompilerState, song: SongValue, freq: real, beats: real, trembles: real, i: nat, n: nat)
    : (CompilerState, SongValue)
    decreases n - i
  {
    if i >= n then (st, song)
    else
      var (st1, ms) := Advance(st, beats);
      var f := TrembleFreq(freq, i);
      Tremolo(st1, song.WithTone(f, DoubleDiv(DoubleDiv(ms, trembles), 1000.0)), freq, beats, trembles, i + 1, n)
  }

  /** The pitch of the `i`-th tremble: the note's own on even `i`, 1% above it on odd. */
  function TrembleFreq(freq: real, i: nat): real {
    freq * (1.0 + 0.01 * (i % 2) as real)
  }

  lemma TrembleAlternates(freq: real, k: nat)
    ensures TrembleFreq(freq, k) == if k % 2 == 0 then freq else freq * 1.01
  {
    if k % 2 == 0 {
      assert (k % 2) as real == 0.0;
    } else {
      assert (k % 2) as real == 1.0;
    }
  }

  /** Whether the token lies inside the selection: containment, not mere overlap. */
  predicate InSelection(st: CompilerState, lex: Lexeme) {
    lex.pos >= st.selectionStart && lex.EndPos() <= st.selectionEnd
  }

  /** What `processNote` reads from a note token before playing it. */
  datatype NoteRead = NoteRead(inSelection: bool, isRest: bool, tremolo: bool, noteValue: int, beats: real)

  /** The parts of an accepted note token; its length is `NoteDuration` whole notes of four beats. */
  function ReadNoteOf(st: CompilerState, lex: Lexeme): (n: NoteRead)
    requires IsNoteToken(ToLower(lex.text))
    ensures n.beats > 0.0
  {
    var s := ToLower(lex.text);
    NoteRead(InSelection(st, lex), s[0] == 'r', ScanNote(s, |s|).tremolo, NoteNumber(s, st), NoteDuration(s) * 4.0)
  }

  /**
    What a read note does to the clock and the song: outside the selection
    only the clock moves; a rest or a plain tone is appended with the time
    the clock moved; a tremolo becomes its run of sub-tones.
  */
  function NotePlay(st: CompilerState, song: SongValue, n: NoteRead): (CompilerState, SongValue)
    requires n.beats >= 0.0
  {
    if !n.inSelection then (Advance(st, n.beats).0, song)
    else if n.isRest then
      var (st1, ms) := Advance(st, n.beats);
      (st1, song.WithRest(ms / 1000.0))
    else if !n.tremolo then
      var (st1, ms) := Advance(st, n.beats);
      (st1, song.WithTone(NoteFreq(n.noteValue), ms / 1000.0))
    else
      var trembles := n.beats * 8.0;
      Tremolo(st, song, NoteFreq(n.noteValue), n.beats, trembles, 0, Ceil(trembles))
  }

  /** `processNote`: a note token (or rest) is read, then played. */
  function NoteStep(st: CompilerState, song: SongValue, lex: Lexeme): StepResult {
    if !IsNoteToken(ToLower(lex.text)) then Fail("Cannot read note: " + lex.text)
    else
      var r := NotePlay(st, song, ReadNoteOf(st, lex));
      Next(r.0, r.1)
  }

  function CannotReadWord(text: string): string {
    "Cannot read this word: " + text + " . Try putting a '#' in front of it."
  }

  /** The dispatch of `compile`: a "tran" prefix first, then the rest of the words. */
  function TokenStep(st: CompilerState, song: SongValue, lex: Lexeme, keySigs: map<string, int>): StepResult
    requires |lex.text| > 0
  {
    if StartsWithTran(ToLower(lex.text)) then Lift(TranUpdate(st, lex), song)
    else WordStep(st, song, lex, keySigs)
  }

  /** The `switch` on the first character: a note or rest, a key signature, a tempo, or an error. */
  function WordStep(st: CompilerState, song: SongValue, lex: Lexeme, keySigs: map<string, int>): StepResult
    requires |lex.text| > 0
  {
    var c := ToLower(lex.text)[0];
    if IsNoteLetter(c) || c == 'r' then NoteStep(st, song, lex)
    else if c == 'k' then Lift(KeySigUpdate(st, lex, keySigs), song)
    else if c == 't' then Lift(TempoUpdate(st, lex), song)
    else Fail(CannotReadWord(lex.text))
  }

  predicate AllNonEmpty(lexemes: seq<Lexeme>) {
    forall k :: 0 <= k < |lexemes| ==> |lexemes[k].text| > 0
  }

  /**
    The rest of a compilation from a given state: each token in turn until
    one fails (its error is appended and the song returned) or throws
    (the `bool` is true).
  */
  function Run(st: CompilerState, song: SongValue, lexemes: seq<Lexeme>, keySigs: map<string, int>): (SongValue, bool)
    requires AllNonEmpty(lexemes)
    decreases |lexemes|
  {
    if lexemes == [] then (song, false)
    else match TokenStep(st, song, lexemes[0], keySigs)
      case Next(st1, song1) => Run(st1, song1, lexemes[1..], keySigs)
      case Fail(message) => (song.WithError(message), false)
      case Throw => (song, true)
  }

  /** One step of `Run`: the first token's outcome decides how the run goes on. */
  lemma RunStep(st: CompilerState, song: SongValue, lexemes: seq<Lexeme>, keySigs: map<string, int>, r: StepResult)
    requires AllNonEmpty(lexemes) && lexemes != []
    requires r == TokenStep(st, song, lexemes[0], keySigs)
    ensures Run(st, song, lexemes, keySigs)
            == match r
               case Next(st1, song1) => Run(st1, song1, lexemes[1..], keySigs)
               case Fail(message) => (song.WithError(message), false)
               case Throw => (song, true)
  {
  }

  /** `compile(text, selectionStart, selectionEnd)`: a fresh state, a new song, all the words of the text. */
  function Compile(text: string, selectionStart: int, selectionEnd: int, keySigs: map<string, int>): (SongValue, bool) {
    WordsWellFormed(text, 0);
    Run(Reset(selectionStart, selectionEnd), NewSong(), Words(text, 0), keySigs)
  }

  // ---------------------------------------------------------------- properties of a run

  /** A later song value that grew from `song`: the same errors, the old events first. */
  predicate Grew(song: SongValue, later: SongValue) {
    later.errors == song.errors
    && |song.events| <= |later.events| && later.events[..|song.events|] == song.events
    && (Chained(song) ==> Chained(later))
  }

  lemma {:induction false} GrewTrans(a: SongValue, b: SongValue, c: SongValue)
    requires Grew(a, b) && Grew(b, c)
    ensures Grew(a, c)
  {
    assert c.events[..|a.events|] == c.events[..|b.events|][..|a.events|];
  }

  lemma {:induction false} WithToneGrew(song: SongValue, freq: real, secDuration: real)
    ensures Grew(song, song.WithTone(freq, secDuration))
  {
    if Chained(song) {
      WithToneChained(song, freq, secDuration);
    }
  }

  lemma {:induction false} WithRestGrew(song: SongValue, secDuration: real)
    ensures Grew(song, song.WithRest(secDuration))
  {
    if Chained(song) {
      WithRestChained(song, secDuration);
    }
  }

  /** The tremolo loop from `i` to `n` appends `n - i` events and nothing else. */
  lemma {:induction false} TremoloGrew(st: CompilerState, song: SongValue, freq: real, beats: real, trembles: real, i: nat, n: nat)
    requires i <= n
    ensures var r := Tremolo(st, song, freq, beats, trembles, i, n).1;
      Grew(song, r) && |r.events| == |song.events| + (n - i)
    decreases n - i
  {
    if i < n {
      var (st1, ms) := Advance(st, beats);
      var d := DoubleDiv(DoubleDiv(ms, trembles), 1000.0);
      var song1 := song.WithTone(TrembleFreq(freq, i), d);
      WithToneGrew(song, TrembleFreq(freq, i), d);
      TremoloGrew(st1, song1, freq, beats, trembles, i + 1, n);
      GrewTrans(song, song1, Tremolo(st1, song1, freq, beats, trembles, i + 1, n).1);
    }
  }

  /**
    Each event the tremolo loop from `i` appends is a tone, the `k`-th of
    them at `TrembleFreq(freq, i + k)`.
  */
  lemma {:induction false} TremoloPitches(st: CompilerState, song: SongValue, freq: real, beats: real, trembles: real, i: nat, n: nat)
    requires i <= n
    ensures var r := Tremolo(st, song, freq, beats, trembles, i, n).1;
      forall j :: |song.events| <= j < |r.events| ==>
        r.events[j].Tone? && r.events[j].pitch == TrembleFreq(freq, i + j - |song.events|)
    decreases n - i
  {
    if i < n {
      var (st1, ms) := Advance(st, beats);
      var d := DoubleDiv(DoubleDiv(ms, trembles), 1000.0);
      var song1 := song.WithTone(TrembleFreq(freq, i), d);
      TremoloGrew(st1, song1, freq, beats, trembles, i + 1, n);
      TremoloPitches(st1, song1, freq, beats, trembles, i + 1, n);
      var r := Tremolo(st1, song1, freq, beats, trembles, i + 1, n).1;
      assert r == Tremolo(st, song, freq, beats, trembles, i, n).1;
      forall j | |song.events| <= j < |r.events|
        ensures r.events[j].Tone? && r.events[j].pitch == TrembleFreq(freq, i + j - |song.events|)
      {
        if j == |song.events| {
          assert r.events[j] == r.events[..|song1.events|][j] == song1.events[j];
        } else {
          assert (i + 1) + j - |song1.events| == i + j - |song.events|;
        }
      }
    }
  }

  /**
    A tremolo note of `beats` beats becomes `Ceil(beats * 8)` tones that
    alternate between the note's frequency and 1% above it, starting with
    the note's own.
  */
  lemma {:induction false} TremoloNote(st: CompilerState, song: SongValue, n: NoteRead)
    requires n.inSelection && !n.isRest && n.tremolo && n.beats >= 0.0
    ensures var r := NotePlay(st, song, n).1;
      var count := Ceil(n.beats * 8.0);
      var freq := NoteFreq(n.noteValue);
      && Grew(song, r)
      && |r.events| == |song.events| + count
      && forall j :: |song.events| <= j < |r.events| ==>
           r.events[j].Tone?
           && r.events[j].pitch == (if (j - |song.events|) % 2 == 0 then freq else freq * 1.01)
  {
    var trembles := n.beats * 8.0;
    var freq := NoteFreq(n.noteValue);
    TremoloGrew(st, song, freq, n.beats, trembles, 0, Ceil(trembles));
    TremoloPitches(st, song, freq, n.beats, trembles, 0, Ceil(trembles));
    var r := NotePlay(st, song, n).1;
    forall j | |song.events| <= j < |r.events|
      ensures r.events[j].pitch == (if (j - |song.events|) % 2 == 0 then freq else freq * 1.01)
    {
      TrembleAlternates(freq, j - |song.events|);
    }
  }

  /** Playing a note only appends events. */
  lemma {:induction false} NotePlayGrew(st: CompilerState, song: SongValue, n: NoteRead)
    requires n.beats >= 0.0
    ensures Grew(song, NotePlay(st, song, n).1)
  {
    if !n.inSelection {
    } else if n.isRest {
      WithRestGrew(song, Advance(st, n.beats).1 / 1000.0);
    } else if !n.tremolo {
      WithToneGrew(song, NoteFreq(n.noteValue), Advance(st, n.beats).1 / 1000.0);
    } else {
      var trembles := n.beats * 8.0;
      TremoloGrew(st, song, NoteFreq(n.noteValue), n.beats, trembles, 0, Ceil(trembles));
    }
  }

  /** A token that lets the run go on adds no error and only appends events. */
  lemma {:induction false} StepGrew(st: CompilerState, song: SongValue, lex: Lexeme, keySigs: map<string, int>)
    requires |lex.text| > 0
    requires TokenStep(st, song, lex, keySigs).Next?
    ensures Grew(song, TokenStep(st, song, lex, keySigs).song)
  {
    var s := ToLower(lex.text);
    if !StartsWithTran(s) && (IsNoteLetter(s[0]) || s[0] == 'r') && IsNoteToken(s) {
      NotePlayGrew(st, song, ReadNoteOf(st, lex));
    }
  }

  /** How far a run gets: the number of tokens that let it go on, and the state and song after them. */
  datatype Progress = Progress(count: nat, st: CompilerState, song: SongValue)

  function Played(st: CompilerState, song: SongValue, lexemes: seq<Lexeme>, keySigs: map<string, int>): (p: Progress)
    requires AllNonEmpty(lexemes)
    ensures p.count <= |lexemes|
    decreases |lexemes|
  {
    if lexemes == [] then Progress(0, st, song)
    else match TokenStep(st, song, lexemes[0], keySigs)
      case Next(st1, song1) =>
        var p := Played(st1, song1, lexemes[1..], keySigs);
        p.(count := p.count + 1)
      case _ => Progress(0, st, song)
  }

  /**
    Fail-fast: the tokens before the first one that fails or throws only
    append events, and running just them gives the same song; a failing
    token appends its one error and ends the run, a throwing token ends it
    with no error, and no token after either is looked at.
  */
  lemma RunFailFast(st: CompilerState, song: SongValue, lexemes: seq<Lexeme>, keySigs: map<string, int>)
    requires AllNonEmpty(lexemes)
    ensures var p := Played(st, song, lexemes, keySigs);
      var r := Run(st, song, lexemes, keySigs);
      && Grew(song, p.song)
      && Run(st, song, lexemes[..p.count], keySigs) == (p.song, false)
      && (p.count == |lexemes| ==> r == (p.song, false))
      && (p.count < |lexemes| ==>
            match TokenStep(p.st, p.song, lexemes[p.count], keySigs)
            case Next(_, _) => false
            case Fail(message) => r == (p.song.WithError(message), false)
            case Throw => r == (p.song, true))
  {
    PlayedPrefix(st, song, lexemes, keySigs);
    PlayedStop(st, song, lexemes, keySigs);
  }

  /** The words that let the loop go on only append events, and running just them gives the same song. */
  lemma {:induction false} PlayedPrefix(st: CompilerState, song: SongValue, lexemes: seq<Lexeme>, keySigs: map<string, int>)
    requires AllNonEmpty(lexemes)
    ensures var p := Played(st, song, lexemes, keySigs);
      && Grew(song, p.song)
      && Run(st, song, lexemes[..p.count], keySigs) == (p.song, false)
    decreases |lexemes|
  {
    assert lexemes[..0] == [];
    if lexemes != [] {
      match TokenStep(st, song, lexemes[0], keySigs)
      case Next(st1, song1) =>
        StepGrew(st, song, lexemes[0], keySigs);
        PlayedPrefix(st1, song1, lexemes[1..], keySigs);
        var q := Played(st1, song1, lexemes[1..], keySigs);
        GrewTrans(song, song1, q.song);
        assert lexemes[..q.count + 1][1..] == lexemes[1..][..q.count];
        assert lexemes[..q.count + 1][0] == lexemes[0];
      case Fail(message) =>
      case Throw =>
    }
  }

  /** The run ends where the continuing words end: with all words, or at a word that fails or throws. */
  lemma {:induction false} PlayedStop(st: CompilerState, song: SongValue, lexemes: seq<Lexeme>, keySigs: map<string, int>)
    requires AllNonEmpty(lexemes)
    ensures var p := Played(st, song, lexemes, keySigs);
      var r := Run(st, song, lexemes, keySigs);
      && (p.count == |lexemes| ==> r == (p.song, false))
      && (p.count < |lexemes| ==>
            match TokenStep(p.st, p.song, lexemes[p.count], keySigs)
            case Next(_, _) => false
            case Fail(message) => r == (p.song.WithError(message), false)
            case Throw => r == (p.song, true))
    decreases |lexemes|
  {
    if lexemes != [] {
      match TokenStep(st, song, lexemes[0], keySigs)
      case Next(st1, song1) =>
        PlayedStop(st1, song1, lexemes[1..], keySigs);
        var q := Played(st1, song1, lexemes[1..], keySigs);
        if q.count < |lexemes[1..]| {
          assert lexemes[1..][q.count] == lexemes[q.count + 1];
        }
      case Fail(message) =>
      case Throw =>
    }
  }

  /** So a run adds at most one error, and none when it throws. */
  lemma {:induction false} RunErrors(st: CompilerState, song: SongValue, lexemes: seq<Lexeme>, keySigs: map<string, int>)
    requires AllNonEmpty(lexemes)
    ensures var r := Run(st, song, lexemes, keySigs);
      && (r.0.errors == song.errors || (exists m :: r.0.errors == song.errors + [m]))
      && (r.1 ==> r.0.errors == song.errors)
      && |song.events| <= |r.0.events| && r.0.events[..|song.events|] == song.events
  {
    RunFailFast(st, song, lexemes, keySigs);
  }

  /** A compiled song keeps the timeline chained: no gaps, even where notes were skipped. */
  lemma {:induction false} CompileChained(text: string, selectionStart: int, selectionEnd: int, keySigs: map<string, int>)
    ensures Chained(Compile(text, selectionStart, selectionEnd, keySigs).0)
  {
    WordsWellFormed(text, 0);
    var st, lexemes := Reset(selectionStart, selectionEnd), Words(text, 0);
    NewSongChained();
    RunFailFast(st, NewSong(), lexemes, keySigs);
    var p := Played(st, NewSong(), lexemes, keySigs);
    assert Chained(p.song);
    if p.count < |lexemes| {
      match TokenStep(p.st, p.song, lexemes[p.count], keySigs)
      case Fail(message) =>
        assert p.song.WithError(message).events == p.song.events;
      case Throw =>
    }
  }

  // ---------------------------------------------------------------- the number of a note, in closed form

  /** The net shift of the sharps and flats in `t`: +1 per `#`, -1 per `b`. */
  function Shift(t: string): int
    decreases |t|
  {
    if t == [] then 0
    else Shift(t[..|t| - 1]) + (if t[|t| - 1] == '#' then 1 else if t[|t| - 1] == 'b' then -1 else 0)
  }

  /** Whether `t` holds a sharp, flat or natural sign. */
  predicate AnyModifier(t: string)
    decreases |t|
  {
    t != [] && (IsModifier(t[|t| - 1]) || AnyModifier(t[..|t| - 1]))
  }

  /** The value of the last digit in `t`, or -1 when it has none. */
  function LastDigit(t: string): int
    decreases |t|
  {
    if t == [] then -1
    else if IsDigit(t[|t| - 1]) then DigitValue(t[|t| - 1])
    else LastDigit(t[..|t| - 1])
  }

  /** The scan of `s` up to `n` in closed form over the characters after the letter. */
  lemma {:induction false} ScanNoteClosed(s: string, n: nat)
    requires 1 <= n <= |s|
    ensures ScanNote(s, n).noteValue == LetterPitch(s[0]) + Shift(s[1..n])
    ensures ScanNote(s, n).accidental == AnyModifier(s[1..n])
    ensures ScanNote(s, n).octave == LastDigit(s[1..n])
  {
    if n > 1 {
      ScanNoteClosed(s, n - 1);
      assert s[1..n][..n - 2] == s[1..n - 1];
    }
  }

  lemma {:induction false} ClosedAppend(a: string, b: string)
    ensures Shift(a + b) == Shift(a) + Shift(b)
    ensures AnyModifier(a + b) == (AnyModifier(a) || AnyModifier(b))
    ensures LastDigit(a + b) == if LastDigit(b) == -1 then LastDigit(a) else LastDigit(b)
    decreases |b|
  {
    if b == [] {
      assert a + b == a;
    } else {
      var b0 := b[..|b| - 1];
      assert (a + b)[..|a + b| - 1] == a + b0;
      ClosedAppend(a, b0);
    }
  }

  /** The characters of a duration tail: letters, dots, the triplet star and the tremolo bang. */
  predicate IsDurationTailChar(c: char) {
    c in "whqistxo.*!"
  }

  lemma {:induction false} DurationTailNeutral(t: string)
    requires forall k :: 0 <= k < |t| ==> IsDurationTailChar(t[k])
    ensures Shift(t) == 0 && !AnyModifier(t) && LastDigit(t) == -1
    decreases |t|
  {
    if t != [] {
      DurationTailNeutral(t[..|t| - 1]);
    }
  }

  /** Signs make the note an accidental and carry no octave. */
  lemma {:induction false} SignsAreAccidental(signs: string)
    requires forall k :: 0 <= k < |signs| ==> IsModifier(signs[k])
    ensures AnyModifier(signs) == (signs != [])
    ensures LastDigit(signs) == -1
    decreases |signs|
  {
    if signs != [] {
      assert IsModifier(signs[|signs| - 1]);
      SignsAreAccidental(signs[..|signs| - 1]);
    }
  }

  /** The scan of a token made of a letter, signs, an optional digit and a duration tail. */
  lemma {:induction false} ScanOfParts(letter: char, signs: string, digit: string, tail: string)
    requires forall k :: 0 <= k < |signs| ==> IsModifier(signs[k])
    requires |digit| <= 1 && forall k :: 0 <= k < |digit| ==> IsDigit(digit[k])
    requires forall k :: 0 <= k < |tail| ==> IsDurationTailChar(tail[k])
    ensures var sc := ScanNote([letter] + signs + digit + tail, |[letter] + signs + digit + tail|);
      && sc.noteValue == LetterPitch(letter) + Shift(signs)
      && sc.accidental == (signs != [])
      && sc.octave == if digit == [] then -1 else DigitValue(digit[0])
  {
    var rest := signs + digit + tail;
    var s := [letter] + rest;
    assert s == [letter] + signs + digit + tail;
    ScanNoteClosed(s, |s|);
    assert s[1..|s|] == rest;
    PartsClosed(signs, digit, tail);
  }

  /** The signs, digit and duration tail after the letter, in closed form. */
  lemma {:induction false} PartsClosed(signs: string, digit: string, tail: string)
    requires forall k :: 0 <= k < |signs| ==> IsModifier(signs[k])
    requires |digit| <= 1 && forall k :: 0 <= k < |digit| ==> IsDigit(digit[k])
    requires forall k :: 0 <= k < |tail| ==> IsDurationTailChar(tail[k])
    ensures Shift(signs + digit + tail) == Shift(signs)
    ensures AnyModifier(signs + digit + tail) == (signs != [])
    ensures LastDigit(signs + digit + tail) == if digit == [] then -1 else DigitValue(digit[0])
  {
    ClosedAppend(signs, digit);
    ClosedAppend(signs + digit, tail);
    DurationTailNeutral(tail);
    SignsAreAccidental(signs);
    if digit != [] {
      assert digit[..0] == [];
      assert LastDigit(digit) == DigitValue(digit[0]);
    } else {
      assert !AnyModifier(digit) && Shift(digit) == 0 && LastDigit(digit) == -1;
    }
  }

  /**
    A note token made of its letter, sharp/flat/natural signs, an optional
    octave digit and a duration tail has the number of its letter moved by
    the net count of sharps over flats (or, with no sign, by the key
    signature), in the given octave (4 when none), transposed.
  */
  lemma {:induction false} NoteNumberOf(letter: char, signs: string, digit: string, tail: string, st: CompilerState)
    requires forall k :: 0 <= k < |signs| ==> IsModifier(signs[k])
    requires |digit| <= 1 && forall k :: 0 <= k < |digit| ==> IsDigit(digit[k])
    requires forall k :: 0 <= k < |tail| ==> IsDurationTailChar(tail[k])
    ensures var pitch := if signs == [] then KeyAdjust(LetterPitch(letter), st.keySig) else LetterPitch(letter) + Shift(signs);
      var octave := if digit == [] then 4 else DigitValue(digit[0]);
      NoteNumber([letter] + signs + digit + tail, st) == Wrap32(pitch + (octave + 1) * 12 + st.tran)
  {
    ScanOfParts(letter, signs, digit, tail);
  }

  /** The octave-first order: an optional digit, then signs, then the duration tail, in closed form. */
  lemma {:induction false} DigitFirstClosed(digit: string, signs: string, tail: string)
    requires |digit| <= 1 && forall k :: 0 <= k < |digit| ==> IsDigit(digit[k])
    requires forall k :: 0 <= k < |signs| ==> IsModifier(signs[k])
    requires forall k :: 0 <= k < |tail| ==> IsDurationTailChar(tail[k])
    ensures Shift(digit + signs + tail) == Shift(signs)
    ensures AnyModifier(digit + signs + tail) == (signs != [])
    ensures LastDigit(digit + signs + tail) == if digit == [] then -1 else DigitValue(digit[0])
  {
    ClosedAppend(digit, signs);
    ClosedAppend(digit + signs, tail);
    DurationTailNeutral(tail);
    SignsAreAccidental(signs);
    if digit != [] {
      assert digit[..0] == [];
      assert LastDigit(digit) == DigitValue(digit[0]);
    } else {
      assert !AnyModifier(digit) && Shift(digit) == 0 && LastDigit(digit) == -1;
    }
  }

  /**
    A note token written octave first ("c5#q") has the same number as the
    same note written with its signs first.
  */
  lemma {:induction false} NoteNumberOctaveFirst(letter: char, digit: string, signs: string, tail: string, st: CompilerState)
    requires |digit| <= 1 && forall k :: 0 <= k < |digit| ==> IsDigit(digit[k])
    requires forall k :: 0 <= k < |signs| ==> IsModifier(signs[k])
    requires forall k :: 0 <= k < |tail| ==> IsDurationTailChar(tail[k])
    ensures var pitch := if signs == [] then KeyAdjust(LetterPitch(letter), st.keySig) else LetterPitch(letter) + Shift(signs);
      var octave := if digit == [] then 4 else DigitValue(digit[0]);
      NoteNumber([letter] + digit + signs + tail, st) == Wrap32(pitch + (octave + 1) * 12 + st.tran)
  {
    var rest := digit + signs + tail;
    var s := [letter] + rest;
    assert s == [letter] + digit + signs + tail;
    ScanNoteClosed(s, |s|);
    assert s[1..|s|] == rest;
    DigitFirstClosed(digit, signs, tail);
  }

  /** With `k` sharps the letter's number rises by `k`, with `k` flats it falls by `k`. */
  lemma {:induction false} ShiftRepeated(c: char, k: nat)
    requires c == '#' || c == 'b'
    ensures Shift(seq(k, _ => c)) == (if c == '#' then 1 else -1) * k
  {
    if k > 0 {
      ShiftRepeated(c, k - 1);
      assert seq(k, _ => c)[..k - 1] == seq(k - 1, _ => c);
    }
  }
}
