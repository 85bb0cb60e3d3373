/**
  The MusicString compiler object. Its fields are the transposition, the key
  signature, the tempo, the tempo ramp and the beat and millisecond clock,
  all reset at the start of each compilation. Each method is proved to do
  what the functions of `MusicString` say.
*/
module MusicStringCompiler {
  import opened JavaLang
  import opened Tokens
  import opened Songs
  import opened Lexing
  import opened MusicString
  import Tokenizer

  class MusicStringSongCompiler {
    /** The key-signature table: lower-case names to the number of sharps (positive) or flats (negative). */
    const keySignatures: map<string, int>

    var currTran: int
    var currTimeBeat: real
    var currTimeMS: real
    var currTempo: real
    var tempoChangeStart: real
    var tempoChangeLength: real
    var tempoChangeInitial: real
    var tempoChangeFinal: real
    var keySig: int
    var selectionStart: int
    var selectionEnd: int

    /** Every field starts at Java's default of zero; `compile` resets them before use. */
    constructor (keySignatures: map<string, int>)
      ensures this.keySignatures == keySignatures
      ensures keySig == 0
      ensures State() == CompilerState(0, 0.0, 0.0, 0.0, 0.0, 0.0, 0.0, 0.0, 0, 0, 0)
    {
      this.keySignatures := keySignatures;
      currTran := 0;
      currTimeBeat := 0.0;
      currTimeMS := 0.0;
      currTempo := 0.0;
      tempoChangeStart := 0.0;
      tempoChangeLength := 0.0;
      tempoChangeInitial := 0.0;
      tempoChangeFinal := 0.0;
      keySig := 0;
      selectionStart := 0;
      selectionEnd := 0;
    }

    function State(): CompilerState
      reads this
    {
      CompilerState(currTran, currTimeBeat, currTimeMS, currTempo,
        tempoChangeStart, tempoChangeLength, tempoChangeInitial, tempoChangeFinal,
        keySig, selectionStart, selectionEnd)
    }

    /** Tempo 120 BPM, everything else 0, and the selection given. */
    method ResetCompiler(selectionStart: int, selectionEnd: int)
      modifies this
      ensures State() == Reset(selectionStart, selectionEnd)
    {
      currTimeMS := 0.0;
      currTimeBeat := 0.0;
      currTran := 0;
      currTempo := 120.0;
      keySig := 0;
      tempoChangeStart := 0.0;
      tempoChangeLength := 0.0;
      tempoChangeInitial := 0.0;
      tempoChangeFinal := 0.0;
      this.selectionStart := selectionStart;
      this.selectionEnd := selectionEnd;
    }

    /**
      Compiles `text` into a new song. Whatever state the compiler was left
      in, the result is `MusicString.Compile` of the arguments; `thrown`
      stands for a `NumberFormatException` escaping (an amount that does not
      fit in an `int`).
    */
    method Compile(text: string, selectionStart: int, selectionEnd: int) returns (song: Song, thrown: bool)
      modifies this
      ensures fresh(song)
      ensures (song.Value(), thrown) == MusicString.Compile(text, selectionStart, selectionEnd, keySignatures)
    {
      ResetCompiler(selectionStart, selectionEnd);
      song := new Song();
      var tokens := Tokenizer.Tokenize(text);
      WordsWellFormed(text, 0);
      thrown := CompileTokens(tokens, song);
    }

    /** The loop of `compile` over the tokens, from the current state and song. */
    method CompileTokens(tokens: seq<Token>, song: Song) returns (thrown: bool)
      requires AllNonEmpty(Values(tokens))
      modifies this, song
      ensures (song.Value(), thrown) == Run(old(State()), old(song.Value()), Values(tokens), keySignatures)
    {
      ghost var lexemes := Values(tokens);
      ghost var goal := Run(State(), song.Value(), lexemes, keySignatures);
      thrown := false;
      var k := 0;
      while k < |tokens|
        invariant 0 <= k <= |tokens| && !thrown
        invariant Values(tokens) == lexemes
        invariant Run(State(), song.Value(), lexemes[k..], keySignatures) == goal
      {
        var token := tokens[k];
        ValuesIndex(tokens, k);
        var stop;
        stop, thrown := CompileToken(token, song, lexemes[k..]);
        if stop {
          return;
        }
        k := k + 1;
      }
      assert lexemes[k..] == [];
    }

    /**
      The body of `compile`'s loop: one token is compiled, and a rejected
      token's error is added to the song, which ends the compilation.
    */
    method CompileToken(token: Token, song: Song, ghost lexemes: seq<Lexeme>) returns (stop: bool, thrown: bool)
      requires AllNonEmpty(lexemes) && lexemes != [] && token.Value() == lexemes[0]
      modifies this, song
      ensures stop ==> (song.Value(), thrown) == Run(old(State()), old(song.Value()), lexemes, keySignatures)
      ensures !stop ==> !thrown && Run(State(), song.Value(), lexemes[1..], keySignatures)
                                   == Run(old(State()), old(song.Value()), lexemes, keySignatures)
    {
      ghost var st0, song0 := State(), song.Value();
      var error;
      error, thrown := ProcessToken(token, song);
      RunStep(st0, song0, lexemes, keySignatures,
        if thrown then Throw else if error.Some? then Fail(error.value) else Next(State(), song.Value()));
      if thrown {
        return true, true;
      }
      if error.Some? {
        song.errors := song.errors + [error.value];
        return true, false;
      }
      return false, false;
    }

    /**
      One token of `compile`: a "tran" prefix is tried first, then the first
      character picks note, key signature or tempo. The error a rejected
      token would append to the song is returned instead.
    */
    method ProcessToken(token: Token, song: Song) returns (error: Option<string>, thrown: bool)
      requires |token.tokenText| > 0
      modifies this, song
      ensures TokenStep(old(State()), old(song.Value()), token.Value(), keySignatures)
              == if thrown then Throw else if error.Some? then Fail(error.value) else Next(State(), song.Value())
      ensures thrown || error.Some? ==> song.Value() == old(song.Value())
    {
      var tokenText := ToLower(token.GetTokenText());
      if |tokenText| >= 4 && tokenText[..4] == "tran" {
        if IsValidTranToken(token) {
          thrown := ProcessTranToken(token);
          return None, thrown;
        }
        return Some("Cannot read a \"tran\" token."), false;
      }
      error, thrown := ProcessWord(token, song);
    }

    /** The `switch` of `compile` on a word's first character. */
    method ProcessWord(token: Token, song: Song) returns (error: Option<string>, thrown: bool)
      requires |token.tokenText| > 0
      modifies this, song
      ensures WordStep(old(State()), old(song.Value()), token.Value(), keySignatures)
              == if thrown then Throw else if error.Some? then Fail(error.value) else Next(State(), song.Value())
      ensures thrown || error.Some? ==> song.Value() == old(song.Value())
    {
      ghost var st0, song0, lex := State(), song.Value(), token.Value();
      var c := ToLower(token.GetTokenText())[0];
      if 'a' <= c <= 'g' || c == 'r' {
        assert WordStep(st0, song0, lex, keySignatures) == NoteStep(st0, song0, lex);
        error := ProcessNote(token, song);
        return error, false;
      } else if c == 'k' {
        assert WordStep(st0, song0, lex, keySignatures) == Lift(KeySigUpdate(st0, lex, keySignatures), song0);
        error := ProcessKeySig(token);
        return error, false;
      } else if c == 't' {
        assert WordStep(st0, song0, lex, keySignatures) == Lift(TempoUpdate(st0, lex), song0);
        error, thrown := ProcessTempo(token);
        return error, thrown;
      }
      error := Some(CannotReadWord(token.GetTokenText()));
      assert WordStep(st0, song0, lex, keySignatures) == Fail(error.value);
      return error, false;
    }

    /** `tran[+-]digits` or `tranreset`, in any case. */
    predicate IsValidTranToken(token: Token)
      reads token
    {
      IsTranToken(ToLower(token.GetTokenText()))
    }

    /** `tranreset` sets the transposition to 0, `tran±N` adds ±N to it (32-bit). */
    method ProcessTranToken(token: Token) returns (thrown: bool)
      requires IsValidTranToken(token)
      modifies this
      ensures TranUpdate(old(State()), token.Value()) == if thrown then Thrown else Updated(State())
      ensures thrown ==> State() == old(State())
    {
      var tokenStr := ToLower(token.GetTokenText());
      tokenStr := tokenStr[4..];
      if tokenStr == "reset" {
        currTran := 0;
      } else {
        var tranAmt := ParseInt(tokenStr);
        if tranAmt.None? {
          return true;
        }
        currTran := Wrap32(currTran + tranAmt.value);
      }
      return false;
    }

    /**
      Moves the clock by `beats`: the part inside a tempo ramp is timed by the
      ramp's integral, the rest at the current tempo. Returns the
      milliseconds the clock moved.
    */
    method IncrementCurrTime(beats: real) returns (ms: real)
      modifies this
      ensures (State(), ms) == Advance(old(State()), beats)
    {
      var oldCurrTimeMS := currTimeMS;
      var beatsAtConstantTempo := beats;
      if currTimeBeat < GetTempoChangeEnd() {
        beatsAtConstantTempo := (currTimeBeat + beats) - GetTempoChangeEnd();
        var endBeat := MinReal(currTimeBeat + beats, GetTempoChangeEnd());
        var lowerBound := currTimeBeat - tempoChangeStart;
        var upperBound := endBeat - tempoChangeStart;
        var beatLength := tempoChangeLength;
        var minutesOfBeats :=
          IntegralTerm(upperBound, beatLength, tempoChangeInitial, tempoChangeFinal)
          - IntegralTerm(lowerBound, beatLength, tempoChangeInitial, tempoChangeFinal);
        var msOfBeats := minutesOfBeats * 60.0 * 1000.0;
        currTimeMS := currTimeMS + msOfBeats;
      }
      if beatsAtConstantTempo > 0.0 {
        currTimeMS := currTimeMS + beatsAtConstantTempo * DoubleDiv(1.0, currTempo) * 60.0 * 1000.0;
      }
      currTimeBeat := currTimeBeat + beats;
      ms := currTimeMS - oldCurrTimeMS;
      assert State().timeBeat == Advance(old(State()), beats).0.timeBeat;
      assert State().timeMS == Advance(old(State()), beats).0.timeMS;
      assert State() == Advance(old(State()), beats).0;
    }

    /** The beat at which the current tempo ramp ends. */
    function GetTempoChangeEnd(): (r: real)
      reads this
      ensures r == RampEnd(State())
    {
      tempoChangeStart + tempoChangeLength
    }

    /**
      Sets or shifts the tempo; with a duration, installs a ramp from the old
      tempo to the new one starting at the current beat.
    */
    method ProcessTempo(token: Token) returns (error: Option<string>, thrown: bool)
      modifies this
      ensures TempoUpdate(old(State()), token.Value())
              == if thrown then Thrown else if error.Some? then Rejected(error.value) else Updated(State())
      ensures thrown || error.Some? ==> State() == old(State())
    {
      ghost var st0, lex := State(), token.Value();
      var tokenStr := ToLower(token.GetTokenText());
      if !IsTempoToken(tokenStr) {
        error := Some("Cannot read tempo change: " + token.GetTokenText());
        assert TempoUpdate(st0, lex) == Rejected(error.value);
        return error, false;
      }
      var relative, negativeChange, parsed, wholeNoteDuration := ReadTempo(tokenStr);
      if parsed.None? {
        assert TempoUpdate(st0, lex) == Thrown;
        return None, true;
      }
      var tempoChange := parsed.value as real;
      if relative && negativeChange {
        tempoChange := -tempoChange;
      }
      var newTempo := if relative then currTempo + tempoChange else tempoChange;
      assert newTempo == NewTempo(st0, tokenStr, parsed.value);
      ChangeTempo(newTempo, wholeNoteDuration);
      return None, false;
    }

    /**
      Reads a tempo token: its sign, its amount (`None` when the amount does
      not fit in an `int`) and its duration in whole notes, two thirds of the
      letters' sum when a `*` occurs.
    */
    static method ReadTempo(tokenStr: string) returns (relative: bool, negativeChange: bool, amount: Option<int>, wholeNoteDuration: real)
      requires IsTempoToken(tokenStr)
      ensures relative == (tokenStr[1] == '+' || tokenStr[1] == '-')
      ensures negativeChange == (tokenStr[1] == '-')
      ensures amount == ParseInt(TempoDigits(tokenStr))
      ensures amount.Some? ==> wholeNoteDuration == TempoWhole(tokenStr)
    {
      var tempoAmt, durationText;
      relative, negativeChange, tempoAmt, durationText := SplitTempo(tokenStr);
      amount := ParseInt(tempoAmt);
      if amount.None? {
        return relative, negativeChange, amount, 0.0;
      }
      var triplet;
      wholeNoteDuration, triplet := ScanDurations(durationText);
      if triplet {
        wholeNoteDuration := wholeNoteDuration * (2.0 / 3.0);
      }
    }

    /**
      Installs the tempo `newTempo`; a positive duration of `wholeNoteDuration`
      whole notes turns the change into a ramp from the current tempo.
    */
    method ChangeTempo(newTempo: real, wholeNoteDuration: real)
      modifies this
      ensures State() == TempoChange(old(State()), newTempo, wholeNoteDuration)
    {
      var oldTempo := currTempo;
      currTempo := newTempo;
      if wholeNoteDuration > 0.0 {
        tempoChangeStart := currTimeBeat;
        tempoChangeLength := wholeNoteDuration * 4.0;
        tempoChangeInitial := oldTempo;
        tempoChangeFinal := currTempo;
      }
    }

    /**
      Splits a tempo token into its sign, the digits of its amount and the
      text from the amount's last digit on, where the durations are.
    */
    static method SplitTempo(tokenStr: string) returns (relative: bool, negativeChange: bool, tempoAmt: string, durationText: string)
      requires IsTempoToken(tokenStr)
      ensures relative == (tokenStr[1] == '+' || tokenStr[1] == '-')
      ensures negativeChange == (tokenStr[1] == '-')
      ensures tempoAmt == TempoDigits(tokenStr)
      ensures durationText == TempoTail(tokenStr)
    {
      var body := tokenStr[1..];
      relative := false;
      negativeChange := false;
      if body[0] == '+' || body[0] == '-' {
        if body[0] == '-' {
          negativeChange := true;
        }
        body := body[1..];
        relative := true;
      }
      assert body == TempoBody(tokenStr);
      var lastDigitIndex;
      tempoAmt, lastDigitIndex := ScanDigits(body);
      durationText := body[lastDigitIndex..];
    }

    /** The run of digits at the start of a tempo body and the index of its last digit. */
    static method ScanDigits(tokenStr: string) returns (tempoAmt: string, lastDigitIndex: nat)
      ensures tempoAmt == tokenStr[..DigitRunEnd(tokenStr, 0)]
      ensures lastDigitIndex == if tempoAmt == [] then 0 else |tempoAmt| - 1
    {
      tempoAmt := "";
      lastDigitIndex := 0;
      var i := 0;
      while i < |tokenStr| && IsDigit(tokenStr[i])
        invariant 0 <= i <= DigitRunEnd(tokenStr, 0)
        invariant tempoAmt == tokenStr[..i]
        invariant lastDigitIndex == if i == 0 then 0 else i - 1
      {
        tempoAmt := tempoAmt + [tokenStr[i]];
        lastDigitIndex := i;
        i := i + 1;
      }
    }

    /**
      Adds up the duration letters of `tokenStr` (a dotted letter counts one
      and a half times) and notes whether a `*` occurs.
    */
    static method ScanDurations(tokenStr: string) returns (wholeNoteDuration: real, triplet: bool)
      ensures wholeNoteDuration == DurationsFrom(tokenStr, 0)
      ensures triplet == StarBefore(tokenStr, |tokenStr|)
    {
      wholeNoteDuration := 0.0;
      triplet := false;
      var i := 0;
      while i < |tokenStr|
        invariant 0 <= i <= |tokenStr|
        invariant wholeNoteDuration + DurationsFrom(tokenStr, i) == DurationsFrom(tokenStr, 0)
        invariant triplet == StarBefore(tokenStr, i)
      {
        DurationsFromStep(tokenStr, i);
        StarBeforeStep(tokenStr, i);
        ghost var next := DurationStepEnd(tokenStr, i);
        var c := tokenStr[i];
        if c == '*' {
          triplet := true;
        }
        var letterIndex := IndexOf(DURATION_LETTERS, c);
        if letterIndex >= 0 {
          var d := LetterDuration(c);
          if i + 1 < |tokenStr| {
            if tokenStr[i + 1] == '.' {
              d := d * 1.5;
              i := i + 1;
              StarBeforeStep(tokenStr, i);
            }
          }
          wholeNoteDuration := wholeNoteDuration + d;
        }
        i := i + 1;
        assert i == next;
      }
    }

    /** Looks the lower-cased token up in the key-signature table. */
    method ProcessKeySig(token: Token) returns (error: Option<string>)
      modifies this
      ensures KeySigUpdate(old(State()), token.Value(), keySignatures)
              == if error.Some? then Rejected(error.value) else Updated(State())
      ensures error.Some? ==> State() == old(State())
    {
      var tokenStr := ToLower(token.GetTokenText());
      if tokenStr !in keySignatures {
        return Some("Could not read key signature: " + token.GetTokenText());
      }
      keySig := keySignatures[tokenStr];
      return None;
    }

    /**
      Reads a note or rest token and, when it lies inside the selection,
      appends it to `song`; the clock moves either way.
    */
    method ProcessNote(token: Token, song: Song) returns (error: Option<string>)
      modifies this, song
      ensures NoteStep(old(State()), old(song.Value()), token.Value())
              == if error.Some? then Fail(error.value) else Next(State(), song.Value())
      ensures error.Some? ==> State() == old(State()) && song.Value() == old(song.Value())
    {
      ghost var st0, song0, lex := State(), song.Value(), token.Value();
      var tokenStr := ToLower(token.GetTokenText());
      assert tokenStr == ToLower(lex.text);
      if !IsNoteToken(tokenStr) {
        error := Some("Cannot read note: " + token.GetTokenText());
        assert NoteStep(st0, song0, lex) == Fail(error.value);
        return;
      }
      var noteValue, wholeNoteDuration, isRest, tremolo := ReadNote(tokenStr);
      var inSelection := token.GetTextPos() >= selectionStart && token.GetTextEndPos() <= selectionEnd;
      assert inSelection == InSelection(st0, lex);
      var beats := wholeNoteDuration * 4.0;
      ghost var n := NoteRead(inSelection, isRest, tremolo, noteValue, beats);
      assert n == ReadNoteOf(st0, lex);
      ghost var played := NotePlay(st0, song0, n);
      assert State() == st0 && song.Value() == song0;
      PlayNote(song, inSelection, isRest, tremolo, noteValue, beats);
      assert (State(), song.Value()) == played;
      return None;
    }

    /**
      Plays a read note: inside the selection a rest, a tone or a tremolo is
      appended to the song; outside it only the clock moves.
    */
    method PlayNote(song: Song, inSelection: bool, isRest: bool, tremolo: bool, noteValue: int, beats: real)
      requires beats >= 0.0
      modifies this, song
      ensures (State(), song.Value())
              == NotePlay(old(State()), old(song.Value()), NoteRead(inSelection, isRest, tremolo, noteValue, beats))
    {
      if inSelection {
        if isRest {
          var ms := IncrementCurrTime(beats);
          song.AddRest(ms / 1000.0);
        } else {
          if !tremolo {
            var ms := IncrementCurrTime(beats);
            song.AddToneNote(noteValue, ms / 1000.0);
          } else {
            PlayTremolo(song, NoteFreq(noteValue), beats);
          }
        }
      } else {
        var _ := IncrementCurrTime(beats);
      }
    }

    /**
      Reads a note token into its note number and its length in whole
      notes: 1/4 when no duration letter is given, two thirds of it for a
      triplet; the key signature applies to a note without an accidental,
      the octave defaults to 4, and the transposition is added.
    */
    method ReadNote(tokenStr: string) returns (noteValue: int, wholeNoteDuration: real, isRest: bool, tremolo: bool)
      requires |tokenStr| >= 1
      ensures noteValue == NoteNumber(tokenStr, State())
      ensures wholeNoteDuration == NoteDuration(tokenStr)
      ensures isRest == (tokenStr[0] == 'r') && tremolo == ScanNote(tokenStr, |tokenStr|).tremolo
    {
      var accidental, triplet, octave;
      noteValue, wholeNoteDuration, accidental, triplet, tremolo, octave, isRest := ScanNoteText(tokenStr);
      ghost var sc := ScanNote(tokenStr, |tokenStr|);
      if wholeNoteDuration == 0.0 {
        wholeNoteDuration := 0.25;
      }
      if triplet {
        wholeNoteDuration := wholeNoteDuration * (2.0 / 3.0);
      }
      if !accidental {
        noteValue := ApplyKeySig(noteValue, keySig);
      }
      assert noteValue == if sc.accidental then sc.noteValue else KeyAdjust(sc.noteValue, keySig);
      if octave == -1 {
        octave := 4;
      }
      noteValue := noteValue + (octave + 1) * 12;
      noteValue := Wrap32(noteValue + currTran);
    }

    /**
      Scans a note token (already checked against the note shapes): the
      letter's pitch, then each later character in turn: accidentals,
      triplet and tremolo marks, the octave digit and the duration letters,
      a dotted letter counting one and a half times.
    */
    static method ScanNoteText(tokenStr: string)
      returns (noteValue: int, wholeNoteDuration: real, accidental: bool, triplet: bool, tremolo: bool, octave: int, isRest: bool)
      requires |tokenStr| >= 1
      ensures NoteScan(noteValue, accidental, triplet, tremolo, octave) == ScanNote(tokenStr, |tokenStr|)
      ensures wholeNoteDuration == DurationsFrom(tokenStr, 1)
      ensures isRest == (tokenStr[0] == 'r')
    {
      noteValue := 0;
      wholeNoteDuration := 0.0;
      accidental := false;
      triplet := false;
      tremolo := false;
      octave := -1;
      isRest := false;
      match tokenStr[0] {
        case 'c' => noteValue := 0;
        case 'd' => noteValue := 2;
        case 'e' => noteValue := 4;
        case 'f' => noteValue := 5;
        case 'g' => noteValue := 7;
        case 'a' => noteValue := 9;
        case 'b' => noteValue := 11;
        case 'r' => isRest := true;
        case _ =>
      }
      assert noteValue == LetterPitch(tokenStr[0]);
      var i := 1;
      while i < |tokenStr|
        invariant 1 <= i <= |tokenStr|
        invariant NoteScan(noteValue, accidental, triplet, tremolo, octave) == ScanNote(tokenStr, i)
        invariant wholeNoteDuration + DurationsFrom(tokenStr, i) == DurationsFrom(tokenStr, 1)
      {
        DurationsFromStep(tokenStr, i);
        ghost var next := DurationStepEnd(tokenStr, i);
        var c := tokenStr[i];
        noteValue, accidental, triplet, tremolo, octave := ScanModifier(noteValue, accidental, triplet, tremolo, octave, c);
        var letterIndex := IndexOf(DURATION_LETTERS, c);
        if letterIndex >= 0 {
          var d := LetterDuration(c);
          if i + 1 < |tokenStr| {
            if tokenStr[i + 1] == '.' {
              d := d * 1.5;
              i := i + 1;
              ScanNoteDot(tokenStr, i);
            }
          }
          wholeNoteDuration := wholeNoteDuration + d;
        }
        i := i + 1;
        assert i == next;
      }
    }

    /** The effect of one character of a note token: an accidental, a triplet or tremolo mark, an octave digit. */
    static method ScanModifier(noteValue: int, accidental: bool, triplet: bool, tremolo: bool, octave: int, c: char)
      returns (noteValue': int, accidental': bool, triplet': bool, tremolo': bool, octave': int)
      ensures NoteScan(noteValue', accidental', triplet', tremolo', octave')
              == ScanChar(NoteScan(noteValue, accidental, triplet, tremolo, octave), c)
    {
      noteValue', accidental', triplet', tremolo', octave' := noteValue, accidental, triplet, tremolo, octave;
      if c == 'b' {
        noteValue' := noteValue - 1;
        accidental' := true;
      } else if c == 'n' {
        accidental' := true;
      } else if c == '#' {
        noteValue' := noteValue + 1;
        accidental' := true;
      } else if c == '*' {
        triplet' := true;
      } else if c == '!' {
        tremolo' := true;
      }
      if IsDigit(c) {
        octave' := DigitValue(c);
      }
    }

    /** The fourteen key-signature tests of an unaltered note, made one after another. */
    static method ApplyKeySig(n: int, keySig: int) returns (noteValue: int)
      ensures noteValue == KeyAdjust(n, keySig)
    {
      noteValue := n;
      noteValue := KeyTest(noteValue, keySig <= -1, 11, -1);
      noteValue := KeyTest(noteValue, keySig <= -2, 4, -1);
      noteValue := KeyTest(noteValue, keySig <= -3, 9, -1);
      noteValue := KeyTest(noteValue, keySig <= -4, 2, -1);
      noteValue := KeyTest(noteValue, keySig <= -5, 7, -1);
      noteValue := KeyTest(noteValue, keySig <= -6, 0, -1);
      noteValue := KeyTest(noteValue, keySig <= -7, 5, -1);
      noteValue := KeyTest(noteValue, keySig >= 1, 5, 1);
      noteValue := KeyTest(noteValue, keySig >= 2, 0, 1);
      noteValue := KeyTest(noteValue, keySig >= 3, 7, 1);
      noteValue := KeyTest(noteValue, keySig >= 4, 2, 1);
      noteValue := KeyTest(noteValue, keySig >= 5, 9, 1);
      noteValue := KeyTest(noteValue, keySig >= 6, 4, 1);
      noteValue := KeyTest(noteValue, keySig >= 7, 11, 1);
    }

    /**
      The tremolo: eight sub-tones per beat (rounded up), each moving the
      clock by the note's full beats and lasting that time divided by the
      number of trembles, alternating between the note's frequency and 1%
      above it.
    */
    method PlayTremolo(song: Song, freq: real, beats: real)
      requires beats >= 0.0
      modifies this, song
      ensures (State(), song.Value())
              == Tremolo(old(State()), old(song.Value()), freq, beats, beats * 8.0, 0, Ceil(beats * 8.0))
    {
      var trembles := beats * 8.0;
      ghost var n := Ceil(trembles);
      ghost var target := Tremolo(old(State()), old(song.Value()), freq, beats, trembles, 0, n);
      var j := 0;
      while (j as real) < trembles
        invariant 0 <= j <= n
        invariant Tremolo(State(), song.Value(), freq, beats, trembles, j, n) == target
      {
        var ms := IncrementCurrTime(beats);
        song.AddToneFreq(freq * (1.0 + 0.01 * (j % 2) as real), DoubleDiv(DoubleDiv(ms, trembles), 1000.0));
        j := j + 1;
      }
    }
  }
}
