/**
  The RTTTL compiler: a ring-tone text `name:settings:notes` becomes a song.
  The settings give the default duration, the default octave and the
  tempo; each comma-separated note is an optional one- or two-digit
  duration, an optional dot, a letter of "cdefgabp" (`p` is a rest), an
  optional `#` or `b`, an optional octave digit 4 to 7 and an optional
  dot. The first error ends compilation; the notes appended before it
  stay in the song.

  The functions state what compilation produces; `Compile` and the
  methods it calls are the compiler's own loops and cursor, proved to
  produce exactly that.
*/
module Rtttl {
  import opened JavaLang
  import opened Songs

  /** The compiler's errors; `Message` is the text each adds to the song. */
  datatype RtttlError =
    | TooManySections
    | MissingSections
    | NameTooLong
    | CannotReadSettings
    | SettingNotAllowed(setting: string)
    | CannotReadNote
    | BadNoteLetter(note: string)
    | BadOctave

  function Message(e: RtttlError): string {
    match e
    case TooManySections => "Too many sections: remove extra colons (only 2 allowed in file)"
    case MissingSections =>
      "Missing sections: add either a name, settings, or notes until there are 3 sections of this song separated by colons (':')"
    case NameTooLong => "Name of song must be 10 letters or less."
    case CannotReadSettings => "Cannot read settings section. Look at a working example for help."
    case SettingNotAllowed(setting) => "Value " + setting + " in settings section is not allowed."
    case CannotReadNote => "Cannot read note; something is wrong."
    case BadNoteLetter(note) => "Cannot read note: " + note
    case BadOctave => "RTTTL only allows octaves 4-7."
  }

  /** The letters a note may start with, and where each sits in the octave ("c d ef g a b"). */
  const FIRST_LETTERS: string := "cdefgabp"
  const SECOND_LETTERS: string := "#b"
  const SCALE_SPACING: string := "c d ef g a b"

  // ---------------------------------------------------------------- settings

  /** What the settings section chooses: default duration, default octave and tempo in beats a minute. */
  datatype Settings = Settings(defaultDuration: int, defaultOctave: int, tempo: int)

  /** Without settings: quarter notes, octave 6, 63 beats a minute. */
  const DEFAULTS: Settings := Settings(4, 6, 63)

  datatype SettingsResult =
    | SettingsRead(settings: Settings)
    | SettingsError(error: RtttlError)

  /** `s.toLowerCase().trim()`. */
  function Clean(s: string): string {
    Trim(ToLower(s))
  }

  /** What follows the first `=` of a key, or the whole key when it has none. */
  function SettingValue(key: string): (v: string)
    ensures |v| <= |key| && v == key[|key| - |v|..]
  {
    key[IndexOf(key, '=') + 1..]
  }

  /**
    One setting: its value must parse as an `int`, and the first character
    of the key chooses what it sets.
  */
  function ApplySetting(settings: Settings, s: string): SettingsResult {
    var key := Clean(s);
    match ParseInt(SettingValue(key))
    case None => SettingsError(CannotReadSettings)
    case Some(v) =>
      if key[0] == 'd' then SettingsRead(settings.(defaultDuration := v))
      else if key[0] == 'o' then SettingsRead(settings.(defaultOctave := v))
      else if key[0] == 'b' then SettingsRead(settings.(tempo := v))
      else SettingsError(SettingNotAllowed(s))
  }

  /** The settings, applied left to right; the first bad one is the error. */
  function SettingsOf(parts: seq<string>, settings: Settings): SettingsResult
    decreases |parts|
  {
    if parts == [] then SettingsRead(settings)
    else match ApplySetting(settings, parts[0])
      case SettingsError(e) => SettingsError(e)
      case SettingsRead(next) => SettingsOf(parts[1..], next)
  }

  // ---------------------------------------------------------------- notes

  /** A read note: a tone with its note number, or a rest, each with its length in whole notes. */
  datatype RtttlNote =
    | NoteTone(noteValue: int, wholeNoteDuration: real)
    | NoteRest(wholeNoteDuration: real)

  datatype NoteResult =
    | NoteParsed(note: RtttlNote)
    | NoteError(error: RtttlError)

  /** How many leading digits form the duration: none, one or two. */
  function DurationDigits(note: string): (n: nat)
    ensures n <= 2 && n <= |note| && AllDigits(note[..n])
    ensures n < 2 && n < |note| ==> !IsDigit(note[n])
  {
    if |note| > 0 && IsDigit(note[0]) then
      if |note| > 1 && IsDigit(note[1]) then 2 else 1
    else 0
  }

  /** The octave of a letter's note number: `c` 0, `d` 2, `e` 4, `f` 5, `g` 7, `a` 9, `b` 11. */
  function LetterValue(c: char): int {
    IndexOf(SCALE_SPACING, c)
  }

  /** Whether a `.` sits at `i`. */
  predicate DotAt(note: string, i: nat) {
    i < |note| && note[i] == '.'
  }

  /** The duration number: the leading digits, or the default duration when there are none. */
  function DurationOf(note: string, settings: Settings): int {
    var digits := DurationDigits(note);
    if digits > 0 then DigitsValue(note[..digits]) else settings.defaultDuration
  }

  /** Where the letter is expected: after the digits and a `.` that may follow them. */
  function LetterAt(note: string): nat {
    var digits := DurationDigits(note);
    if DotAt(note, digits) then digits + 1 else digits
  }

  /** Whether a `#` or `b` follows the letter at `letterAt`. */
  predicate HasModifier(note: string, letterAt: nat) {
    letterAt + 1 < |note| && note[letterAt + 1] in SECOND_LETTERS
  }

  /** The note number within the octave: the letter's place, one down for `b`, one up for `#`. */
  function PitchClass(note: string, letterAt: nat): int
    requires letterAt < |note|
  {
    var letterValue := if note[letterAt] == 'p' then 0 else LetterValue(note[letterAt]);
    if !HasModifier(note, letterAt) then letterValue
    else if note[letterAt + 1] == 'b' then letterValue - 1
    else letterValue + 1
  }

  /** Where the octave digit is expected: after the letter and its `#` or `b`. */
  function OctaveAt(note: string, letterAt: nat): nat {
    if HasModifier(note, letterAt) then letterAt + 2 else letterAt + 1
  }

  predicate OctaveDigitAt(note: string, i: nat) {
    i < |note| && '4' <= note[i] <= '7'
  }

  /**
    The note a cleaned note text stands for. Each part is read at a cursor
    that the parts before it moved on; characters after the last part
    are ignored.
  */
  function ParseNote(note: string, settings: Settings): NoteResult {
    var letterAt := LetterAt(note);
    if letterAt >= |note| then NoteError(CannotReadNote)
    else if note[letterAt] !in FIRST_LETTERS then NoteError(BadNoteLetter(note))
    else
      var octaveAt := OctaveAt(note, letterAt);
      var hasOctave := OctaveDigitAt(note, octaveAt);
      if !hasOctave && octaveAt < |note| && IsDigit(note[octaveAt]) then NoteError(BadOctave)
      else
        var octave := if hasOctave then DigitValue(note[octaveAt]) else settings.defaultOctave;
        var dotAt := if hasOctave then octaveAt + 1 else octaveAt;
        var dotted := DotAt(note, DurationDigits(note)) || DotAt(note, dotAt);
        var duration := DurationOf(note, settings) as real;
        var whole := if dotted then DoubleDiv(1.0, duration) * 1.5 else DoubleDiv(1.0, duration);
        if note[letterAt] == 'p' then NoteParsed(NoteRest(whole))
        else NoteParsed(NoteTone(Wrap32(PitchClass(note, letterAt) + (octave + 1) * 12), whole))
  }

  /** `addTone(noteValue, wholeNoteDuration, tempo)` or `addRest(wholeNoteDuration, tempo)`. */
  function AddNote(song: SongValue, note: RtttlNote, tempo: int): (r: SongValue) {
    match note
    case NoteTone(noteValue, whole) => song.WithTone(NoteFreq(noteValue), TempoSeconds(whole, tempo as real))
    case NoteRest(whole) => song.WithRest(TempoSeconds(whole, tempo as real))
  }

  /** Every note, cleaned and read. */
  function ReadAll(notes: seq<string>, settings: Settings): (rs: seq<NoteResult>)
    ensures |rs| == |notes|
  {
    seq(|notes|, k requires 0 <= k < |notes| => ParseNote(Clean(notes[k]), settings))
  }

  /** The read notes appended in order, until the first one that could not be read, whose error ends the song. */
  function NotesFrom(results: seq<NoteResult>, tempo: int, song: SongValue): SongValue
    decreases |results|
  {
    if results == [] then song
    else match results[0]
      case NoteError(e) => song.WithError(Message(e))
      case NoteParsed(note) => NotesFrom(results[1..], tempo, AddNote(song, note, tempo))
  }

  /** The notes, cleaned, read and appended in order, until the first one that cannot be read. */
  function NotesInto(notes: seq<string>, settings: Settings, song: SongValue): SongValue {
    NotesFrom(ReadAll(notes, settings), settings.tempo, song)
  }

  // ---------------------------------------------------------------- the whole text

  /** The notes appended to the song under the settings read, or the settings' error. */
  function SettingsThenNotes(song: SongValue, settings: SettingsResult, notes: seq<string>): SongValue {
    match settings
    case SettingsError(e) => song.WithError(Message(e))
    case SettingsRead(s) => NotesInto(notes, s, song)
  }

  /** The song compiled from the three sections. */
  function CompileSections(name: string, settingsSection: string, notesSection: string): SongValue {
    var named := if |name| > 10 then NewSong().WithError(Message(NameTooLong)) else NewSong();
    SettingsThenNotes(named, SettingsOf(Split(settingsSection, ','), DEFAULTS), Split(notesSection, ','))
  }

  /** `compile(text, selStart, selEnd)`; the selection is not used. */
  function Compiled(text: string): SongValue {
    var sections := Split(text, ':');
    if |sections| > 3 then NewSong().WithError(Message(TooManySections))
    else if |sections| < 3 then NewSong().WithError(Message(MissingSections))
    else CompileSections(sections[0], sections[1], sections[2])
  }

  // ---------------------------------------------------------------- properties of the notes loop

  /** The index of the first note that could not be read, or the number of notes when all could. */
  function FirstError(results: seq<NoteResult>): (k: nat)
    ensures k <= |results|
    ensures k < |results| ==> results[k].NoteError?
    decreases |results|
  {
    if results == [] || results[0].NoteError? then 0
    else 1 + FirstError(results[1..])
  }

  /** Appending a note adds one event at the end and changes no error. */
  lemma AddNoteAppends(song: SongValue, note: RtttlNote, tempo: int)
    ensures var r := AddNote(song, note, tempo);
      |r.events| == |song.events| + 1 && r.events[..|song.events|] == song.events && r.errors == song.errors
      && r.events[|song.events|].Tone? == note.NoteTone?
      && r.events[|song.events|].duration == TempoSeconds(note.wholeNoteDuration, tempo as real)
      && (note.NoteTone? ==> r.events[|song.events|].pitch == NoteFreq(note.noteValue))
  {
  }

  /**
    Fail-fast: every note before the first unreadable one appends one event,
    the events already in the song stay, and the first unreadable note adds
    its one error and nothing after it is read.
  */
  lemma {:induction false} NotesShape(results: seq<NoteResult>, tempo: int, song: SongValue)
    ensures var r := NotesFrom(results, tempo, song);
      var k := FirstError(results);
      |r.events| == |song.events| + k && r.events[..|song.events|] == song.events
      && (k < |results| ==> r.errors == song.errors + [Message(results[k].error)])
      && (k == |results| ==> r.errors == song.errors)
    decreases |results|
  {
    if results != [] && results[0].NoteParsed? {
      var next := AddNote(song, results[0].note, tempo);
      AddNoteAppends(song, results[0].note, tempo);
      NotesShape(results[1..], tempo, next);
      var r := NotesFrom(results[1..], tempo, next);
      assert r.events[..|song.events|] == r.events[..|next.events|][..|song.events|];
      if FirstError(results) < |results| {
        assert results[1..][FirstError(results[1..])] == results[FirstError(results)];
      }
    }
  }

  /** The notes loop keeps the timeline chained: each note starts where the one before ended. */
  lemma {:induction false} NotesChained(results: seq<NoteResult>, tempo: int, song: SongValue)
    requires Chained(song)
    ensures Chained(NotesFrom(results, tempo, song))
    decreases |results|
  {
    if results != [] {
      match results[0]
      case NoteError(e) =>
        assert song.WithError(Message(e)).events == song.events;
      case NoteParsed(note) =>
        if note.NoteTone? {
          WithToneChained(song, NoteFreq(note.noteValue), TempoSeconds(note.wholeNoteDuration, tempo as real));
        } else {
          WithRestChained(song, TempoSeconds(note.wholeNoteDuration, tempo as real));
        }
        NotesChained(results[1..], tempo, AddNote(song, note, tempo));
    }
  }

  /** A compiled RTTTL song is chained, whatever the text. */
  lemma {:induction false} CompiledChained(text: string)
    ensures Chained(Compiled(text))
  {
    NewSongChained();
    assert NewSong().WithError(Message(NameTooLong)).events == [];
    var sections := Split(text, ':');
    if |sections| == 3 {
      var name := sections[0];
      var named := if |name| > 10 then NewSong().WithError(Message(NameTooLong)) else NewSong();
      match SettingsOf(Split(sections[1], ','), DEFAULTS)
      case SettingsError(e) =>
        assert named.WithError(Message(e)).events == [];
      case SettingsRead(st) =>
        NotesChained(ReadAll(Split(sections[2], ','), st), st.tempo, named);
    }
  }

  /** The event of the `j`-th note, for a note before the first unreadable one: its kind, pitch and length. */
  lemma {:induction false} NotesEvent(results: seq<NoteResult>, tempo: int, song: SongValue, j: nat)
    requires j < FirstError(results)
    ensures var r := NotesFrom(results, tempo, song);
      results[j].NoteParsed? && |song.events| + j < |r.events|
      && r.events[|song.events| + j].Tone? == results[j].note.NoteTone?
      && r.events[|song.events| + j].duration == TempoSeconds(results[j].note.wholeNoteDuration, tempo as real)
      && (results[j].note.NoteTone? ==> r.events[|song.events| + j].pitch == NoteFreq(results[j].note.noteValue))
    decreases |results|
  {
    var next := AddNote(song, results[0].note, tempo);
    AddNoteAppends(song, results[0].note, tempo);
    NotesShape(results[1..], tempo, next);
    var r := NotesFrom(results[1..], tempo, next);
    if j == 0 {
      assert r.events[|song.events|] == r.events[..|next.events|][|song.events|];
    } else {
      NotesEvent(results[1..], tempo, next, j - 1);
      assert results[1..][j - 1] == results[j];
    }
  }

  /**
    The notes of a song: all read notes up to the first one that could not
    be read, one event each, in order, and at most one error.
  */
  lemma NotesIntoShape(notes: seq<string>, settings: Settings, song: SongValue)
    ensures var rs := ReadAll(notes, settings);
      var r := NotesInto(notes, settings, song);
      var k := FirstError(rs);
      (forall j :: 0 <= j < k ==> ParseNote(Clean(notes[j]), settings).NoteParsed?)
      && |r.events| == |song.events| + k && r.events[..|song.events|] == song.events
      && (k < |notes| ==> r.errors == song.errors + [Message(ParseNote(Clean(notes[k]), settings).error)])
      && (k == |notes| ==> r.errors == song.errors)
  {
    var rs := ReadAll(notes, settings);
    NotesShape(rs, settings.tempo, song);
    forall j | 0 <= j < FirstError(rs)
      ensures ParseNote(Clean(notes[j]), settings).NoteParsed?
    {
      NotesEvent(rs, settings.tempo, song, j);
    }
  }

  /** Errors already in the song do not change what the notes add. */
  lemma {:induction false} NotesErrors(results: seq<NoteResult>, tempo: int, song: SongValue, earlier: seq<string>)
    ensures var r := NotesFrom(results, tempo, song);
      NotesFrom(results, tempo, song.(errors := earlier + song.errors)) == r.(errors := earlier + r.errors)
    decreases |results|
  {
    if results != [] {
      if results[0].NoteParsed? {
        var next := AddNote(song, results[0].note, tempo);
        NotesErrors(results[1..], tempo, next, earlier);
        assert AddNote(song.(errors := earlier + song.errors), results[0].note, tempo) == next.(errors := earlier + next.errors);
      } else {
        assert (earlier + song.errors) + [Message(results[0].error)] == earlier + (song.errors + [Message(results[0].error)]);
      }
    }
  }

  /** Errors already in the song do not change what the settings and the notes add. */
  lemma SettingsThenNotesErrors(song: SongValue, settings: SettingsResult, notes: seq<string>, earlier: seq<string>)
    ensures var r := SettingsThenNotes(song, settings, notes);
      SettingsThenNotes(song.(errors := earlier + song.errors), settings, notes) == r.(errors := earlier + r.errors)
  {
    if settings.SettingsRead? {
      NotesErrors(ReadAll(notes, settings.settings), settings.settings.tempo, song, earlier);
    } else {
      assert (earlier + song.errors) + [Message(settings.error)] == earlier + (song.errors + [Message(settings.error)]);
    }
  }

  /**
    The name only decides whether the name error comes first: a name of
    more than ten characters adds it, and the rest of the song is the same
    as for any other name.
  */
  lemma NameOnlyAddsError(name: string, settingsSection: string, notesSection: string)
    ensures var r0 := CompileSections("", settingsSection, notesSection);
      CompileSections(name, settingsSection, notesSection)
      == if |name| > 10 then r0.(errors := [Message(NameTooLong)] + r0.errors) else r0
  {
    var named := NewSong().WithError(Message(NameTooLong));
    assert named == NewSong().(errors := [Message(NameTooLong)] + NewSong().errors);
    SettingsThenNotesErrors(NewSong(), SettingsOf(Split(settingsSection, ','), DEFAULTS), Split(notesSection, ','), [Message(NameTooLong)]);
  }


  /** A text that does not split into exactly three sections gives one error and no events. */
  lemma SectionCount(text: string)
    requires |Split(text, ':')| != 3
    ensures Compiled(text).events == []
    ensures Compiled(text).errors == [Message(if |Split(text, ':')| > 3 then TooManySections else MissingSections)]
  {
  }

  // ---------------------------------------------------------------- notes as they are written

  /** "c d ef g a b" places the letters at 0, 2, 4, 5, 7, 9 and 11. */
  lemma LetterValueTable()
    ensures LetterValue('c') == 0 && LetterValue('d') == 2 && LetterValue('e') == 4 && LetterValue('f') == 5
    ensures LetterValue('g') == 7 && LetterValue('a') == 9 && LetterValue('b') == 11
  {
  }

  /**
    A note as it is written: a duration (0 when none is written), a letter,
    a modifier ("", "#" or "b"), an octave digit when one is written and a
    closing dot when the note is dotted.
  */
  datatype WrittenNote = WrittenNote(duration: nat, letter: char, modifier: string, octave: Option<nat>, dotted: bool)

  predicate Writable(w: WrittenNote) {
    w.duration < 100 && w.letter in FIRST_LETTERS && w.modifier in {"", "#", "b"}
    && (w.octave.Some? ==> w.octave.value < 10)
  }

  function DurationText(w: WrittenNote): (d: string)
    requires w.duration < 100
    ensures |d| <= 2 && AllDigits(d)
    ensures w.duration > 0 <==> |d| > 0
    ensures |d| > 0 ==> DigitsValue(d) == w.duration
  {
    if w.duration > 0 then NatToStringShort(w.duration); NatToString(w.duration) else ""
  }

  function OctaveText(w: WrittenNote): (o: string)
    requires w.octave.Some? ==> w.octave.value < 10
    ensures |o| == if w.octave.Some? then 1 else 0
  {
    if w.octave.Some? then [DigitChar(w.octave.value)] else ""
  }

  /** What follows the letter: the modifier, the octave digit and the dot. */
  function NoteTail(w: WrittenNote): string
    requires Writable(w)
  {
    w.modifier + OctaveText(w) + (if w.dotted then "." else "")
  }

  /** The text of a written note. */
  function NoteText(w: WrittenNote): string
    requires Writable(w)
  {
    DurationText(w) + [w.letter] + NoteTail(w)
  }

  /**
    What a written note stands for: a rest for `p`, otherwise the tone
    `(octave + 1) * 12` plus the letter's place, one up for `#`, one down
    for `b`; the length is one over the duration, half as long again when
    dotted; missing parts come from the settings; an octave digit outside
    4 to 7 is an error.
  */
  function WrittenMeaning(w: WrittenNote, settings: Settings): NoteResult {
    if w.octave.Some? && !(4 <= w.octave.value <= 7) then NoteError(BadOctave)
    else
      var duration := if w.duration > 0 then w.duration else settings.defaultDuration;
      var whole := DoubleDiv(1.0, duration as real) * (if w.dotted then 1.5 else 1.0);
      var octave := if w.octave.Some? then w.octave.value else settings.defaultOctave;
      var shift := if w.modifier == "#" then 1 else if w.modifier == "b" then -1 else 0;
      if w.letter == 'p' then NoteParsed(NoteRest(whole))
      else NoteParsed(NoteTone(Wrap32(LetterValue(w.letter) + shift + (octave + 1) * 12), whole))
  }

  lemma NatToStringShort(n: nat)
    requires n < 100
    ensures |NatToString(n)| == if n < 10 then 1 else 2
  {
  }

  /** Visible characters, none of them upper-case. */
  predicate Visible(s: string) {
    forall i :: 0 <= i < |s| ==> s[i] > ' ' && !('A' <= s[i] <= 'Z')
  }

  lemma VisibleConcat(a: string, b: string)
    requires Visible(a) && Visible(b)
    ensures Visible(a + b)
  {
    assert forall i :: |a| <= i < |a + b| ==> (a + b)[i] == b[i - |a|];
  }

  /** Cleaning leaves a text of visible lower-case characters as it is. */
  lemma CleanKeeps(s: string)
    requires Visible(s)
    ensures Clean(s) == s
  {
    assert ToLower(s) == s;
    assert TrimStart(s) == s;
    assert TrimEnd(s) == s;
  }

  /** The duration digits and the letter of a written note are read where they were written. */
  lemma ReadWrittenHead(w: WrittenNote, settings: Settings)
    requires Writable(w)
    ensures var text := NoteText(w);
      var nd := |DurationText(w)|;
      DurationDigits(text) == nd && LetterAt(text) == nd && nd < |text| && text[nd] == w.letter
      && DurationOf(text, settings) == (if w.duration > 0 then w.duration else settings.defaultDuration)
      && !DotAt(text, nd)
  {
    var text := NoteText(w);
    var d := DurationText(w);
    assert text[..|d|] == d;
    assert text[|d|] == w.letter;
    assert |d| == 2 ==> IsDigit(text[0]) && IsDigit(text[1]);
    assert |d| == 1 ==> IsDigit(text[0]);
  }

  /** The modifier, the octave digit and the dot of a written note are read where they were written. */
  lemma ReadWrittenTail(w: WrittenNote)
    requires Writable(w)
    ensures var text := NoteText(w);
      var nd := |DurationText(w)|;
      var octaveAt := nd + 1 + |w.modifier|;
      HasModifier(text, nd) == (w.modifier != "")
      && (w.modifier != "" ==> text[nd + 1] == w.modifier[0])
      && OctaveAt(text, nd) == octaveAt
      && OctaveDigitAt(text, octaveAt) == (w.octave.Some? && 4 <= w.octave.value <= 7)
      && (octaveAt < |text| && IsDigit(text[octaveAt]) <==> w.octave.Some?)
      && (w.octave.Some? ==> text[octaveAt] == DigitChar(w.octave.value))
      && DotAt(text, octaveAt + |OctaveText(w)|) == w.dotted
  {
    var text := NoteText(w);
    var nd := |DurationText(w)|;
    var tail := NoteTail(w);
    assert text == (DurationText(w) + [w.letter]) + tail;
    assert forall i :: 0 <= i < |tail| ==> text[nd + 1 + i] == tail[i];
    var o := OctaveText(w);
    var m := |w.modifier|;
    if w.octave.Some? {
      assert tail[m] == o[0];
    } else if w.dotted {
      assert tail[m] == '.';
    }
    if w.dotted {
      assert tail[m + |o|] == '.';
    }
  }

  lemma VisibleTail(w: WrittenNote)
    requires Writable(w)
    ensures Visible(NoteTail(w))
  {
    var o := OctaveText(w);
    assert Visible(o) by {
      if w.octave.Some? {
        assert IsDigit(o[0]);
      }
    }
    assert Visible(w.modifier) by {
      assert w.modifier == "" || w.modifier == "#" || w.modifier == "b";
    }
    VisibleConcat(w.modifier, o);
    VisibleConcat(w.modifier + o, if w.dotted then "." else "");
  }

  lemma VisibleHead(w: WrittenNote)
    requires Writable(w)
    ensures Visible(DurationText(w) + [w.letter])
  {
    VisibleConcat(DurationText(w), [w.letter]);
  }

  /** A written note is already clean: visible lower-case characters only. */
  lemma WrittenIsClean(w: WrittenNote)
    requires Writable(w)
    ensures Clean(NoteText(w)) == NoteText(w)
  {
    VisibleHead(w);
    VisibleTail(w);
    VisibleConcat(DurationText(w) + [w.letter], NoteTail(w));
    CleanKeeps(NoteText(w));
  }

  /** The pitch of a written tone: the letter's place, one up for `#`, one down for `b`. */
  lemma WrittenPitch(w: WrittenNote)
    requires Writable(w) && w.letter != 'p'
    ensures PitchClass(NoteText(w), |DurationText(w)|)
      == LetterValue(w.letter) + (if w.modifier == "#" then 1 else if w.modifier == "b" then -1 else 0)
  {
    ReadWrittenHead(w, DEFAULTS);
    ReadWrittenTail(w);
  }

  /** The length of a written note in whole notes. */
  lemma WrittenLength(w: WrittenNote, settings: Settings)
    requires Writable(w)
    ensures var text := NoteText(w);
      var nd := |DurationText(w)|;
      var dotAt := nd + 1 + |w.modifier| + |OctaveText(w)|;
      var duration := if w.duration > 0 then w.duration else settings.defaultDuration;
      (DotAt(text, DurationDigits(text)) || DotAt(text, dotAt)) == w.dotted
      && DurationOf(text, settings) == duration
  {
    ReadWrittenHead(w, settings);
    ReadWrittenTail(w);
  }

  /** Reading the text of a written note gives what the note stands for. */
  lemma ReadWrittenText(w: WrittenNote, settings: Settings)
    requires Writable(w)
    ensures ParseNote(NoteText(w), settings) == WrittenMeaning(w, settings)
  {
    ReadWrittenHead(w, settings);
    ReadWrittenTail(w);
    if w.octave.Some? && !(4 <= w.octave.value <= 7) {
    } else {
      WrittenLength(w, settings);
      if w.letter == 'p' {
        ReadWrittenRest(w, settings);
      } else {
        ReadWrittenTone(w, settings);
      }
    }
  }

  lemma ReadWrittenRest(w: WrittenNote, settings: Settings)
    requires Writable(w) && w.letter == 'p'
    requires w.octave.Some? ==> 4 <= w.octave.value <= 7
    ensures ParseNote(NoteText(w), settings) == WrittenMeaning(w, settings)
  {
    ReadWrittenHead(w, settings);
    ReadWrittenTail(w);
    WrittenLength(w, settings);
  }

  lemma ReadWrittenTone(w: WrittenNote, settings: Settings)
    requires Writable(w) && w.letter != 'p'
    requires w.octave.Some? ==> 4 <= w.octave.value <= 7
    ensures ParseNote(NoteText(w), settings) == WrittenMeaning(w, settings)
  {
    ReadWrittenHead(w, settings);
    ReadWrittenTail(w);
    WrittenLength(w, settings);
    WrittenPitch(w);
  }

  /** Cleaning and reading the text of a written note gives what the note stands for. */
  lemma ReadWrittenNote(w: WrittenNote, settings: Settings)
    requires Writable(w)
    ensures ParseNote(Clean(NoteText(w)), settings) == WrittenMeaning(w, settings)
  {
    WrittenIsClean(w);
    ReadWrittenText(w, settings);
  }

  // ---------------------------------------------------------------- settings as they are written

  /** A setting as it is written: `d`, `o` or `b`, then `=` and a number. */
  datatype WrittenSetting = WrittenSetting(key: char, value: int)

  predicate WritableSetting(w: WrittenSetting) {
    (w.key == 'd' || w.key == 'o' || w.key == 'b') && InInt(w.value)
  }

  function SettingText(w: WrittenSetting): string {
    [w.key] + "=" + IntToString(w.value)
  }

  /** The settings after a written setting: `d` sets the duration, `o` the octave and `b` the tempo. */
  function Assign(settings: Settings, w: WrittenSetting): Settings {
    if w.key == 'd' then settings.(defaultDuration := w.value)
    else if w.key == 'o' then settings.(defaultOctave := w.value)
    else settings.(tempo := w.value)
  }

  /** The settings after a list of written settings, left to right: a later one of the same key wins. */
  function AssignAll(settings: Settings, ws: seq<WrittenSetting>): Settings
    decreases |ws|
  {
    if ws == [] then settings else AssignAll(Assign(settings, ws[0]), ws[1..])
  }

  function SettingTexts(ws: seq<WrittenSetting>): (texts: seq<string>)
    ensures |texts| == |ws|
    decreases |ws|
  {
    if ws == [] then [] else [SettingText(ws[0])] + SettingTexts(ws[1..])
  }

  /** The settings section holding the written settings, separated by commas. */
  function SettingsText(ws: seq<WrittenSetting>): string
    requires |ws| >= 1
  {
    Join(SettingTexts(ws), ',')
  }

  /** `Integer.toString` writes digits and a minus sign only. */
  lemma VisibleNumber(v: int)
    ensures forall i :: 0 <= i < |IntToString(v)| ==> IsDigit(IntToString(v)[i]) || IntToString(v)[i] == '-'
    ensures Visible(IntToString(v))
  {
    if v < 0 {
      assert forall i :: 1 <= i < |IntToString(v)| ==> IntToString(v)[i] == NatToString(-v)[i - 1];
    }
  }

  lemma WrittenSettingClean(w: WrittenSetting)
    requires WritableSetting(w)
    ensures Clean(SettingText(w)) == SettingText(w)
  {
    VisibleNumber(w.value);
    VisibleConcat([w.key] + "=", IntToString(w.value));
    CleanKeeps(SettingText(w));
  }

  lemma WrittenSettingValue(w: WrittenSetting)
    requires WritableSetting(w)
    ensures SettingValue(SettingText(w)) == IntToString(w.value)
  {
    var text := SettingText(w);
    assert text[0] != '=' && text[1] == '=';
    IndexOfFirst(text, '=', 1);
  }

  lemma WrittenSettingParses(w: WrittenSetting)
    requires WritableSetting(w)
    ensures var key := Clean(SettingText(w));
      ParseInt(SettingValue(key)) == Some(w.value) && key[0] == w.key
  {
    WrittenSettingClean(w);
    WrittenSettingValue(w);
    ParseIntToString(w.value);
  }

  /** One written setting, read back: the key's first character chooses, the number after `=` is the value. */
  lemma ReadWrittenSetting(settings: Settings, w: WrittenSetting)
    requires WritableSetting(w)
    ensures ApplySetting(settings, SettingText(w)) == SettingsRead(Assign(settings, w))
  {
    WrittenSettingParses(w);
    ApplyParsed(settings, SettingText(w), w);
  }

  lemma ApplyParsed(settings: Settings, s: string, w: WrittenSetting)
    requires WritableSetting(w)
    requires ParseInt(SettingValue(Clean(s))) == Some(w.value) && Clean(s)[0] == w.key
    ensures ApplySetting(settings, s) == SettingsRead(Assign(settings, w))
  {
  }

  /** Reading settings one after another is reading them all from the first. */
  lemma {:induction false} SettingsOfConcat(parts: seq<string>, more: seq<string>, settings: Settings)
    ensures SettingsOf(parts + more, settings)
      == match SettingsOf(parts, settings)
         case SettingsError(e) => SettingsError(e)
         case SettingsRead(next) => SettingsOf(more, next)
    decreases |parts|
  {
    if parts == [] {
      assert parts + more == more;
    } else {
      assert (parts + more)[1..] == parts[1..] + more;
      if ApplySetting(settings, parts[0]).SettingsRead? {
        SettingsOfConcat(parts[1..], more, ApplySetting(settings, parts[0]).settings);
      }
    }
  }

  /** A list of written settings reads back as the settings they assign, in order. */
  lemma {:induction false} ReadWrittenSettingList(settings: Settings, ws: seq<WrittenSetting>)
    requires forall k :: 0 <= k < |ws| ==> WritableSetting(ws[k])
    ensures SettingsOf(SettingTexts(ws), settings) == SettingsRead(AssignAll(settings, ws))
    decreases |ws|
  {
    if ws != [] {
      ReadWrittenSetting(settings, ws[0]);
      ReadWrittenSettingList(Assign(settings, ws[0]), ws[1..]);
      assert SettingTexts(ws)[1..] == SettingTexts(ws[1..]);
    }
  }

  lemma SettingTextSeparators(w: WrittenSetting)
    requires WritableSetting(w)
    ensures ',' !in SettingText(w) && ':' !in SettingText(w)
  {
    var t := SettingText(w);
    VisibleNumber(w.value);
    assert forall i :: 2 <= i < |t| ==> t[i] == IntToString(w.value)[i - 2];
    assert forall i :: 0 <= i < |t| ==> t[i] != ',' && t[i] != ':';
  }

  /** The text of a written setting holds neither a comma nor a colon, and it is not empty. */
  lemma {:induction false} SettingTextsPieces(ws: seq<WrittenSetting>)
    requires forall k :: 0 <= k < |ws| ==> WritableSetting(ws[k])
    ensures forall k :: 0 <= k < |ws| ==>
      ',' !in SettingTexts(ws)[k] && ':' !in SettingTexts(ws)[k] && SettingTexts(ws)[k] != ""
    decreases |ws|
  {
    if ws != [] {
      SettingTextsPieces(ws[1..]);
      var texts := SettingTexts(ws);
      assert texts == [SettingText(ws[0])] + SettingTexts(ws[1..]);
      forall k | 0 <= k < |ws|
        ensures ',' !in texts[k] && ':' !in texts[k] && texts[k] != ""
      {
        if k == 0 {
          SettingTextSeparators(ws[0]);
        } else {
          assert texts[k] == SettingTexts(ws[1..])[k - 1];
        }
      }
    }
  }

  /** A settings section written from settings reads back as what they assign to the defaults. */
  lemma ReadSettingsText(ws: seq<WrittenSetting>)
    requires |ws| >= 1
    requires forall k :: 0 <= k < |ws| ==> WritableSetting(ws[k])
    ensures SettingsOf(Split(SettingsText(ws), ','), DEFAULTS) == SettingsRead(AssignAll(DEFAULTS, ws))
  {
    SettingTextsPieces(ws);
    SplitOfJoin(SettingTexts(ws), ',');
    ReadWrittenSettingList(DEFAULTS, ws);
  }

  /** An empty settings section cannot be read: its one piece has no number. */
  lemma EmptySettingsSection()
    ensures SettingsOf(Split("", ','), DEFAULTS) == SettingsError(CannotReadSettings)
  {
  }

  // ---------------------------------------------------------------- songs as they are written

  function NoteTexts(ns: seq<WrittenNote>): (texts: seq<string>)
    requires forall k :: 0 <= k < |ns| ==> Writable(ns[k])
    ensures |texts| == |ns|
  {
    seq(|ns|, k requires 0 <= k < |ns| => NoteText(ns[k]))
  }

  /** What each written note stands for under the settings. */
  function Meanings(ns: seq<WrittenNote>, settings: Settings): (rs: seq<NoteResult>)
    ensures |rs| == |ns|
  {
    seq(|ns|, k requires 0 <= k < |ns| => WrittenMeaning(ns[k], settings))
  }

  /** The notes section holding the written notes, separated by commas. */
  function NotesText(ns: seq<WrittenNote>): string
    requires |ns| >= 1
    requires forall k :: 0 <= k < |ns| ==> Writable(ns[k])
  {
    Join(NoteTexts(ns), ',')
  }

  lemma TailSeparators(w: WrittenNote)
    requires Writable(w)
    ensures ',' !in NoteTail(w) && ':' !in NoteTail(w)
  {
    var o := OctaveText(w);
    assert w.octave.Some? ==> IsDigit(o[0]);
    assert ',' !in o && ':' !in o;
  }

  /** The text of a written note holds neither a comma nor a colon. */
  lemma NoteTextSeparators(w: WrittenNote)
    requires Writable(w)
    ensures ',' !in NoteText(w) && ':' !in NoteText(w)
  {
    var d := DurationText(w);
    assert forall i :: 0 <= i < |d| ==> IsDigit(d[i]);
    assert ',' !in d && ':' !in d;
    TailSeparators(w);
  }

  /** Each written note, read back, stands for its meaning. */
  lemma ReadWrittenNotes(ns: seq<WrittenNote>, settings: Settings)
    requires |ns| >= 1
    requires forall k :: 0 <= k < |ns| ==> Writable(ns[k])
    ensures ReadAll(Split(NotesText(ns), ','), settings) == Meanings(ns, settings)
  {
    var texts := NoteTexts(ns);
    forall k | 0 <= k < |ns|
      ensures ',' !in texts[k]
    {
      NoteTextSeparators(ns[k]);
    }
    SplitOfJoin(texts, ',');
    forall k | 0 <= k < |ns|
      ensures ReadAll(texts, settings)[k] == Meanings(ns, settings)[k]
    {
      ReadWrittenNote(ns[k], settings);
    }
  }

  /** The text of a written settings section holds no colon. */
  lemma SettingsTextNoColon(ws: seq<WrittenSetting>)
    requires |ws| >= 1
    requires forall k :: 0 <= k < |ws| ==> WritableSetting(ws[k])
    ensures ':' !in SettingsText(ws)
  {
    SettingTextsPieces(ws);
    JoinWithout(SettingTexts(ws), ',', ':');
  }

  /** A written song: a name, its settings and its notes, separated by colons. */
  function SongText(name: string, ws: seq<WrittenSetting>, ns: seq<WrittenNote>): string
    requires |ws| >= 1 && |ns| >= 1
    requires forall k :: 0 <= k < |ns| ==> Writable(ns[k])
  {
    name + ":" + SettingsText(ws) + ":" + NotesText(ns)
  }

  /** The notes section of written notes holds no colon, and it is not empty. */
  lemma NotesTextPiece(ns: seq<WrittenNote>)
    requires |ns| >= 1
    requires forall k :: 0 <= k < |ns| ==> Writable(ns[k])
    ensures ':' !in NotesText(ns) && NotesText(ns) != ""
  {
    var texts := NoteTexts(ns);
    forall k | 0 <= k < |ns|
      ensures ':' !in texts[k]
    {
      NoteTextSeparators(ns[k]);
    }
    JoinWithout(texts, ',', ':');
    assert |texts[|ns| - 1]| > 0;
    JoinEndsWithLast(texts, ',');
  }

  /** A written song splits into its name, its settings section and its notes section. */
  lemma SongSections(name: string, ws: seq<WrittenSetting>, ns: seq<WrittenNote>)
    requires ':' !in name
    requires |ws| >= 1 && |ns| >= 1
    requires forall k :: 0 <= k < |ws| ==> WritableSetting(ws[k])
    requires forall k :: 0 <= k < |ns| ==> Writable(ns[k])
    ensures Split(SongText(name, ws, ns), ':') == [name, SettingsText(ws), NotesText(ns)]
  {
    SettingsTextNoColon(ws);
    NotesTextPiece(ns);
    SplitThree(name, SettingsText(ws), NotesText(ns), ':');
  }


  /**
    A written song compiles to its notes' meanings under the settings it
    assigns, appended to a song that holds the name error when the name
    is longer than ten characters.
  */
  lemma CompileWrittenSong(name: string, ws: seq<WrittenSetting>, ns: seq<WrittenNote>)
    requires ':' !in name
    requires |ws| >= 1 && |ns| >= 1
    requires forall k :: 0 <= k < |ws| ==> WritableSetting(ws[k])
    requires forall k :: 0 <= k < |ns| ==> Writable(ns[k])
    ensures var settings := AssignAll(DEFAULTS, ws);
      var named := if |name| > 10 then NewSong().WithError(Message(NameTooLong)) else NewSong();
      Compiled(SongText(name, ws, ns)) == NotesFrom(Meanings(ns, settings), settings.tempo, named)
  {
    SongSections(name, ws, ns);
    ReadSettingsText(ws);
    ReadWrittenNotes(ns, AssignAll(DEFAULTS, ws));
  }

  /** When every note can be read, there is no first error. */
  lemma {:induction false} FirstErrorNone(results: seq<NoteResult>)
    requires forall k :: 0 <= k < |results| ==> results[k].NoteParsed?
    ensures FirstError(results) == |results|
    decreases |results|
  {
    if results != [] {
      FirstErrorNone(results[1..]);
    }
  }

  /** Notes that can all be read append one event each, a rest exactly for each rest, and no error. */
  lemma AllNotesRead(results: seq<NoteResult>, tempo: int, song: SongValue)
    requires forall k :: 0 <= k < |results| ==> results[k].NoteParsed?
    ensures var r := NotesFrom(results, tempo, song);
      |r.events| == |song.events| + |results| && r.errors == song.errors
      && forall k :: 0 <= k < |results| ==> (r.events[|song.events| + k].Rest? <==> results[k].note.NoteRest?)
  {
    FirstErrorNone(results);
    NotesShape(results, tempo, song);
    forall k | 0 <= k < |results|
      ensures NotesFrom(results, tempo, song).events[|song.events| + k].Rest? <==> results[k].note.NoteRest?
    {
      NotesEvent(results, tempo, song, k);
    }
  }

  /**
    A written song whose octave digits are all 4 to 7 gives one event per
    note, a rest exactly for each `p`, and no error but the name's.
  */
  lemma WrittenSongEvents(name: string, ws: seq<WrittenSetting>, ns: seq<WrittenNote>)
    requires ':' !in name
    requires |ws| >= 1 && |ns| >= 1
    requires forall k :: 0 <= k < |ws| ==> WritableSetting(ws[k])
    requires forall k :: 0 <= k < |ns| ==> Writable(ns[k])
    requires forall k :: 0 <= k < |ns| ==> ns[k].octave.Some? ==> 4 <= ns[k].octave.value <= 7
    ensures var r := Compiled(SongText(name, ws, ns));
      |r.events| == |ns|
      && r.errors == (if |name| > 10 then [Message(NameTooLong)] else [])
      && forall k :: 0 <= k < |ns| ==> (r.events[k].Rest? <==> ns[k].letter == 'p')
  {
    var settings := AssignAll(DEFAULTS, ws);
    var named := if |name| > 10 then NewSong().WithError(Message(NameTooLong)) else NewSong();
    var rs := Meanings(ns, settings);
    CompileWrittenSong(name, ws, ns);
    MeaningsRead(ns, settings);
    AllNotesRead(rs, settings.tempo, named);
  }

  /** Written notes whose octave digits are all 4 to 7 can all be read, and each is a rest exactly when it is a `p`. */
  lemma MeaningsRead(ns: seq<WrittenNote>, settings: Settings)
    requires forall k :: 0 <= k < |ns| ==> ns[k].octave.Some? ==> 4 <= ns[k].octave.value <= 7
    ensures forall k :: 0 <= k < |ns| ==>
      Meanings(ns, settings)[k].NoteParsed? && (Meanings(ns, settings)[k].note.NoteRest? <==> ns[k].letter == 'p')
  {
  }

  // ---------------------------------------------------------------- the compiler

  /**
    `compile`: splits the text into its three sections, reads the settings
    and then the notes into a new song. The selection bounds are not used.
  */
  method Compile(text: string, selStart: int, selEnd: int) returns (song: Song)
    ensures fresh(song)
    ensures song.Value() == Compiled(text)
  {
    song := new Song();
    var sections := Split(text, ':');
    if |sections| != 3 {
      if |sections| > 3 {
        song.errors := song.errors + [Message(TooManySections)];
      } else {
        song.errors := song.errors + [Message(MissingSections)];
      }
      return;
    }
    CompileSectionsInto(sections[0], sections[1], sections[2], song);
  }

  /** The three sections read into a new song. */
  method CompileSectionsInto(nameSection: string, settingsSection: string, notesSection: string, song: Song)
    requires song.Value() == NewSong()
    modifies song
    ensures song.Value() == CompileSections(nameSection, settingsSection, notesSection)
  {
    if |nameSection| > 10 {
      song.errors := song.errors + [Message(NameTooLong)];
    }
    var settings, error := ReadSettings(Split(settingsSection, ','));
    if error.Some? {
      song.errors := song.errors + [Message(error.value)];
      return;
    }
    CompileNotes(Split(notesSection, ','), settings, song);
  }

  /** One step of `SettingsOf`: the setting at `k`, then the ones after it. */
  lemma SettingsOfStep(parts: seq<string>, k: nat, settings: Settings)
    requires k < |parts|
    ensures var r := ApplySetting(settings, parts[k]);
      SettingsOf(parts[k..], settings) == if r.SettingsError? then r else SettingsOf(parts[k + 1..], r.settings)
  {
    assert parts[k..][1..] == parts[k + 1..];
  }

  /**
    The settings loop: each setting overwrites the default duration, the
    default octave or the tempo; the first one that cannot be read, or
    whose key is none of these, is the error.
  */
  method ReadSettings(settings: seq<string>) returns (result: Settings, error: Option<RtttlError>)
    ensures SettingsOf(settings, DEFAULTS) == if error.Some? then SettingsError(error.value) else SettingsRead(result)
  {
    var defaultDuration := 4;
    var defaultOctave := 6;
    var tempo := 63;
    var k := 0;
    while k < |settings|
      invariant 0 <= k <= |settings|
      invariant SettingsOf(settings[k..], Settings(defaultDuration, defaultOctave, tempo)) == SettingsOf(settings, DEFAULTS)
    {
      var current := Settings(defaultDuration, defaultOctave, tempo);
      SettingsOfStep(settings, k, current);
      var next;
      next, error := ReadSetting(settings[k], current);
      if error.Some? {
        return current, error;
      }
      defaultDuration, defaultOctave, tempo := next.defaultDuration, next.defaultOctave, next.tempo;
      k := k + 1;
    }
    return Settings(defaultDuration, defaultOctave, tempo), None;
  }

  /** The value after the `=`, parsed as an `int`. */
  method ReadValue(key: string) returns (valueNum: Option<int>)
    ensures valueNum == ParseInt(SettingValue(key))
    ensures valueNum.Some? ==> |key| > 0
  {
    var value := key[IndexOf(key, '=') + 1..];
    assert value == SettingValue(key);
    valueNum := ParseInt(value);
  }

  /** The body of the settings loop, for the setting `s`. */
  method ReadSetting(s: string, current: Settings) returns (next: Settings, error: Option<RtttlError>)
    ensures ApplySetting(current, s) == if error.Some? then SettingsError(error.value) else SettingsRead(next)
  {
    next := current;
    var key := Clean(s);
    var valueNum := ReadValue(key);
    if valueNum.None? {
      return next, Some(CannotReadSettings);
    }
    var valueNumber := valueNum.value;
    if key[0] == 'd' {
      next := next.(defaultDuration := valueNumber);
    } else if key[0] == 'o' {
      next := next.(defaultOctave := valueNumber);
    } else if key[0] == 'b' {
      next := next.(tempo := valueNumber);
    } else {
      return next, Some(SettingNotAllowed(s));
    }
    return next, None;
  }

  /** One step of `NotesInto`: the note at `k`, then the ones after it. */
  lemma NotesFromStep(results: seq<NoteResult>, k: nat, tempo: int, song: SongValue)
    requires k < |results|
    ensures NotesFrom(results[k..], tempo, song)
      == if results[k].NoteError? then song.WithError(Message(results[k].error))
         else NotesFrom(results[k + 1..], tempo, AddNote(song, results[k].note, tempo))
  {
    assert results[k..][1..] == results[k + 1..];
  }

  /**
    The notes loop: each note is cleaned, read and appended to the song;
    the first one that cannot be read adds its error and ends the loop.
  */
  method CompileNotes(notes: seq<string>, settings: Settings, song: Song)
    modifies song
    ensures song.Value() == NotesInto(notes, settings, old(song.Value()))
  {
    ghost var results := ReadAll(notes, settings);
    ghost var goal := NotesFrom(results, settings.tempo, song.Value());
    var k := 0;
    while k < |notes|
      invariant 0 <= k <= |notes|
      invariant NotesFrom(results[k..], settings.tempo, song.Value()) == goal
    {
      NotesFromStep(results, k, settings.tempo, song.Value());
      var stop := CompileNote(Clean(notes[k]), settings, song, results[k]);
      if stop {
        return;
      }
      k := k + 1;
    }
  }

  /** One note of the loop: read it, then append it, or add its error and say that the loop stops. */
  method CompileNote(note: string, settings: Settings, song: Song, ghost expected: NoteResult) returns (stop: bool)
    requires expected == ParseNote(note, settings)
    modifies song
    ensures stop == expected.NoteError?
    ensures song.Value() == if stop then old(song.Value()).WithError(Message(expected.error))
                            else AddNote(old(song.Value()), expected.note, settings.tempo)
  {
    var result := ReadNote(note, settings);
    if result.NoteError? {
      song.errors := song.errors + [Message(result.error)];
      return true;
    }
    AppendNote(song, result.note, settings.tempo);
    return false;
  }

  /** `addTone` for a tone, `addRest` for a rest, at the tempo of the settings. */
  method AppendNote(song: Song, note: RtttlNote, tempo: int)
    modifies song
    ensures song.Value() == AddNote(old(song.Value()), note, tempo)
  {
    match note
    case NoteTone(noteValue, wholeNoteDuration) =>
      song.AddToneTempo(noteValue, wholeNoteDuration, tempo as real);
    case NoteRest(wholeNoteDuration) =>
      song.AddRestTempo(wholeNoteDuration, tempo as real);
  }

  /**
    Reads one cleaned note with a cursor, `currIndex`. Reading past the end
    of the note is an exception in the compiler: at the dots and the octave
    it is ignored, at the letter it is the note error.
  */
  method ReadNote(note: string, settings: Settings) returns (result: NoteResult)
    ensures result == ParseNote(note, settings)
  {
    var duration, dotted, currIndex := ReadDuration(note, settings);
    if currIndex >= |note| {
      return NoteError(CannotReadNote);
    }
    if IndexOf(FIRST_LETTERS, note[currIndex]) == -1 {
      return NoteError(BadNoteLetter(note));
    }
    var noteValue, isRest;
    noteValue, isRest, currIndex := ReadLetter(note, currIndex);
    result := ReadOctave(note, currIndex, settings, duration, dotted, noteValue, isRest);
  }

  /** The duration digits, at most two, and the `.` that may follow them. */
  method ReadDuration(note: string, settings: Settings) returns (duration: int, dotted: bool, currIndex: nat)
    ensures duration == DurationOf(note, settings)
    ensures dotted == DotAt(note, DurationDigits(note))
    ensures currIndex == LetterAt(note)
  {
    duration := settings.defaultDuration;
    dotted := false;
    currIndex := 0;
    var durationString := "";
    var i := 0;
    while i < 2
      invariant 0 <= i <= 2 && currIndex == i <= DurationDigits(note)
      invariant durationString == note[..i]
    {
      if |note| > i && IsDigit(note[i]) {
        durationString := durationString + [note[i]];
        currIndex := currIndex + 1;
      } else {
        break;
      }
      i := i + 1;
    }
    if |durationString| > 0 {
      duration := ParseDigits(durationString);
    }
    if currIndex < |note| && note[currIndex] == '.' {
      dotted := true;
      currIndex := currIndex + 1;
    }
  }

  /** `Integer.parseInt` of a string of decimal digits short enough to fit an `int`. */
  method ParseDigits(digits: string) returns (n: int)
    requires 0 < |digits| <= 2 && AllDigits(digits)
    ensures n == DigitsValue(digits)
  {
    var parsed := ParseInt(digits);
    assert DigitsValue(digits) < 100 by {
      if |digits| == 2 {
        assert DigitsValue(digits[..1]) < 10 by {
          assert digits[..1][..0] == [];
        }
      } else {
        assert digits[..0] == [];
      }
    }
    n := parsed.value;
  }

  /** The letter at `currIndex` and a `#` or `b` after it. */
  method ReadLetter(note: string, currIndex: nat) returns (noteValue: int, isRest: bool, next: nat)
    requires currIndex < |note| && note[currIndex] in FIRST_LETTERS
    ensures noteValue == PitchClass(note, currIndex)
    ensures isRest == (note[currIndex] == 'p')
    ensures next == OctaveAt(note, currIndex)
  {
    noteValue := 0;
    isRest := false;
    if note[currIndex] == 'p' {
      isRest := true;
    } else {
      noteValue := IndexOf(SCALE_SPACING, note[currIndex]);
    }
    next := currIndex + 1;
    if |note| > next && IndexOf(SECOND_LETTERS, note[next]) > -1 {
      if note[next] == 'b' {
        noteValue := noteValue - 1;
      } else {
        noteValue := noteValue + 1;
      }
      next := next + 1;
    }
  }

  /** The octave digit at `i`, when there is one: 4 to 7 is the octave, any other digit is an error. */
  method ReadOctaveDigit(note: string, i: nat, defaultOctave: int) returns (octave: int, next: nat, bad: bool)
    ensures bad == (!OctaveDigitAt(note, i) && i < |note| && IsDigit(note[i]))
    ensures !bad ==> octave == (if OctaveDigitAt(note, i) then DigitValue(note[i]) else defaultOctave)
    ensures !bad ==> next == if OctaveDigitAt(note, i) then i + 1 else i
  {
    octave, next, bad := defaultOctave, i, false;
    if i < |note| {
      if '4' <= note[i] <= '7' {
        if note[i] == '4' {
          octave := 4;
        } else if note[i] == '5' {
          octave := 5;
        } else if note[i] == '6' {
          octave := 6;
        } else {
          octave := 7;
        }
        next := i + 1;
      } else if IsDigit(note[i]) {
        bad := true;
      }
    }
  }

  /** The octave digit at `currIndex`, a `.` after it, and the note those complete. */
  method ReadOctave(note: string, currIndex: nat, settings: Settings, duration: int, dotted: bool, noteValue: int, isRest: bool)
    returns (result: NoteResult)
    requires LetterAt(note) < |note| && note[LetterAt(note)] in FIRST_LETTERS
    requires currIndex == OctaveAt(note, LetterAt(note))
    requires duration == DurationOf(note, settings) && dotted == DotAt(note, DurationDigits(note))
    requires noteValue == PitchClass(note, LetterAt(note)) && isRest == (note[LetterAt(note)] == 'p')
    ensures result == ParseNote(note, settings)
  {
    var dotted' := dotted;
    var octave, i, bad := ReadOctaveDigit(note, currIndex, settings.defaultOctave);
    if bad {
      return NoteError(BadOctave);
    }
    if i < |note| && note[i] == '.' {
      dotted' := true;
      i := i + 1;
    }
    var wholeNoteDuration := DoubleDiv(1.0, duration as real);
    if dotted' {
      wholeNoteDuration := wholeNoteDuration * 1.5;
    }
    if !isRest {
      // Java's `int` arithmetic wraps at every step; wrapping once at the end gives the same value.
      return NoteParsed(NoteTone(Wrap32(noteValue + (octave + 1) * 12), wholeNoteDuration));
    } else {
      return NoteParsed(NoteRest(wholeNoteDuration));
    }
  }
}
