# ToneScribe core in Dafny

ToneScribe is an editor that turns music written as text into tones. This
project models the core of it:

- **the MusicString compiler**: the tokenizer, the `Token` class, and the
  compiler that turns words into a `Song`. The compiler tracks time in
  beats and milliseconds under a tempo, including a gradual tempo ramp. It
  also applies the key signature, transposition, triplets and tremolo, and
  keeps only the notes inside the selection.
- **the song model**: `Song`, `SongEvent` and `ToneEvent`, and the note
  frequency `Song.getNoteFreq`.
- **the RTTTL compiler**, which reads the three-section ring-tone format
  `name:settings:notes`.
- **`SongPlayer.generateSong`**, which renders a song into a buffer of
  stereo 8-bit square-wave samples.
- **the Generic, Beep and Precise linkers**, which write a song out as
  program text.
- **`CompareVersion`**, which compares dotted version numbers.

The modules follow the source's structure:

- `java_lang.dfy`, module `JavaLang`: the Java semantics the core relies on: 32-bit `int` wrap-around, `/` and `%`, the `(int)` cast of a `double`, `isDigit`, `isWhitespace`, `toLowerCase`, `trim`, `indexOf`, `split`, `parseInt`, `Integer.toString`, `replace`
- `token.dfy`, module `Tokens`: `Token`, as a class with its two fields, and its value `Lexeme`
- `lexing.dfy`, module `Lexing`: `Words`, a reference definition of what the tokenizer produces, and its properties
- `tokenizer.dfy`, module `Tokenizer`: `tokenize`, the loop over the characters and the removal of empty tokens, proved equal to `Words`
- `song.dfy`, module `Songs`: `SongEvent`/`ToneEvent` and `Song` as classes; `SongValue`, the value of a song; `getNoteFreq`
- `music_string.dfy`, module `MusicString`: the compiler as functions over a `CompilerState` value: recognisers, durations, pitch, key signature, the tempo clock, and the fold over the words; its properties
- `music_string_compiler.dfy`, module `MusicStringCompiler`: `MusicStringSongCompiler`, as a class with the Java fields; its methods are proved against `MusicString`
- `rtttl.dfy`, module `Rtttl`: `RTTTLSongCompiler`: its functions, its properties, and its loops as methods over a `Song` object
- `player.dfy`, module `Player`: `SongPlayer.generateSong`/`generateTone`: an array is filled frame by frame and proved equal to `RenderEvents`
- `linkers.dfy`, module `Linkers`: the three linkers' loops and the precise linker's frequency switch and template
- `versions.dfy`, module `Versions`: `CompareVersion`

`double` and `float` values are `real` numbers. The exceptions the Java
code throws or catches are explicit values: a `thrown` flag, `None`, or an
error message.

### Where the model follows the code rather than the design

The design notes describe some behaviours differently from the Java
code. In each case below the model follows the code.

- **Tempo ramps.** `tempoTimeIntegralTerm`
  (MusicStringSongCompiler.java:280-285) integrates seconds per beat as a
  linear function of the beat, not 1/BPM with BPM linear. A ramp from 60
  to 120 BPM over 4 beats therefore takes 3000 ms, not the 2773 ms that
  integrating 1/BPM(x) gives. `MusicString.RampExample` proves the 3000 ms.
- **The order of flats.** Negative key signatures lower pitch classes in
  the order B, E, A, D, G, C, F (MusicStringSongCompiler.java:514-527),
  and sharps raise them in the order F, C, G, D, A, E, B. The design text
  starts the flats at F and the sharps at C.
  `MusicString.KeyAdjustReference` states the code's order.
- **Selection is containment.** A note is kept only when
  `textPos >= selectionStart` and `textEndPos <= selectionEnd`
  (MusicStringSongCompiler.java:555-556). A note that merely overlaps the
  selection is dropped.
- **A skipped note leaves no gap.** `Song.addTone`/`addRest` place each
  event at `currLengthSec` (Song.java:43-76), which only grows for events
  that are appended. In "c d" with only `d` selected, `d` starts at 0.0,
  not after the time of `c`. The compiler's own clock does advance over
  `c`, so a tempo ramp still sees the skipped beats.
  `MusicString.CompileChained` proves that every compiled song is
  `Chained`: the first event starts at 0 and each later one starts where
  the one before it ends.
- **A tremolo note advances the clock once per tremble.** Each pass of
  the tremolo loop calls `incrementCurrTime` with the whole note's beats
  and divides the result by the number of trembles
  (MusicStringSongCompiler.java:564-570). The song grows by the note's
  time, but the compiler's beat clock gains the note's beats eight times
  per quarter note. This shifts where a later tempo ramp starts and ends.
  `MusicString.Tremolo` does the same.
- **An empty RTTTL settings section is an error.** "x::c" splits its
  settings into one empty piece, and `parseInt` of it fails
  (RTTTLSongCompiler.java:78-108). `Rtttl.EmptySettingsSection` states
  this.

## Model

| member | source | states |
|---|---|---|
| JavaLang.Wrap32 | ToneScribe/src/com/tonescribe/song/compiler/musicstring/MusicStringSongCompiler.java:549-552 | the result is a 32-bit `int`, congruent to the exact sum modulo 2^32, and equal to it when the sum fits |
| JavaLang.JavaDivRem | ToneScribe/src/com/tonescribe/song/compiler/musicstring/MusicStringSongCompiler.java:514-540 | Java's truncating `/` and `%` satisfy a == (a / b) * b + a % b, with the remainder smaller than the divisor in magnitude |
| JavaLang.IntCast | ToneScribe/src/com/tonescribe/song/linker/GenericSongLinker.java:26-27 | the `(int)` cast of a double truncates toward zero inside the `int` range and saturates at `Integer.MIN_VALUE`/`MAX_VALUE` outside it |
| JavaLang.DoubleDiv | ToneScribe/src/com/tonescribe/song/compiler/musicstring/MusicStringSongCompiler.java:265 | a quotient by a non-zero divisor times the divisor is the dividend |
| JavaLang.ToLower | ToneScribe/src/com/tonescribe/song/compiler/musicstring/MusicStringSongCompiler.java:143 | lower-casing keeps the length and lower-cases each ASCII capital, leaving every other character as it is |
| JavaLang.TrimStart | ToneScribe/src/com/tonescribe/song/compiler/RTTTLSongCompiler.java:84 | `trim`'s leading part drops exactly the characters up to U+0020 before the first visible one |
| JavaLang.TrimEnd | ToneScribe/src/com/tonescribe/song/compiler/RTTTLSongCompiler.java:84 | `trim`'s trailing part drops exactly the characters up to U+0020 after the last visible one |
| JavaLang.IndexOf | ToneScribe/src/com/tonescribe/song/compiler/RTTTLSongCompiler.java:85 | `indexOf` is -1 exactly when the character is absent, and otherwise its first position |
| JavaLang.SplitAll | ToneScribe/src/com/tonescribe/song/compiler/RTTTLSongCompiler.java:51 | there is always at least one piece |
| JavaLang.JoinSplitAll | ToneScribe/src/com/tonescribe/song/compiler/RTTTLSongCompiler.java:51 | joining the pieces with the separator gives the text back |
| JavaLang.SplitAllJoin | ToneScribe/src/com/tonescribe/song/compiler/RTTTLSongCompiler.java:51 | pieces without the separator, joined with it, split back into the same pieces |
| JavaLang.SplitAllNoSep | ToneScribe/src/com/tonescribe/song/compiler/RTTTLSongCompiler.java:78 | no piece holds the separator |
| JavaLang.Split | ToneScribe/src/com/tonescribe/update/CompareVersion.java:58-59 | `split` gives pieces that do not hold the separator |
| JavaLang.SplitPieces | ToneScribe/src/com/tonescribe/song/compiler/RTTTLSongCompiler.java:114 | `split` gives every piece of the text, and only the trailing empty pieces are dropped |
| JavaLang.SplitOfJoin | ToneScribe/src/com/tonescribe/update/CompareVersion.java:58-59 | pieces without the separator, the last one non-empty, joined with the separator split back into the same pieces |
| JavaLang.SplitThree | ToneScribe/src/com/tonescribe/song/compiler/RTTTLSongCompiler.java:51-68 | three pieces without a colon, the last one non-empty, joined by colons split back into the three |
| JavaLang.ParseInt | ToneScribe/src/com/tonescribe/song/compiler/RTTTLSongCompiler.java:86 | `parseInt` succeeds only on a sign or digit first, and only with a value in the `int` range |
| JavaLang.NatToString | ToneScribe/src/com/tonescribe/song/linker/PreciseSongLinker.java:118 | the decimal digits of a natural number have its value and no leading zero |
| JavaLang.ParseIntToString | ToneScribe/src/com/tonescribe/song/linker/PreciseSongLinker.java:118-119 | `parseInt` reads back what `Integer.toString` writes, for every `int` |
| JavaLang.ReplaceAllAbsent | ToneScribe/src/com/tonescribe/song/linker/PreciseSongLinker.java:127-129 | `replace` leaves a text without the pattern unchanged |
| JavaLang.ReplaceAllAtFront | ToneScribe/src/com/tonescribe/song/linker/PreciseSongLinker.java:127-129 | replacing a pattern that occurs once, at the front, puts the replacement in its place |
| Tokens.Token.constructor | ToneScribe/src/com/tonescribe/song/compiler/musicstring/Token.java:43-47 | a token holds the given text and start offset |
| Tokens.Token.AddChar | ToneScribe/src/com/tonescribe/song/compiler/musicstring/Token.java:49-51 | the character is appended to the text, the start offset stays, and the end offset grows by one |
| Tokens.Token.GetTokenText | ToneScribe/src/com/tonescribe/song/compiler/musicstring/Token.java:53-55 | returns the text |
| Tokens.Token.SetTokenText | ToneScribe/src/com/tonescribe/song/compiler/musicstring/Token.java:57-59 | sets the text and leaves the offset |
| Tokens.Token.GetTextPos | ToneScribe/src/com/tonescribe/song/compiler/musicstring/Token.java:61-63 | returns the start offset |
| Tokens.Token.SetTextPos | ToneScribe/src/com/tonescribe/song/compiler/musicstring/Token.java:65-67 | sets the start offset and leaves the text |
| Tokens.Token.GetTextEndPos | ToneScribe/src/com/tonescribe/song/compiler/musicstring/Token.java:73-75 | the end offset is the start offset plus the text's length, and never before the start |
| Tokens.ValuesRemove | ToneScribe/src/com/tonescribe/song/compiler/musicstring/MusicStringSongCompiler.java:647-652 | removing a token from the list removes its value and nothing else |
| Lexing.CommentEnd | ToneScribe/src/com/tonescribe/song/compiler/musicstring/MusicStringSongCompiler.java:595-630 | a comment's end lies between its start and the end of the text |
| Lexing.WordEnd | ToneScribe/src/com/tonescribe/song/compiler/musicstring/MusicStringSongCompiler.java:587-635 | a word runs up to the first whitespace after its start, or to the end of the text |
| Lexing.WordsAreSlices | ToneScribe/src/com/tonescribe/song/compiler/musicstring/MusicStringSongCompiler.java:583-654 | every word is non-empty, free of whitespace, does not start with `#`, and equals the slice of the text at its offset |
| Lexing.WordsOrdered | ToneScribe/src/com/tonescribe/song/compiler/musicstring/MusicStringSongCompiler.java:583-654 | the words come in strictly increasing order of offset, with at least one character between two of them |
| Lexing.WordsWellFormed | ToneScribe/src/com/tonescribe/song/compiler/musicstring/MusicStringSongCompiler.java:583-654 | both of the above, for the words of any text |
| Lexing.WordsMaximal | ToneScribe/src/com/tonescribe/song/compiler/musicstring/MusicStringSongCompiler.java:589-593 | every word is maximal: whitespace or the start of the text comes before it, and whitespace or the end of the text comes after it |
| Lexing.WordsOfBlank | ToneScribe/src/com/tonescribe/song/compiler/musicstring/MusicStringSongCompiler.java:589-593 | a text that holds only whitespace from some point on has no words after that point |
| Lexing.CommentSkipsLine | ToneScribe/src/com/tonescribe/song/compiler/musicstring/MusicStringSongCompiler.java:595-630 | the words after a `#` that starts a word are the words from the comment's end, which is the end of the text or the first character after a run of line breaks |
| Lexing.CommentEndShape | ToneScribe/src/com/tonescribe/song/compiler/musicstring/MusicStringSongCompiler.java:605-623 | a comment's end is the end of the text, or a character that follows a line break and is not one itself |
| Lexing.SharpInsideWord | ToneScribe/src/com/tonescribe/song/compiler/musicstring/MusicStringSongCompiler.java:595 | a `#` inside a word is kept: "c# d" is the words "c#" at 0 and "d" at 3 |
| Lexing.CommentLine | ToneScribe/src/com/tonescribe/song/compiler/musicstring/MusicStringSongCompiler.java:595-630 | a comment line, spaces included, yields no words: "#x y\nc" is the one word "c" at 5 |
| Lexing.WordsOfWord | ToneScribe/src/com/tonescribe/song/compiler/musicstring/MusicStringSongCompiler.java:631-641 | a run of characters that are not whitespace, not starting with `#` and ending at whitespace or the end of the text, is one word |
| Lexing.NonEmpty | ToneScribe/src/com/tonescribe/song/compiler/musicstring/MusicStringSongCompiler.java:647-652 | dropping the empty tokens never makes the list longer |
| Lexing.NonEmptyConcat | ToneScribe/src/com/tonescribe/song/compiler/musicstring/MusicStringSongCompiler.java:647-652 | dropping the empty tokens distributes over concatenation |
| Lexing.NonEmptyAppend | ToneScribe/src/com/tonescribe/song/compiler/musicstring/MusicStringSongCompiler.java:647-652 | an appended token is kept exactly when it is not empty |
| Lexing.DropEmpty | ToneScribe/src/com/tonescribe/song/compiler/musicstring/MusicStringSongCompiler.java:648-650 | removing one empty token does not change the non-empty ones |
| Lexing.NonEmptyDropsEmpty | ToneScribe/src/com/tonescribe/song/compiler/musicstring/MusicStringSongCompiler.java:647-652 | no token that is kept is empty |
| Tokenizer.ScanSeparator | ToneScribe/src/com/tonescribe/song/compiler/musicstring/MusicStringSongCompiler.java:589-593 | whitespace closes the current token and starts an empty one at the next offset |
| Tokenizer.ScanChar | ToneScribe/src/com/tonescribe/song/compiler/musicstring/MusicStringSongCompiler.java:631-634 | any other character extends the current token |
| Tokenizer.ScanComment | ToneScribe/src/com/tonescribe/song/compiler/musicstring/MusicStringSongCompiler.java:595-630 | a `#` that starts a token skips to the comment's end and starts an empty token there |
| Tokenizer.ScanCommentToEnd | ToneScribe/src/com/tonescribe/song/compiler/musicstring/MusicStringSongCompiler.java:610-611 | a comment that runs to the end of the text ends the scan: the tokens read so far, empty ones dropped, are all the words |
| Tokenizer.ScanEnd | ToneScribe/src/com/tonescribe/song/compiler/musicstring/MusicStringSongCompiler.java:639-641 | at the end of the text, the token being read is the last one |
| Tokenizer.SkipComment | ToneScribe/src/com/tonescribe/song/compiler/musicstring/MusicStringSongCompiler.java:605-630 | the inner loop stops at the comment's end, and reports whether that is the end of the text |
| Tokenizer.Extend | ToneScribe/src/com/tonescribe/song/compiler/musicstring/MusicStringSongCompiler.java:632 | `addChar` on the current token leaves every token already in the list as it was |
| Tokenizer.CloseToken | ToneScribe/src/com/tonescribe/song/compiler/musicstring/MusicStringSongCompiler.java:589-593 | the current token is added to the list, and a fresh empty token starts after the whitespace |
| Tokenizer.ReadChar | ToneScribe/src/com/tonescribe/song/compiler/musicstring/MusicStringSongCompiler.java:588-635 | one pass of the character loop keeps the scan invariant, or, at a comment that runs to the end, gives all the words |
| Tokenizer.ReadTokens | ToneScribe/src/com/tonescribe/song/compiler/musicstring/MusicStringSongCompiler.java:583-641 | the tokens of the scan, with the empty ones dropped, are exactly `Words` of the text |
| Tokenizer.RemoveEmptyTokens | ToneScribe/src/com/tonescribe/song/compiler/musicstring/MusicStringSongCompiler.java:647-652 | the removal loop keeps exactly the non-empty tokens, in order |
| Tokenizer.Tokenize | ToneScribe/src/com/tonescribe/song/compiler/musicstring/MusicStringSongCompiler.java:583-654 | `tokenize` returns exactly the words of the text, in order, each with its offset |
| Songs.NewSongChained | ToneScribe/src/com/tonescribe/song/Song.java:16-25 | a new song is chained: no events, and a length of 0 |
| Songs.WithToneChained | ToneScribe/src/com/tonescribe/song/Song.java:49-52 | appending a tone keeps the song chained |
| Songs.WithRestChained | ToneScribe/src/com/tonescribe/song/Song.java:54-57 | appending a rest keeps the song chained |
| Songs.ChainedWithinLength | ToneScribe/src/com/tonescribe/song/Song.java:78-81 | with durations that are not negative, no event of a chained song ends after the song's length |
| Songs.ChainedInTimeOrder | ToneScribe/src/com/tonescribe/song/Song.java:43-76 | with durations that are not negative, the events of a chained song are in time order |
| Songs.TempoSecondsFormula | ToneScribe/src/com/tonescribe/song/Song.java:59-76 | a note of w whole notes at a tempo of B BPM lasts w * 4 * 60 / B seconds |
| Songs.SemitoneRatio | ToneScribe/src/com/tonescribe/song/Song.java:84 | each semitone ratio lies in [1, 2) |
| Songs.Pow2Succ | ToneScribe/src/com/tonescribe/song/Song.java:84 | the octave factor doubles from each octave to the next |
| Songs.NoteFreqPositive | ToneScribe/src/com/tonescribe/song/Song.java:83-85 | every note frequency is positive |
| Songs.NoteFreqOctave | ToneScribe/src/com/tonescribe/song/Song.java:83-85 | one octave up doubles the frequency |
| Songs.NoteFreqStep | ToneScribe/src/com/tonescribe/song/Song.java:83-85 | one semitone up raises the frequency |
| Songs.NoteFreqIncreasing | ToneScribe/src/com/tonescribe/song/Song.java:83-85 | a higher note has a higher frequency |
| Songs.MiddleCFreq | ToneScribe/src/com/tonescribe/song/Song.java:83-85 | note 60, middle C, sounds at 261.6255652992 Hz |
| Songs.SongEvent.ToneEvent | ToneScribe/src/com/tonescribe/song/ToneEvent.java:14-17 | a tone event holds its time, duration and pitch |
| Songs.SongEvent.RestEvent | ToneScribe/src/com/tonescribe/song/SongEvent.java:12-16 | a rest event holds its time and duration |
| Songs.SongEvent.GetTimeSeconds | ToneScribe/src/com/tonescribe/song/SongEvent.java:21-23 | returns the start time |
| Songs.SongEvent.SetTimeSeconds | ToneScribe/src/com/tonescribe/song/SongEvent.java:25-27 | sets the start time and nothing else |
| Songs.SongEvent.GetDurationSeconds | ToneScribe/src/com/tonescribe/song/SongEvent.java:29-31 | returns the duration |
| Songs.SongEvent.SetDurationSeconds | ToneScribe/src/com/tonescribe/song/SongEvent.java:33-35 | sets the duration and nothing else |
| Songs.SongEvent.GetPitch | ToneScribe/src/com/tonescribe/song/ToneEvent.java:19-21 | returns a tone's pitch |
| Songs.SongEvent.SetPitch | ToneScribe/src/com/tonescribe/song/ToneEvent.java:23-25 | sets a tone's pitch and nothing else |
| Songs.Song.constructor | ToneScribe/src/com/tonescribe/song/Song.java:16-25 | a new song has no events, no errors, a length of 0, and the window [0, Double.MAX_VALUE] |
| Songs.Song.GetTones | ToneScribe/src/com/tonescribe/song/Song.java:27-29 | returns the event list |
| Songs.Song.SetTones | ToneScribe/src/com/tonescribe/song/Song.java:31-33 | sets the event list and nothing else |
| Songs.Song.GetErrors | ToneScribe/src/com/tonescribe/song/Song.java:35-37 | returns the error list |
| Songs.Song.SetErrors | ToneScribe/src/com/tonescribe/song/Song.java:39-41 | sets the error list and nothing else |
| Songs.Song.AddToneNote | ToneScribe/src/com/tonescribe/song/Song.java:43-47 | appends a fresh tone at the current length, at the note's frequency, and grows the length by its duration |
| Songs.Song.AddToneFreq | ToneScribe/src/com/tonescribe/song/Song.java:49-52 | appends a fresh tone at the current length, at the given frequency, and grows the length by its duration |
| Songs.Song.AddRest | ToneScribe/src/com/tonescribe/song/Song.java:54-57 | appends a fresh rest at the current length, and grows the length by its duration |
| Songs.Song.AddToneTempo | ToneScribe/src/com/tonescribe/song/Song.java:59-67 | appends a tone whose seconds come from the whole-note length and the tempo |
| Songs.Song.AddRestTempo | ToneScribe/src/com/tonescribe/song/Song.java:69-76 | appends a rest whose seconds come from the whole-note length and the tempo |
| Songs.Song.IncrementLength | ToneScribe/src/com/tonescribe/song/Song.java:78-81 | the length grows by the duration and nothing else changes |
| Songs.Song.GetCurrLengthSec | ToneScribe/src/com/tonescribe/song/Song.java:87-89 | returns the length |
| Songs.Song.SetCurrLengthSec | ToneScribe/src/com/tonescribe/song/Song.java:91-93 | sets the length and nothing else |
| Songs.Song.GetSelectionStartTimeSec | ToneScribe/src/com/tonescribe/song/Song.java:95-97 | returns the window's start |
| Songs.Song.SetSelectionStartTimeSec | ToneScribe/src/com/tonescribe/song/Song.java:99-101 | sets the window's start and nothing else |
| Songs.Song.GetSelectionEndTimeSec | ToneScribe/src/com/tonescribe/song/Song.java:103-105 | returns the window's end |
| Songs.Song.SetSelectionEndTimeSec | ToneScribe/src/com/tonescribe/song/Song.java:107-109 | sets the window's end and nothing else |
| MusicString.LetterDuration | ToneScribe/src/com/tonescribe/song/compiler/musicstring/MusicStringSongCompiler.java:486-488 | each duration letter is a positive fraction of a whole note, at most one |
| MusicString.DurationsFromStep | ToneScribe/src/com/tonescribe/song/compiler/musicstring/MusicStringSongCompiler.java:341-363 | the left-to-right duration scan adds each letter's value, or 1.5 times it before a dot that it then skips |
| MusicString.DurationsFromGroups | ToneScribe/src/com/tonescribe/song/compiler/musicstring/MusicStringSongCompiler.java:338-367 | the scan's sum equals the value of the duration string read group by group, for every string of the regex's duration shape |
| MusicString.HalfLetter | ToneScribe/src/com/tonescribe/song/compiler/musicstring/MusicStringSongCompiler.java:486-488 | `h` is half a whole note |
| MusicString.QuarterLetter | ToneScribe/src/com/tonescribe/song/compiler/musicstring/MusicStringSongCompiler.java:486-488 | `q` is a quarter of a whole note |
| MusicString.DottedQuarterExample | ToneScribe/src/com/tonescribe/song/compiler/musicstring/MusicStringSongCompiler.java:486-498 | "q." is 3/8 of a whole note |
| MusicString.HalfQuarterExample | ToneScribe/src/com/tonescribe/song/compiler/musicstring/MusicStringSongCompiler.java:486-498 | "hq" is 3/4 of a whole note |
| MusicString.DigitRunEnd | ToneScribe/src/com/tonescribe/song/compiler/musicstring/MusicStringSongCompiler.java:329-333 | the digit loop stops at the first character that is not a digit |
| MusicString.ScanNoteDot | ToneScribe/src/com/tonescribe/song/compiler/musicstring/MusicStringSongCompiler.java:455-500 | a `.` changes nothing in the note's pitch, accidental, triplet, tremolo or octave |
| MusicString.KeyAdjustReference | ToneScribe/src/com/tonescribe/song/compiler/musicstring/MusicStringSongCompiler.java:513-542 | a key signature of -k lowers the first k of B, E, A, D, G, C, F by a semitone, +k raises the first k of F, C, G, D, A, E, B, and no other pitch class moves |
| MusicString.KeyAdjustBounded | ToneScribe/src/com/tonescribe/song/compiler/musicstring/MusicStringSongCompiler.java:513-542 | the key signature moves a note by at most one semitone |
| MusicString.Advance | ToneScribe/src/com/tonescribe/song/compiler/musicstring/MusicStringSongCompiler.java:230-273 | the clock gains exactly the beats, the milliseconds returned are the clock's gain, and nothing else in the state changes |
| MusicString.AdvanceAfterRamp | ToneScribe/src/com/tonescribe/song/compiler/musicstring/MusicStringSongCompiler.java:264-266 | after a ramp, or with none, b beats take b * 60000 / tempo ms |
| MusicString.IntegralTermConstant | ToneScribe/src/com/tonescribe/song/compiler/musicstring/MusicStringSongCompiler.java:280-285 | with equal initial and final tempo, the integral term is beat / tempo |
| MusicString.RampTotal | ToneScribe/src/com/tonescribe/song/compiler/musicstring/MusicStringSongCompiler.java:280-285 | a whole ramp of L beats takes L * (1/initial + 1/final) / 2 minutes |
| MusicString.RampExample | ToneScribe/src/com/tonescribe/song/compiler/musicstring/MusicStringSongCompiler.java:280-285 | a ramp from 60 to 120 BPM over 4 beats takes 3000 ms |
| MusicString.AdvanceAfter | ToneScribe/src/com/tonescribe/song/compiler/musicstring/MusicStringSongCompiler.java:264-266 | past the ramp's end, every beat takes one beat's time at the current tempo |
| MusicString.AdvanceCrossing | ToneScribe/src/com/tonescribe/song/compiler/musicstring/MusicStringSongCompiler.java:235-266 | an advance across the ramp's end takes the rest of the ramp's integral, then the remaining beats at the current tempo |
| MusicString.AdvanceInside | ToneScribe/src/com/tonescribe/song/compiler/musicstring/MusicStringSongCompiler.java:240-260 | an advance that stays inside the ramp takes only the ramp's integral |
| MusicString.AdvanceAdditive | ToneScribe/src/com/tonescribe/song/compiler/musicstring/MusicStringSongCompiler.java:230-273 | advancing by a then by b ends in the same state as advancing by a + b |
| MusicString.AdditiveAfterRamp | ToneScribe/src/com/tonescribe/song/compiler/musicstring/MusicStringSongCompiler.java:264-266 | the same, when both advances are after the ramp |
| MusicString.AdditiveCrossing | ToneScribe/src/com/tonescribe/song/compiler/musicstring/MusicStringSongCompiler.java:235-266 | the same, when the first advance crosses the ramp's end |
| MusicString.AdditiveInsideRamp | ToneScribe/src/com/tonescribe/song/compiler/musicstring/MusicStringSongCompiler.java:240-260 | the same, when both advances stay inside the ramp |
| MusicString.AdditiveLeavingRamp | ToneScribe/src/com/tonescribe/song/compiler/musicstring/MusicStringSongCompiler.java:235-266 | the same, when the second advance crosses the ramp's end |
| MusicString.RampMSSplit | ToneScribe/src/com/tonescribe/song/compiler/musicstring/MusicStringSongCompiler.java:249-259 | the ramp's milliseconds from x to y plus those from y to z are those from x to z |
| MusicString.TempoBody | ToneScribe/src/com/tonescribe/song/compiler/musicstring/MusicStringSongCompiler.java:310-322 | after the `t` and its sign, a tempo token starts with a digit |
| MusicString.TempoDigits | ToneScribe/src/com/tonescribe/song/compiler/musicstring/MusicStringSongCompiler.java:327-333 | the amount of a tempo token is a non-empty run of digits |
| MusicString.TempoWhole | ToneScribe/src/com/tonescribe/song/compiler/musicstring/MusicStringSongCompiler.java:338-367 | a ramp's length in whole notes is never negative |
| MusicString.TempoChange | ToneScribe/src/com/tonescribe/song/compiler/musicstring/MusicStringSongCompiler.java:369-386 | the tempo becomes the new one, and a positive length installs a ramp from the current beat over length * 4 beats, from the old tempo to the new one; otherwise nothing else changes |
| MusicString.NoteDuration | ToneScribe/src/com/tonescribe/song/compiler/musicstring/MusicStringSongCompiler.java:486-510 | a note's length in whole notes is always positive |
| MusicString.Ceil | ToneScribe/src/com/tonescribe/song/compiler/musicstring/MusicStringSongCompiler.java:566 | the number of passes of `for (i = 0; i < trembles; i++)` is the least integer not below trembles |
| MusicString.TrembleAlternates | ToneScribe/src/com/tonescribe/song/compiler/musicstring/MusicStringSongCompiler.java:567-568 | the i-th tremble sounds at the note's frequency for even i and 1% above it for odd i |
| MusicString.ReadNoteOf | ToneScribe/src/com/tonescribe/song/compiler/musicstring/MusicStringSongCompiler.java:504-510 | a note read from an accepted token lasts a positive number of beats |
| MusicString.RunStep | ToneScribe/src/com/tonescribe/song/compiler/musicstring/MusicStringSongCompiler.java:142-197 | the loop over the words goes on after a word that succeeds, adds the error of a word that fails and stops, and stops without an error at one that throws |
| MusicString.TremoloGrew | ToneScribe/src/com/tonescribe/song/compiler/musicstring/MusicStringSongCompiler.java:566-571 | the tremolo loop from i to n appends n - i events and changes no error |
| MusicString.TremoloPitches | ToneScribe/src/com/tonescribe/song/compiler/musicstring/MusicStringSongCompiler.java:566-571 | every event the tremolo loop appends is a tone at the tremble frequency for its index |
| MusicString.TremoloNote | ToneScribe/src/com/tonescribe/song/compiler/musicstring/MusicStringSongCompiler.java:563-571 | a tremolo note of b beats appends exactly Ceil(b * 8) tones that alternate between the note's frequency and 1.01 times it, starting with the note's own |
| MusicString.NotePlayGrew | ToneScribe/src/com/tonescribe/song/compiler/musicstring/MusicStringSongCompiler.java:554-577 | playing a note, in the selection or not, only appends events |
| MusicString.StepGrew | ToneScribe/src/com/tonescribe/song/compiler/musicstring/MusicStringSongCompiler.java:142-196 | a word that lets the loop go on adds no error, only appends events, and keeps a chained song chained |
| MusicString.Played | ToneScribe/src/com/tonescribe/song/compiler/musicstring/MusicStringSongCompiler.java:142-197 | the number of words that let the loop go on is at most the number of words |
| MusicString.RunFailFast | ToneScribe/src/com/tonescribe/song/compiler/musicstring/MusicStringSongCompiler.java:131-200 | the words before the first one that fails or throws only append events, and running just them gives the same song; a failing word adds its one error and ends the run; a throwing word ends it with no error; no word after either is looked at |
| MusicString.PlayedPrefix | ToneScribe/src/com/tonescribe/song/compiler/musicstring/MusicStringSongCompiler.java:131-200 | the words before the first one that fails or throws only append events, and running just them gives the same song |
| MusicString.PlayedStop | ToneScribe/src/com/tonescribe/song/compiler/musicstring/MusicStringSongCompiler.java:131-200 | the run ends with all words read, or at the first word that fails (adding its one error) or throws (adding none) |
| MusicString.RunErrors | ToneScribe/src/com/tonescribe/song/compiler/musicstring/MusicStringSongCompiler.java:131-200 | a compilation adds at most one error, none when it throws, and never removes an event |
| MusicString.CompileChained | ToneScribe/src/com/tonescribe/song/compiler/musicstring/MusicStringSongCompiler.java:131-200 | every compiled song is chained: no gaps, even where notes outside the selection were skipped |
| MusicString.ScanNoteClosed | ToneScribe/src/com/tonescribe/song/compiler/musicstring/MusicStringSongCompiler.java:455-500 | the character loop's pitch is the letter's plus one per `#` and minus one per `b`; the note is an accidental exactly when a `#`, `b` or `n` occurs; the octave is the last digit |
| MusicString.ClosedAppend | ToneScribe/src/com/tonescribe/song/compiler/musicstring/MusicStringSongCompiler.java:455-500 | the loop's outcome on two parts of a token combines the outcomes on each part |
| MusicString.SignsAreAccidental | ToneScribe/src/com/tonescribe/song/compiler/musicstring/MusicStringSongCompiler.java:457-470 | any `#`, `b` or `n` makes the note an accidental, and signs hold no octave digit |
| MusicString.ScanOfParts | ToneScribe/src/com/tonescribe/song/compiler/musicstring/MusicStringSongCompiler.java:428-500 | the loop's outcome on a letter, signs, an optional octave digit and a duration tail |
| MusicString.PartsClosed | ToneScribe/src/com/tonescribe/song/compiler/musicstring/MusicStringSongCompiler.java:455-500 | the signs, the digit and the duration tail after the letter, in closed form |
| MusicString.NoteNumberOf | ToneScribe/src/com/tonescribe/song/compiler/musicstring/MusicStringSongCompiler.java:428-552 | the number of a note written as a letter, signs, an optional octave digit d and a duration tail is the letter's pitch moved by the signs (+1 per `#`, -1 per `b`), or by the key signature when there are none, plus (d + 1) * 12 with d = 4 when no digit is given, plus the transposition, all in 32-bit arithmetic |
| MusicString.DigitFirstClosed | ToneScribe/src/com/tonescribe/song/compiler/musicstring/MusicStringSongCompiler.java:455-500 | for a token written octave first, the loop's shift, accidental and octave depend only on the signs and the digit, as with the signs first |
| MusicString.NoteNumberOctaveFirst | ToneScribe/src/com/tonescribe/song/compiler/musicstring/MusicStringSongCompiler.java:409-552 | a note written as a letter, an optional octave digit d, then signs and a duration tail ("c5#q") has the same number as in the signs-first order: the letter's pitch moved by the signs or the key signature, plus (d + 1) * 12, plus the transposition, in 32-bit arithmetic |
| MusicString.ShiftRepeated | ToneScribe/src/com/tonescribe/song/compiler/musicstring/MusicStringSongCompiler.java:458-470 | k sharps move the note by +k, and k flats by -k |
| MusicStringCompiler.MusicStringSongCompiler.constructor | ToneScribe/src/com/tonescribe/song/compiler/musicstring/MusicStringSongCompiler.java:68-111 | a compiler holds the key-signature table, and every field starts at zero, key signature included |
| MusicStringCompiler.MusicStringSongCompiler.ResetCompiler | ToneScribe/src/com/tonescribe/song/compiler/musicstring/MusicStringSongCompiler.java:113-129 | the fields are reset: 120 BPM, no ramp, everything else 0, and the selection given |
| MusicStringCompiler.MusicStringSongCompiler.Compile | ToneScribe/src/com/tonescribe/song/compiler/musicstring/MusicStringSongCompiler.java:131-200 | `compile` returns a fresh song and whether an exception escaped, exactly as `MusicString.Compile` says |
| MusicStringCompiler.MusicStringSongCompiler.CompileTokens | ToneScribe/src/com/tonescribe/song/compiler/musicstring/MusicStringSongCompiler.java:142-197 | the loop over the tokens gives the song and the escape flag of `MusicString.Run` from the current state |
| MusicStringCompiler.MusicStringSongCompiler.CompileToken | ToneScribe/src/com/tonescribe/song/compiler/musicstring/MusicStringSongCompiler.java:142-197 | one token: either the run stops with `Run`'s outcome, or it goes on from the new state |
| MusicStringCompiler.MusicStringSongCompiler.ProcessToken | ToneScribe/src/com/tonescribe/song/compiler/musicstring/MusicStringSongCompiler.java:143-196 | the `tran` test, then the switch; the outcome is `TokenStep`'s, and a failure or a throw leaves the song unchanged |
| MusicStringCompiler.MusicStringSongCompiler.ProcessWord | ToneScribe/src/com/tonescribe/song/compiler/musicstring/MusicStringSongCompiler.java:157-195 | the switch on the first character; the outcome is `WordStep`'s, and a failure or a throw leaves the song unchanged |
| MusicStringCompiler.MusicStringSongCompiler.ProcessTranToken | ToneScribe/src/com/tonescribe/song/compiler/musicstring/MusicStringSongCompiler.java:208-221 | `tranreset` sets the transposition to 0, `tran+N`/`tran-N` adds N in 32-bit arithmetic, and an amount outside `int` throws and changes nothing |
| MusicStringCompiler.MusicStringSongCompiler.IncrementCurrTime | ToneScribe/src/com/tonescribe/song/compiler/musicstring/MusicStringSongCompiler.java:230-273 | the new state and the milliseconds returned are `Advance`'s |
| MusicStringCompiler.MusicStringSongCompiler.GetTempoChangeEnd | ToneScribe/src/com/tonescribe/song/compiler/musicstring/MusicStringSongCompiler.java:287-289 | the ramp ends at its start plus its length |
| MusicStringCompiler.MusicStringSongCompiler.ProcessTempo | ToneScribe/src/com/tonescribe/song/compiler/musicstring/MusicStringSongCompiler.java:303-390 | a tempo token is rejected, throws, or updates the state as `TempoUpdate` says; a rejection or a throw changes nothing |
| MusicStringCompiler.MusicStringSongCompiler.ReadTempo | ToneScribe/src/com/tonescribe/song/compiler/musicstring/MusicStringSongCompiler.java:310-367 | the sign, the parsed amount and the ramp length of a tempo token |
| MusicStringCompiler.MusicStringSongCompiler.SplitTempo | ToneScribe/src/com/tonescribe/song/compiler/musicstring/MusicStringSongCompiler.java:310-336 | the sign, the digits of the amount, and the text from the amount's last digit on |
| MusicStringCompiler.MusicStringSongCompiler.ScanDigits | ToneScribe/src/com/tonescribe/song/compiler/musicstring/MusicStringSongCompiler.java:327-333 | the leading run of digits, and the index of its last digit (0 when there is none) |
| MusicStringCompiler.MusicStringSongCompiler.ScanDurations | ToneScribe/src/com/tonescribe/song/compiler/musicstring/MusicStringSongCompiler.java:338-367 | the sum of the duration letters, dotted ones counting 1.5 times, and whether a `*` occurs |
| MusicStringCompiler.MusicStringSongCompiler.ChangeTempo | ToneScribe/src/com/tonescribe/song/compiler/musicstring/MusicStringSongCompiler.java:369-386 | the state becomes `TempoChange` of the old state |
| MusicStringCompiler.MusicStringSongCompiler.ProcessKeySig | ToneScribe/src/com/tonescribe/song/compiler/musicstring/MusicStringSongCompiler.java:392-403 | a known key name sets the key signature from the table; an unknown one is an error and changes nothing |
| MusicStringCompiler.MusicStringSongCompiler.ProcessNote | ToneScribe/src/com/tonescribe/song/compiler/musicstring/MusicStringSongCompiler.java:405-581 | a note token is rejected or played as `NoteStep` says; a rejection changes neither the state nor the song |
| MusicStringCompiler.MusicStringSongCompiler.PlayNote | ToneScribe/src/com/tonescribe/song/compiler/musicstring/MusicStringSongCompiler.java:554-577 | a note in the selection is added as a rest, a tone or a tremolo; a note outside it only advances the clock |
| MusicStringCompiler.MusicStringSongCompiler.ReadNote | ToneScribe/src/com/tonescribe/song/compiler/musicstring/MusicStringSongCompiler.java:420-552 | the note's number, length in whole notes, rest flag and tremolo flag |
| MusicStringCompiler.MusicStringSongCompiler.ScanNoteText | ToneScribe/src/com/tonescribe/song/compiler/musicstring/MusicStringSongCompiler.java:420-500 | the letter switch and the character loop give the pitch, accidental, triplet, tremolo and octave of `ScanNote`, and the duration sum |
| MusicStringCompiler.MusicStringSongCompiler.ScanModifier | ToneScribe/src/com/tonescribe/song/compiler/musicstring/MusicStringSongCompiler.java:457-483 | one character of the loop changes the scan as `ScanChar` says |
| MusicStringCompiler.MusicStringSongCompiler.ApplyKeySig | ToneScribe/src/com/tonescribe/song/compiler/musicstring/MusicStringSongCompiler.java:513-542 | the fourteen key-signature tests give `KeyAdjust` |
| MusicStringCompiler.MusicStringSongCompiler.PlayTremolo | ToneScribe/src/com/tonescribe/song/compiler/musicstring/MusicStringSongCompiler.java:563-571 | the tremolo loop gives the state and song of `Tremolo` |
| Rtttl.SettingValue | ToneScribe/src/com/tonescribe/song/compiler/RTTTLSongCompiler.java:85 | the value read from a setting is a suffix of it: what follows the `=` |
| Rtttl.DurationDigits | ToneScribe/src/com/tonescribe/song/compiler/RTTTLSongCompiler.java:122-132 | the duration is the leading run of at most two digits |
| Rtttl.FirstError | ToneScribe/src/com/tonescribe/song/compiler/RTTTLSongCompiler.java:113-188 | the first note that cannot be read, or the number of notes when all can |
| Rtttl.AddNoteAppends | ToneScribe/src/com/tonescribe/song/compiler/RTTTLSongCompiler.java:225-238 | a note appends one event of its kind, pitch and length, and changes no error |
| Rtttl.NotesShape | ToneScribe/src/com/tonescribe/song/compiler/RTTTLSongCompiler.java:113-244 | every note before the first one that cannot be read appends one event, and that note adds its one error and ends the song |
| Rtttl.FirstErrorNone | ToneScribe/src/com/tonescribe/song/compiler/RTTTLSongCompiler.java:113-239 | when every note can be read, none of them is the first error |
| Rtttl.NotesChained | ToneScribe/src/com/tonescribe/song/compiler/RTTTLSongCompiler.java:113-239 | the notes loop keeps a chained song chained |
| Rtttl.CompiledChained | ToneScribe/src/com/tonescribe/song/compiler/RTTTLSongCompiler.java:47-247 | every compiled RTTTL song is chained |
| Rtttl.NotesEvent | ToneScribe/src/com/tonescribe/song/compiler/RTTTLSongCompiler.java:225-238 | the event of each note before the first unreadable one has that note's kind, pitch and length at the tempo |
| Rtttl.NotesIntoShape | ToneScribe/src/com/tonescribe/song/compiler/RTTTLSongCompiler.java:113-244 | the notes read up to the first unreadable one each append one event, and that one adds its error |
| Rtttl.NotesErrors | ToneScribe/src/com/tonescribe/song/compiler/RTTTLSongCompiler.java:113-244 | errors already in the song do not change what the notes add |
| Rtttl.SettingsThenNotesErrors | ToneScribe/src/com/tonescribe/song/compiler/RTTTLSongCompiler.java:76-244 | errors already in the song do not change what the settings and the notes add |
| Rtttl.NameOnlyAddsError | ToneScribe/src/com/tonescribe/song/compiler/RTTTLSongCompiler.java:72-74 | a name longer than 10 characters only adds its error first; the rest of the song is the same |
| Rtttl.SectionCount | ToneScribe/src/com/tonescribe/song/compiler/RTTTLSongCompiler.java:51-63 | a text that does not split into three sections gives no events and the one error for too many or too few sections |
| Rtttl.LetterValueTable | ToneScribe/src/com/tonescribe/song/compiler/RTTTLSongCompiler.java:148-163 | "c d ef g a b" places c, d, e, f, g, a, b at 0, 2, 4, 5, 7, 9, 11 |
| Rtttl.ReadWrittenNote | ToneScribe/src/com/tonescribe/song/compiler/RTTTLSongCompiler.java:116-229 | reading the text of any written note (duration, letter, modifier, octave digit, dot) gives what it stands for, including the error for an octave digit outside 4 to 7 |
| Rtttl.ReadWrittenText | ToneScribe/src/com/tonescribe/song/compiler/RTTTLSongCompiler.java:118-229 | parsing the text of any written note gives what it stands for |
| Rtttl.WrittenPitch | ToneScribe/src/com/tonescribe/song/compiler/RTTTLSongCompiler.java:161-174 | the pitch is the letter's place, one up for `#`, one down for `b` |
| Rtttl.WrittenLength | ToneScribe/src/com/tonescribe/song/compiler/RTTTLSongCompiler.java:118-142 | the duration read is the written one, or the default when none is written, and a dot is seen exactly when one was written |
| Rtttl.ReadWrittenSetting | ToneScribe/src/com/tonescribe/song/compiler/RTTTLSongCompiler.java:84-96 | a written setting reads back: `d` sets the duration, `o` the octave and `b` the tempo, to the number written |
| Rtttl.ReadWrittenSettingList | ToneScribe/src/com/tonescribe/song/compiler/RTTTLSongCompiler.java:83-103 | a list of written settings reads back as what they assign, left to right |
| Rtttl.ReadSettingsText | ToneScribe/src/com/tonescribe/song/compiler/RTTTLSongCompiler.java:78-103 | a settings section written from settings reads back as what they assign to the defaults |
| Rtttl.EmptySettingsSection | ToneScribe/src/com/tonescribe/song/compiler/RTTTLSongCompiler.java:78-108 | an empty settings section cannot be read |
| Rtttl.ReadWrittenNotes | ToneScribe/src/com/tonescribe/song/compiler/RTTTLSongCompiler.java:114-116 | each written note of a notes section is read as what it stands for |
| Rtttl.SongSections | ToneScribe/src/com/tonescribe/song/compiler/RTTTLSongCompiler.java:51-68 | a written song splits into its name, settings and notes sections |
| Rtttl.CompileWrittenSong | ToneScribe/src/com/tonescribe/song/compiler/RTTTLSongCompiler.java:47-247 | a written song compiles to its notes' meanings, under the settings it assigns, after the name's error when the name is too long |
| Rtttl.AllNotesRead | ToneScribe/src/com/tonescribe/song/compiler/RTTTLSongCompiler.java:113-239 | notes that can all be read append one event each, a rest exactly for each rest, and no error |
| Rtttl.WrittenSongEvents | ToneScribe/src/com/tonescribe/song/compiler/RTTTLSongCompiler.java:47-247 | a written song whose octave digits are 4 to 7 gives one event per note, a rest exactly for each `p`, and no error but the name's |
| Rtttl.MeaningsRead | ToneScribe/src/com/tonescribe/song/compiler/RTTTLSongCompiler.java:191-212 | written notes whose octave digits are 4 to 7 can all be read |
| Rtttl.Compile | ToneScribe/src/com/tonescribe/song/compiler/RTTTLSongCompiler.java:47-247 | `compile` returns a fresh song whose value is `Compiled` of the text |
| Rtttl.CompileSectionsInto | ToneScribe/src/com/tonescribe/song/compiler/RTTTLSongCompiler.java:65-244 | the name check, the settings loop and the notes loop give `CompileSections` |
| Rtttl.ReadSettings | ToneScribe/src/com/tonescribe/song/compiler/RTTTLSongCompiler.java:78-109 | the settings loop gives the settings `SettingsOf` reads, or its first error |
| Rtttl.ReadValue | ToneScribe/src/com/tonescribe/song/compiler/RTTTLSongCompiler.java:85-86 | the value after the `=`, parsed as an `int` or not at all |
| Rtttl.ReadSetting | ToneScribe/src/com/tonescribe/song/compiler/RTTTLSongCompiler.java:84-102 | one setting gives `ApplySetting`'s new settings or its error |
| Rtttl.CompileNotes | ToneScribe/src/com/tonescribe/song/compiler/RTTTLSongCompiler.java:113-244 | the notes loop gives `NotesInto` of the song |
| Rtttl.CompileNote | ToneScribe/src/com/tonescribe/song/compiler/RTTTLSongCompiler.java:115-238 | one note is appended, or its error is added and the loop stops |
| Rtttl.AppendNote | ToneScribe/src/com/tonescribe/song/compiler/RTTTLSongCompiler.java:231-238 | `addTone` for a tone, `addRest` for a rest, at the settings' tempo |
| Rtttl.ReadNote | ToneScribe/src/com/tonescribe/song/compiler/RTTTLSongCompiler.java:116-229 | reading one cleaned note gives `ParseNote` |
| Rtttl.ReadDuration | ToneScribe/src/com/tonescribe/song/compiler/RTTTLSongCompiler.java:118-144 | the duration, the dot after it, and where the letter is expected |
| Rtttl.ParseDigits | ToneScribe/src/com/tonescribe/song/compiler/RTTTLSongCompiler.java:134 | `parseInt` of at most two digits is their value |
| Rtttl.ReadLetter | ToneScribe/src/com/tonescribe/song/compiler/RTTTLSongCompiler.java:146-188 | the letter's place, with a `#` or `b` after it, whether it is a rest, and where the octave is expected |
| Rtttl.ReadOctaveDigit | ToneScribe/src/com/tonescribe/song/compiler/RTTTLSongCompiler.java:191-214 | 4 to 7 is the octave, another digit is an error, and anything else leaves the default |
| Rtttl.ReadOctave | ToneScribe/src/com/tonescribe/song/compiler/RTTTLSongCompiler.java:191-229 | the octave, the dot after it, and the note those complete give `ParseNote` |
| Player.ToByte | ToneScribe/src/com/tonescribe/song/SongPlayer.java:128 | the `(byte)` cast keeps values in [-128, 128) and is congruent modulo 256 |
| Player.Next | ToneScribe/src/com/tonescribe/song/SongPlayer.java:130-138 | one pass of the counter: an infinite counter never changes; a counter above one sample drops by one; one of at most one sample flips the polarity |
| Player.SweepOf | ToneScribe/src/com/tonescribe/song/SongPlayer.java:127-144 | n passes give n samples |
| Player.SampleByte | ToneScribe/src/com/tonescribe/song/SongPlayer.java:39 | a low sample is -64 (-volume - 1) and a high one 63 (volume) |
| Player.Fill | ToneScribe/src/com/tonescribe/song/SongPlayer.java:141-143 | filling a frame keeps the buffer's length |
| Player.Frames | ToneScribe/src/com/tonescribe/song/SongPlayer.java:127-144 | writing a tone keeps the buffer's length |
| Player.FrameFits | ToneScribe/src/com/tonescribe/song/SongPlayer.java:142 | every index the inner loop writes is inside the buffer |
| Player.FramesOutside | ToneScribe/src/com/tonescribe/song/SongPlayer.java:127-144 | a tone leaves every byte outside its frames as it was |
| Player.FramesInside | ToneScribe/src/com/tonescribe/song/SongPlayer.java:141-143 | both channels of frame i hold the sample of the i-th polarity |
| Player.FramesInRange | ToneScribe/src/com/tonescribe/song/SongPlayer.java:127-144 | every byte of a tone's frames is volume or -volume - 1 |
| Player.SweepLevel | ToneScribe/src/com/tonescribe/song/SongPlayer.java:125-138 | sample k takes the polarity left by the first k passes |
| Player.SweepPrefix | ToneScribe/src/com/tonescribe/song/SongPlayer.java:127-144 | the first m samples of a longer tone are those of a tone of m samples |
| Player.FirstPassFlips | ToneScribe/src/com/tonescribe/song/SongPlayer.java:125-138 | a tone's first sample has the polarity the player was left with, and the polarity flips at once |
| Player.SquareWave | ToneScribe/src/com/tonescribe/song/SongPlayer.java:123-145 | with a whole period of p samples, sample k is high or low by the parity of k / p: a square wave |
| Player.ShortPeriod | ToneScribe/src/com/tonescribe/song/SongPlayer.java:123-145 | with a period of at most one sample, consecutive samples alternate |
| Player.SilentPitch | ToneScribe/src/com/tonescribe/song/SongPlayer.java:109 | a pitch of 0 gives an infinite period, and after the first flip the polarity never changes again |
| Player.RenderEvent | ToneScribe/src/com/tonescribe/song/SongPlayer.java:102-111 | rendering one event keeps the buffer's length |
| Player.RenderEvents | ToneScribe/src/com/tonescribe/song/SongPlayer.java:101-112 | rendering the events keeps the buffer's length |
| Player.RenderOutside | ToneScribe/src/com/tonescribe/song/SongPlayer.java:101-112 | events that do not cover a byte leave it as it was; rests cover nothing |
| Player.LaterEventsKeep | ToneScribe/src/com/tonescribe/song/SongPlayer.java:101-112 | later events that do not cover a byte do not change it |
| Player.RenderCovered | ToneScribe/src/com/tonescribe/song/SongPlayer.java:101-112 | a byte that a tone covers is a square-wave sample, volume or -volume - 1 |
| Player.OnlyTonesRendered | ToneScribe/src/com/tonescribe/song/SongPlayer.java:103 | a song renders exactly as its tones alone do |
| Player.ChainedSongFits | ToneScribe/src/com/tonescribe/song/SongPlayer.java:93-110 | for a chained song with durations that are not negative and a length whose buffer fits in an `int`, the buffer holds at least a second, and every tone's frames fit in it |
| Player.BufferLengthOf | ToneScribe/src/com/tonescribe/song/SongPlayer.java:97-99 | the buffer is the truncated length plus one second of samples |
| Player.TruncatedFrames | ToneScribe/src/com/tonescribe/song/SongPlayer.java:107-108 | two truncated parts fit in the truncated whole |
| Player.SongPlayer.constructor | ToneScribe/src/com/tonescribe/song/SongPlayer.java:37-39 | a new player starts with the high polarity |
| Player.SongPlayer.GenerateSong | ToneScribe/src/com/tonescribe/song/SongPlayer.java:93-115 | `generateSong` returns a fresh buffer of `BufferLength` bytes holding `RenderEvents` of the song's events, and leaves the player with the final polarity |
| Player.SongPlayer.RenderSongEvent | ToneScribe/src/com/tonescribe/song/SongPlayer.java:102-111 | a tone is rendered at its offset and a rest is skipped, as `RenderEvent` says |
| Player.SongPlayer.GenerateTone | ToneScribe/src/com/tonescribe/song/SongPlayer.java:123-145 | `generateTone` writes the frames of `SweepOf` the period and leaves the polarity of its end |
| Player.SongPlayer.TonePass | ToneScribe/src/com/tonescribe/song/SongPlayer.java:127-144 | one pass of the sample loop extends the sweep by one sample and writes its frame |
| Player.SongPlayer.CountDown | ToneScribe/src/com/tonescribe/song/SongPlayer.java:130-138 | the counter's pass is `Next` |
| Player.SongPlayer.WriteFrame | ToneScribe/src/com/tonescribe/song/SongPlayer.java:141-143 | all channels of one frame get the same sample |
| Versions.VersionNumberIsJoin | ToneScribe/src/com/tonescribe/update/CompareVersion.java:89-92 | a text is a version number exactly when it is one to four parts of digits, or a `*` last, joined by dots |
| Versions.SplitVersion | ToneScribe/src/com/tonescribe/update/CompareVersion.java:58-59 | `split` of a version number drops nothing |
| Versions.Compare | ToneScribe/src/com/tonescribe/update/CompareVersion.java:51-83 | `compareVersions` is always -1, 0 or 1 |
| Versions.CompareVersions | ToneScribe/src/com/tonescribe/update/CompareVersion.java:51-83 | the comparison loop returns `Compare` |
| Versions.Antisymmetric | ToneScribe/src/com/tonescribe/update/CompareVersion.java:51-83 | swapping the arguments negates the result |
| Versions.Reflexive | ToneScribe/src/com/tonescribe/update/CompareVersion.java:51-83 | every text compares equal to itself |
| Versions.CompareIsLexicographic | ToneScribe/src/com/tonescribe/update/CompareVersion.java:62-78 | when every part parses, the result is the lexicographic order of the parts' numbers |
| Versions.LongerIsGreater | ToneScribe/src/com/tonescribe/update/CompareVersion.java:72-75 | a proper extension is greater, even with extra parts of 0 |
| Versions.InvalidIsZero | ToneScribe/src/com/tonescribe/update/CompareVersion.java:53-55 | a text that is not a version number compares as `INVALID_ARGS` |
| Versions.NewerOlderExclusive | ToneScribe/src/com/tonescribe/update/CompareVersion.java:94-110 | no version is both newer and older than the current one; newer means the current one compares less; the current one is neither |
| Versions.VersionOfParts | ToneScribe/src/com/tonescribe/update/CompareVersion.java:89-92 | valid parts joined by dots are a version number that `split` takes back apart |
| Versions.TenAfterNine | ToneScribe/src/com/tonescribe/update/CompareVersion.java:63-69 | parts compare as numbers: 1.10 is after 1.9 |
| Versions.ExtraZeroPart | ToneScribe/src/com/tonescribe/update/CompareVersion.java:72-75 | 1 is before 1.0 |
| Versions.StarPart | ToneScribe/src/com/tonescribe/update/CompareVersion.java:79-82 | a `*` that the loop reaches makes the result `INVALID_ARGS`; one it does not reach is never read |
| Versions.NewerPatch | ToneScribe/src/com/tonescribe/ToneScribe.java:99 | against the current version 1.0.0, 1.0.1 is newer |
| Versions.OlderShorter | ToneScribe/src/com/tonescribe/update/CompareVersion.java:103-110 | against the current version 1.0.0, 1.0 is older |
| Versions.UnparsableReached | ToneScribe/src/com/tonescribe/update/CompareVersion.java:79-82 | a part that does not parse, reached by the loop, makes the result `INVALID_ARGS` |
| Linkers.Selected | ToneScribe/src/com/tonescribe/song/linker/GenericSongLinker.java:20-22 | only events inside the window are kept, and never more than there were |
| Linkers.SelectedConcat | ToneScribe/src/com/tonescribe/song/linker/BeepSongLinker.java:46-50 | selection keeps the order: it distributes over concatenation |
| Linkers.SelectedOne | ToneScribe/src/com/tonescribe/song/linker/BeepSongLinker.java:47-50 | an event is kept exactly when its start is inside the window, both bounds included |
| Linkers.SelectedExactly | ToneScribe/src/com/tonescribe/song/linker/PreciseSongLinker.java:79-83 | every event in the window is kept, and nothing else |
| Linkers.KeepsWholeChainedSong | ToneScribe/src/com/tonescribe/song/Song.java:19-21 | the default window keeps every event of a chained song |
| Linkers.EmptyWindow | ToneScribe/src/com/tonescribe/song/linker/GenericSongLinker.java:17-38 | a window that holds no event's start links to nothing |
| Linkers.StatementOneLine | ToneScribe/src/com/tonescribe/song/linker/GenericSongLinker.java:25-34 | every statement is one line |
| Linkers.SplitTerminated | ToneScribe/src/com/tonescribe/song/linker/GenericSongLinker.java:29 | lines that each end with a separator split back into the lines |
| Linkers.BodyLines | ToneScribe/src/com/tonescribe/song/linker/GenericSongLinker.java:17-38 | each selected event becomes one line of the text, in order |
| Linkers.BodyStep | ToneScribe/src/com/tonescribe/song/linker/GenericSongLinker.java:19-36 | one more event appends its line when it is in the window |
| Linkers.GenericLine | ToneScribe/src/com/tonescribe/song/linker/GenericSongLinker.java:24-35 | a tone writes `beep(pitch, ms);` and a rest `delayMS(ms);` |
| Linkers.GenericLink | ToneScribe/src/com/tonescribe/song/linker/GenericSongLinker.java:17-38 | `GenericSongLinker.link` returns one statement line per event in the window, in order |
| Linkers.BeepLine | ToneScribe/src/com/tonescribe/song/linker/BeepSongLinker.java:52-63 | a tone writes `beep(pitch, ms);` and a rest `__delay_cycles(us);` |
| Linkers.BeepLink | ToneScribe/src/com/tonescribe/song/linker/BeepSongLinker.java:44-66 | `BeepSongLinker.link` returns one statement line per event in the window, in order |
| Linkers.ToneFreqsExactly | ToneScribe/src/com/tonescribe/song/linker/PreciseSongLinker.java:85-87 | a frequency is used exactly when some tone's pitch truncates to it |
| Linkers.Insert | ToneScribe/src/com/tonescribe/song/linker/PreciseSongLinker.java:105-112 | inserting keeps a list strictly descending and adds exactly the value |
| Linkers.SortDescending | ToneScribe/src/com/tonescribe/song/linker/PreciseSongLinker.java:105-112 | the sorted list is strictly descending and holds exactly the input's values |
| Linkers.DescendingUnique | ToneScribe/src/com/tonescribe/song/linker/PreciseSongLinker.java:105-112 | two strictly descending lists of the same values are equal, so the order is fixed by the set |
| Linkers.SortSameValues | ToneScribe/src/com/tonescribe/song/linker/PreciseSongLinker.java:76-112 | the sorted list depends only on which values occur, not on the order in which the set holds them |
| Linkers.HalfPeriodBounds | ToneScribe/src/com/tonescribe/song/linker/PreciseSongLinker.java:116 | for a positive frequency, two delays fit in a period and two more cycles do not |
| Linkers.VersionSurvivesSwitch | ToneScribe/src/com/tonescribe/song/linker/PreciseSongLinker.java:127-128 | replacing `<FREQSWITCH>` leaves `<VERSION>` in place |
| Linkers.SwitchNoOpen | ToneScribe/src/com/tonescribe/song/linker/PreciseSongLinker.java:103-123 | the switch text holds no `<`, so it cannot create a placeholder |
| Linkers.SwitchPlaced | ToneScribe/src/com/tonescribe/song/linker/PreciseSongLinker.java:127-128 | the first replacement puts the switch where `<FREQSWITCH>` was |
| Linkers.VersionPlaced | ToneScribe/src/com/tonescribe/song/linker/PreciseSongLinker.java:128-129 | the second replacement puts the current version where `<VERSION>` was |
| Linkers.FillTemplatePlaces | ToneScribe/src/com/tonescribe/song/linker/PreciseSongLinker.java:127-129 | a template with each placeholder once gets the switch and the version in their places, and nothing else changes |
| Linkers.SelectedFreqs | ToneScribe/src/com/tonescribe/song/linker/PreciseSongLinker.java:79-87 | a frequency is in the set exactly when a tone in the window truncates to it |
| Linkers.SubHertzToneFails | ToneScribe/src/com/tonescribe/song/linker/PreciseSongLinker.java:116 | a tone in the window below 1 Hz makes `link` divide by zero |
| Linkers.PreciseSwitch | ToneScribe/src/com/tonescribe/song/linker/PreciseSongLinker.java:100-135 | otherwise the switch has one case per frequency used, highest first, and the text is the filled template, the body and the end |
| Linkers.PreciseLine | ToneScribe/src/com/tonescribe/song/linker/PreciseSongLinker.java:85-97 | a tone writes a tab and `beep(freq, ms);`, and a rest a tab and `__delay_cycles(us);` |
| Linkers.PreciseBody | ToneScribe/src/com/tonescribe/song/linker/PreciseSongLinker.java:79-98 | the loop builds the body and exactly the set of frequencies used |
| Linkers.BuildSwitch | ToneScribe/src/com/tonescribe/song/linker/PreciseSongLinker.java:103-123 | the switch for the sorted frequencies, or None when one of them is 0 |
| Linkers.PreciseLink | ToneScribe/src/com/tonescribe/song/linker/PreciseSongLinker.java:74-135 | `PreciseSongLinker.link` returns `PreciseText` of the song |

## Left out

- JavaLang.DoubleDiv: a division by zero gives 0 instead of IEEE's infinity or NaN. So "t0 c" gives a 0-second tone where Java computes `1 / currTempo` as infinity (MusicStringSongCompiler.java:265), and every later event gets a NaN duration. The RTTTL texts "x:d=0:c" (`1.0 / duration`, RTTTLSongCompiler.java:226) and "x:b=0:c" (the tempo division, Song.java:63) likewise give 0 seconds instead of infinity. `SongPlayer` is the exception: a pitch of 0 gives an infinite period there (`Player.SilentPitch`).
- JavaLang.IsDigit: only the ASCII digits count, while `Character.isDigit` also accepts the other Unicode decimal digits. This matters only in RTTTL, where no regex comes first. Java reads "x:d=٤:c" (U+0664) as d=4 (RTTTLSongCompiler.java:86), and reports the octave error for "x:d=4:c٨" (RTTTLSongCompiler.java:209). The model reports the settings error for the first and reads the second as c6. In MusicString the ASCII-only regexes come first, so nothing changes there.
- JavaLang.ParseInt: only ASCII digits are parsed, for the same reason.
- JavaLang.ToLower: only the ASCII capitals are lower-cased. Java's `toLowerCase` also folds other characters (U+212A KELVIN SIGN becomes `k`), can change a text's length (U+0130 becomes two characters), and depends on the default locale (Turkish maps `I` to a dotless `ı`).
- Songs.NoteFreq: `Math.pow(2.0, noteValue / 12.0)` is replaced by the exact power of 2 for the octave times a 10-digit rational approximation of 2^(k/12) for the semitone. The properties (`NoteFreqOctave`, `NoteFreqIncreasing`, `MiddleCFreq` = 261.6255652992) are about this approximation, not about IEEE `pow`.
- Songs.SemitoneRatio: gives the 10-digit ratios described above.
- Player.SongPlayer.GenerateTone: `periodSamplesRemaining` is a `float` (SongPlayer.java:125), modelled as an exact `real`. The same goes for every `double` of the core. Rounding is not modelled, so the wave's phase can differ from Java's over very long tones.
- Player.BufferLengthOf: the `(float)` conversion in the buffer length (SongPlayer.java:97) is exact here.
- MusicStringCompiler.MusicStringSongCompiler.Compile: a `NumberFormatException` that escapes `compile` is a `thrown` flag returned next to the song. An example is a `tran` amount outside the `int` range (MusicStringSongCompiler.java:218), or a tempo amount outside it (MusicStringSongCompiler.java:334).
- Linkers.PreciseLink: the `ArithmeticException` of `1000000 / freq` for a frequency of 0 (PreciseSongLinker.java:116) is `None`.
- Player.SongPlayer.GenerateSong: the `NegativeArraySizeException` and the out-of-bounds writes that a negative or overlong song would cause are excluded by its `requires`: every tone must fit the buffer, and every index must stay within `int`. The source has no check. `Player.ChainedSongFits` shows that every compiled song with durations that are not negative meets them.
- Linkers.SortDescending: `Collections.sort` with the comparator `o2 - o1` (PreciseSongLinker.java:110) is modelled as sorting by a consistent descending order. `o2 - o1` overflows only for two frequencies of opposite sign that are more than 2^31 apart. Compiled songs never have a negative frequency, because `getNoteFreq` is positive.
- MusicStringCompiler.MusicStringSongCompiler.constructor: the key-signature table read from `keysigs.txt` (MusicStringSongCompiler.java:68-93) is a parameter.
- Linkers.PreciseLink: the templates `templateStart.txt` and `templateEnd.txt` (PreciseSongLinker.java:49-71) are parameters. So is `System.getProperty("line.separator")` for all three linkers.
- `SongPlayer.playSong`, `stopSongs` and `saveSong` (SongPlayer.java:43-91) are not modelled: they are audio and file I/O around `generateSong`.
- `MusicStringSongCompiler.main` (MusicStringSongCompiler.java:657-685) is not modelled: it is a test driver that reads a file and prints.
- The `printStackTrace` calls and the message dialogs are not modelled.
- Tokenizer.Tokenize: offsets and lengths count Unicode scalar values, because a Dafny `string` is a sequence of them. Java counts UTF-16 code units in `charAt` (MusicStringSongCompiler.java:587-592) and in `getTextEndPos` (Token.java:73-75). For text with a character above U+FFFF, every later offset is smaller than Java's. So `MusicString.InSelection`, the containment test of MusicStringSongCompiler.java:555-556, can keep or drop a note differently from Java. In the text U+1F3B5, a space and "c", with the selection [3, 4], Java keeps `c` (offsets 3 to 4) and the model drops it (offsets 2 to 3).
- Tokens.Token.GetTextEndPos: the same, the length is counted in Unicode scalar values, not UTF-16 units.
- Rtttl.NameOnlyAddsError: the name's length for the "longer than 10" check (RTTTLSongCompiler.java:72) counts Unicode scalar values where `String.length()` counts UTF-16 units. So a name of six characters above U+FFFF is 12 units in Java, which is an error, and 6 in the model, which is not.
- Rtttl.CompileSections: the same counting of the name's length as `Rtttl.NameOnlyAddsError`.
- Rtttl.ReadNote: that characters after the parsed part of an RTTTL note are ignored is modelled, but not stated as a lemma of its own.
- Rtttl.Compile: the outer `catch (Exception e)` around the notes loop (RTTTLSongCompiler.java:240-244) cannot be reached. The only call in the loop that could throw is `Integer.parseInt` of at most two digits, and it cannot fail. So it is not modelled.
- Player.SongPlayer.GenerateSong: the `int` arithmetic of the buffer indices is not wrapped. The `requires` keeps every index inside `int`, so no overflow can occur.
