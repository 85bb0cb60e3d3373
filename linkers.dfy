/**
  The linkers turn a compiled song into source code that plays it: one
  statement per event inside the song's selection window, in event order.
  The generic linker emits `beep`/`delayMS` calls, the beep linker
  `beep`/`__delay_cycles` calls, and the precise linker puts tab-indented
  `beep`/`__delay_cycles` calls between a program template's start and end,
  after filling the template's frequency switch (every frequency the
  selection uses, highest first, with its half-period delay) and version.
*/
module Linkers {
  import opened JavaLang
  import opened Songs
  import Versions

  // ---------------------------------------------------------------- selection

  /** An event starting inside the selection window, both bounds included. */
  predicate InWindow(sv: SongValue, e: Event) {
    !(e.time < sv.selectionStart || e.time > sv.selectionEnd)
  }

  /** The events of `events` inside the window, in order. */
  function Selected(sv: SongValue, events: seq<Event>): (r: seq<Event>)
    ensures |r| <= |events|
    ensures forall k :: 0 <= k < |r| ==> InWindow(sv, r[k])
  {
    if events == [] then []
    else
      var e := events[|events| - 1];
      Selected(sv, events[..|events| - 1]) + (if InWindow(sv, e) then [e] else [])
  }

  /** Selection keeps order: it distributes over concatenation. */
  lemma {:induction false} SelectedConcat(sv: SongValue, a: seq<Event>, b: seq<Event>)
    ensures Selected(sv, a + b) == Selected(sv, a) + Selected(sv, b)
    decreases |b|
  {
    if b == [] {
      assert a + b == a;
    } else {
      var n := |b| - 1;
      assert (a + b)[..|a + b| - 1] == a + b[..n];
      SelectedConcat(sv, a, b[..n]);
    }
  }

  /** A single event is kept exactly when it starts inside the window, both bounds included. */
  lemma SelectedOne(sv: SongValue, e: Event)
    ensures Selected(sv, [e]) == (if sv.selectionStart <= e.time <= sv.selectionEnd then [e] else [])
  {
    assert [e][..0] == [];
  }

  /** Every event in the window is kept, and nothing else is. */
  lemma {:induction false} SelectedExactly(sv: SongValue, events: seq<Event>, e: Event)
    ensures e in Selected(sv, events) <==> e in events && InWindow(sv, e)
  {
    if events != [] {
      var n := |events| - 1;
      SelectedExactly(sv, events[..n], e);
      assert events == events[..n] + [events[n]];
    }
  }

  /** The default window, [0, Double.MAX_VALUE], keeps every event of a chained song. */
  lemma KeepsWholeChainedSong(sv: SongValue)
    requires Chained(sv)
    requires sv.selectionStart == 0.0 && sv.selectionEnd == DOUBLE_MAX
    requires sv.lengthSec <= DOUBLE_MAX
    requires forall k :: 0 <= k < |sv.events| ==> sv.events[k].duration >= 0.0
    ensures Selected(sv, sv.events) == sv.events
  {
    forall j | 0 <= j < |sv.events|
      ensures InWindow(sv, sv.events[j])
    {
      ChainedInTimeOrder(sv, 0, j);
      ChainedWithinLength(sv, j);
    }
    AllInWindow(sv, sv.events);
  }

  lemma {:induction false} AllInWindow(sv: SongValue, events: seq<Event>)
    requires forall k :: 0 <= k < |events| ==> InWindow(sv, events[k])
    ensures Selected(sv, events) == events
  {
    if events != [] {
      var n := |events| - 1;
      AllInWindow(sv, events[..n]);
      assert events == events[..n] + [events[n]];
    }
  }

  // ---------------------------------------------------------------- statements

  /** The three kinds of output. */
  datatype Dialect = Generic | Beep | Precise

  /** `(int) (seconds * 1000.0)`: milliseconds. */
  function Millis(seconds: real): int {
    IntCast(seconds * 1000.0)
  }

  /** `(int) (seconds * 1000000.0)`: cycles of a 1 MHz clock. */
  function Cycles(seconds: real): int {
    IntCast(seconds * 1000000.0)
  }

  /** The statement for one event, without its line separator. */
  function Statement(dialect: Dialect, e: Event): string {
    match dialect
    case Generic =>
      if e.Tone? then "beep(" + IntToString(IntCast(e.pitch)) + ", " + IntToString(Millis(e.duration)) + ");"
      else "delayMS(" + IntToString(Millis(e.duration)) + ");"
    case Beep =>
      if e.Tone? then "beep(" + IntToString(IntCast(e.pitch)) + ", " + IntToString(Millis(e.duration)) + ");"
      else "__delay_cycles(" + IntToString(Cycles(e.duration)) + ");"
    case Precise =>
      if e.Tone? then "\tbeep(" + IntToString(IntCast(e.pitch)) + ", " + IntToString(Millis(e.duration)) + ");"
      else "\t__delay_cycles(" + IntToString(Cycles(e.duration)) + ");"
  }

  /** The statements for a list of events, in order. */
  function Statements(dialect: Dialect, events: seq<Event>): (r: seq<string>)
    ensures |r| == |events|
  {
    seq(|events|, k requires 0 <= k < |events| => Statement(dialect, events[k]))
  }

  /** Lines, each followed by the line separator. */
  function Terminated(lines: seq<string>, separator: string): string {
    if lines == [] then ""
    else Terminated(lines[..|lines| - 1], separator) + lines[|lines| - 1] + separator
  }

  /** What a linker's loop builds for the song: one line per event in the window. */
  function Body(dialect: Dialect, sv: SongValue, separator: string): string {
    Terminated(Statements(dialect, Selected(sv, sv.events)), separator)
  }

  /** One more event is kept when it is in the window. */
  lemma SelectedStep(sv: SongValue, events: seq<Event>, j: int)
    requires 0 <= j < |events|
    ensures Selected(sv, events[..j + 1])
      == Selected(sv, events[..j]) + (if InWindow(sv, events[j]) then [events[j]] else [])
  {
    assert events[..j + 1][..j] == events[..j];
  }

  lemma TerminatedSnoc(dialect: Dialect, sel: seq<Event>, e: Event, separator: string)
    ensures Terminated(Statements(dialect, sel + [e]), separator)
      == Terminated(Statements(dialect, sel), separator) + Statement(dialect, e) + separator
  {
    var lines := Statements(dialect, sel + [e]);
    assert lines[..|lines| - 1] == Statements(dialect, sel);
  }

  /** One more event: its line is appended when it is in the window. */
  lemma BodyStep(dialect: Dialect, sv: SongValue, events: seq<Event>, j: int, separator: string)
    requires 0 <= j < |events|
    ensures var before := Terminated(Statements(dialect, Selected(sv, events[..j])), separator);
      var after := Terminated(Statements(dialect, Selected(sv, events[..j + 1])), separator);
      && (InWindow(sv, events[j]) ==> after == before + Statement(dialect, events[j]) + separator)
      && (!InWindow(sv, events[j]) ==> after == before)
  {
    SelectedStep(sv, events, j);
    if InWindow(sv, events[j]) {
      TerminatedSnoc(dialect, Selected(sv, events[..j]), events[j], separator);
    } else {
      assert Selected(sv, events[..j]) + [] == Selected(sv, events[..j]);
    }
  }

  /** `Integer.toString` writes a minus sign and decimal digits, nothing else. */
  lemma IntToStringChars(n: int)
    ensures forall c :: c in IntToString(n) ==> c == '-' || IsDigit(c)
  {
    var s := IntToString(n);
    var t := NatToString(if n < 0 then -n else n);
    assert s == (if n < 0 then "-" else "") + t;
    forall c | c in s
      ensures c == '-' || IsDigit(c)
    {
      if c != '-' {
        assert c in t;
        var i :| 0 <= i < |t| && t[i] == c;
      }
    }
  }

  lemma IntToStringOneLine(n: int)
    ensures '\n' !in IntToString(n)
  {
    IntToStringChars(n);
  }

  /** A character that `Integer.toString` never writes stays absent when a number is written between two pieces. */
  lemma AbsentWithInt(ch: char, a: string, n: int, b: string)
    requires ch != '-' && !IsDigit(ch) && ch !in a && ch !in b
    ensures ch !in a + IntToString(n) + b
  {
    IntToStringChars(n);
  }

  /** Every statement is a single line. */
  lemma StatementOneLine(dialect: Dialect, e: Event)
    ensures '\n' !in Statement(dialect, e)
  {
    var prefix := if dialect == Precise then "\tbeep(" else "beep(";
    if e.Tone? {
      AbsentWithInt('\n', prefix, IntCast(e.pitch), ", ");
      AbsentWithInt('\n', prefix + IntToString(IntCast(e.pitch)) + ", ", Millis(e.duration), ");");
    } else if dialect == Generic {
      AbsentWithInt('\n', "delayMS(", Millis(e.duration), ");");
    } else if dialect == Beep {
      AbsentWithInt('\n', "__delay_cycles(", Cycles(e.duration), ");");
    } else {
      AbsentWithInt('\n', "\t__delay_cycles(", Cycles(e.duration), ");");
    }
  }

  lemma TerminatedCons(line: string, lines: seq<string>, separator: string)
    ensures Terminated([line] + lines, separator) == line + separator + Terminated(lines, separator)
    decreases |lines|
  {
    if lines != [] {
      var n := |lines| - 1;
      assert ([line] + lines)[..|lines|] == [line] + lines[..n];
      TerminatedCons(line, lines[..n], separator);
    }
  }

  /**
    With "\n" as the line separator, the text splits back into exactly the
    statements, one per line, followed by the empty piece after the last break.
  */
  lemma {:induction false} SplitTerminated(lines: seq<string>)
    requires forall k :: 0 <= k < |lines| ==> '\n' !in lines[k]
    ensures SplitAll(Terminated(lines, "\n"), '\n') == lines + [""]
    decreases |lines|
  {
    if lines == [] {
      assert IndexOf("", '\n') < 0;
    } else {
      TerminatedCons(lines[0], lines[1..], "\n");
      assert [lines[0]] + lines[1..] == lines;
      SplitTerminated(lines[1..]);
      SplitAllAfter(lines[0], '\n', Terminated(lines[1..], "\n"));
    }
  }

  /** Each selected event becomes one line of the linked text, in order. */
  lemma BodyLines(dialect: Dialect, sv: SongValue)
    ensures SplitAll(Body(dialect, sv, "\n"), '\n') == Statements(dialect, Selected(sv, sv.events)) + [""]
  {
    var lines := Statements(dialect, Selected(sv, sv.events));
    forall k | 0 <= k < |lines|
      ensures '\n' !in lines[k]
    {
      StatementOneLine(dialect, Selected(sv, sv.events)[k]);
    }
    SplitTerminated(lines);
  }

  /** A window that holds no event start links to nothing. */
  lemma EmptyWindow(dialect: Dialect, sv: SongValue, separator: string)
    requires forall k :: 0 <= k < |sv.events| ==> !InWindow(sv, sv.events[k])
    ensures Body(dialect, sv, separator) == ""
  {
    if Selected(sv, sv.events) != [] {
      var e := Selected(sv, sv.events)[0];
      SelectedExactly(sv, sv.events, e);
    }
  }

  // ---------------------------------------------------------------- generic and beep linkers

  /** The statement `GenericSongLinker.link` writes for one event. */
  method GenericLine(e: SongEvent) returns (line: string)
    ensures line == Statement(Generic, e.Value())
  {
    ghost var ev := e.Value();
    if e.isTone {
      line := "beep(" + IntToString(IntCast(e.pitch)) + ", " + IntToString(IntCast(e.durationSeconds * 1000.0)) + ");";
      assert ev == Tone(e.timeSeconds, e.durationSeconds, e.pitch);
    } else {
      line := "delayMS(" + IntToString(IntCast(e.durationSeconds * 1000.0)) + ");";
      assert ev == Rest(e.timeSeconds, e.durationSeconds);
    }
    assert line == Statement(Generic, ev);
  }

  /** `GenericSongLinker.link`. */
  method GenericLink(song: Song, lineSeparator: string) returns (text: string)
    ensures text == Body(Generic, song.Value(), lineSeparator)
  {
    ghost var sv := song.Value();
    var builder := "";
    var events := song.tones;
    for j := 0 to |events|
      invariant builder == Terminated(Statements(Generic, Selected(sv, sv.events[..j])), lineSeparator)
    {
      var e := events[j];
      BodyStep(Generic, sv, sv.events, j, lineSeparator);
      if e.timeSeconds < song.selectionStartTimeSec || e.timeSeconds > song.selectionEndTimeSec {
        continue;
      }
      var line := GenericLine(e);
      assert e.Value() == sv.events[j];
      builder := builder + line + lineSeparator;
    }
    assert sv.events[..|events|] == sv.events;
    text := builder;
  }

  /** The statement `BeepSongLinker.link` writes for one event. */
  method BeepLine(e: SongEvent) returns (line: string)
    ensures line == Statement(Beep, e.Value())
  {
    ghost var ev := e.Value();
    if e.isTone {
      line := "beep(" + IntToString(IntCast(e.pitch)) + ", " + IntToString(IntCast(e.durationSeconds * 1000.0)) + ");";
      assert ev == Tone(e.timeSeconds, e.durationSeconds, e.pitch);
    } else {
      line := "__delay_cycles(" + IntToString(IntCast(e.durationSeconds * 1000000.0)) + ");";
      assert ev == Rest(e.timeSeconds, e.durationSeconds);
    }
    assert line == Statement(Beep, ev);
  }

  /** `BeepSongLinker.link`. */
  method BeepLink(song: Song, lineSeparator: string) returns (text: string)
    ensures text == Body(Beep, song.Value(), lineSeparator)
  {
    ghost var sv := song.Value();
    var builder := "";
    var events := song.tones;
    for j := 0 to |events|
      invariant builder == Terminated(Statements(Beep, Selected(sv, sv.events[..j])), lineSeparator)
    {
      var e := events[j];
      BodyStep(Beep, sv, sv.events, j, lineSeparator);
      if e.timeSeconds < song.selectionStartTimeSec || e.timeSeconds > song.selectionEndTimeSec {
        continue;
      }
      var line := BeepLine(e);
      assert e.Value() == sv.events[j];
      builder := builder + line + lineSeparator;
    }
    assert sv.events[..|events|] == sv.events;
    text := builder;
  }

  // ---------------------------------------------------------------- frequencies used

  /** `(int) pitch` of each tone of `events`, in order, repeats included. */
  function ToneFreqs(events: seq<Event>): (r: seq<int>)
    ensures |r| <= |events|
  {
    if events == [] then []
    else
      var e := events[|events| - 1];
      ToneFreqs(events[..|events| - 1]) + (if e.Tone? then [IntCast(e.pitch)] else [])
  }

  /** A frequency is used exactly when some tone's pitch truncates to it. */
  lemma {:induction false} ToneFreqsExactly(events: seq<Event>, f: int)
    ensures f in ToneFreqs(events) <==> exists k :: 0 <= k < |events| && events[k].Tone? && IntCast(events[k].pitch) == f
  {
    if events != [] {
      var n := |events| - 1;
      ToneFreqsExactly(events[..n], f);
      if f in ToneFreqs(events[..n]) {
        var k :| 0 <= k < n && events[..n][k].Tone? && IntCast(events[..n][k].pitch) == f;
        assert events[k] == events[..n][k];
      }
      if exists k :: 0 <= k < |events| && events[k].Tone? && IntCast(events[k].pitch) == f {
        var k :| 0 <= k < |events| && events[k].Tone? && IntCast(events[k].pitch) == f;
        if k < n {
          assert events[..n][k] == events[k];
        }
      }
    }
  }

  lemma ToneFreqsStep(sv: SongValue, events: seq<Event>, j: int)
    requires 0 <= j < |events|
    ensures ToneFreqs(Selected(sv, events[..j + 1]))
      == ToneFreqs(Selected(sv, events[..j]))
        + (if InWindow(sv, events[j]) && events[j].Tone? then [IntCast(events[j].pitch)] else [])
  {
    SelectedStep(sv, events, j);
    var sel := Selected(sv, events[..j]);
    if InWindow(sv, events[j]) {
      assert (sel + [events[j]])[..|sel|] == sel;
    } else {
      assert sel + [] == sel;
    }
  }

  // ---------------------------------------------------------------- sorting, highest first

  predicate StrictlyDescending(r: seq<int>) {
    forall i, j :: 0 <= i < j < |r| ==> r[i] > r[j]
  }

  /** `x` put into its place in a strictly descending list, unless it is there already. */
  function Insert(x: int, r: seq<int>): (q: seq<int>)
    requires StrictlyDescending(r)
    ensures StrictlyDescending(q)
    ensures forall y :: y in q <==> y == x || y in r
  {
    if r == [] then [x]
    else if x > r[0] then [x] + r
    else if x == r[0] then r
    else
      var rest := Insert(x, r[1..]);
      assert forall y :: y in r <==> y == r[0] || y in r[1..];
      assert forall k :: 0 <= k < |rest| ==> rest[k] < r[0] by {
        forall k | 0 <= k < |rest|
          ensures rest[k] < r[0]
        {
          assert rest[k] in rest;
          if rest[k] != x {
            var m :| 0 <= m < |r[1..]| && r[1..][m] == rest[k];
            assert r[m + 1] == rest[k];
          }
        }
      }
      var q := [r[0]] + rest;
      assert forall i, j :: 0 <= i < j < |q| ==> q[i] > q[j] by {
        forall i, j | 0 <= i < j < |q|
          ensures q[i] > q[j]
        {
          assert q[j] == rest[j - 1];
          if i > 0 {
            assert q[i] == rest[i - 1];
          }
        }
      }
      q
  }

  /**
    `Collections.sort` of the distinct frequencies with the comparator
    `o2 - o1`: each value once, highest first.
  */
  function SortDescending(xs: seq<int>): (r: seq<int>)
    ensures StrictlyDescending(r)
    ensures forall y :: y in r <==> y in xs
  {
    if xs == [] then []
    else
      var n := |xs| - 1;
      assert forall y :: y in xs <==> y in xs[..n] || y == xs[n];
      Insert(xs[n], SortDescending(xs[..n]))
  }

  lemma HeadIsMax(r: seq<int>, x: int)
    requires StrictlyDescending(r) && x in r
    ensures x <= r[0]
  {
    var i :| 0 <= i < |r| && r[i] == x;
  }

  /** The order is unique: two strictly descending lists of the same values are equal. */
  lemma {:induction false} DescendingUnique(a: seq<int>, b: seq<int>)
    requires StrictlyDescending(a) && StrictlyDescending(b)
    requires forall y :: y in a <==> y in b
    ensures a == b
    decreases |a|
  {
    BothEmpty(a, b);
    if a != [] {
      assert a[0] in a;
      assert a[0] in b;
      assert b != [] && b[0] in b;
      HeadIsMax(a, b[0]);
      HeadIsMax(b, a[0]);
      TailValues(a);
      TailValues(b);
      DescendingUnique(a[1..], b[1..]);
      assert a == [a[0]] + a[1..] && b == [b[0]] + b[1..];
    }
  }

  lemma BothEmpty(a: seq<int>, b: seq<int>)
    requires forall y :: y in a <==> y in b
    ensures a == [] <==> b == []
  {
    if a != [] {
      var x := a[0];
      assert x in a;
      assert x in b;
    }
    if b != [] {
      var x := b[0];
      assert x in b;
      assert x in a;
    }
  }

  lemma TailValues(r: seq<int>)
    requires StrictlyDescending(r) && r != []
    ensures StrictlyDescending(r[1..])
    ensures forall y :: y in r[1..] <==> y in r && y != r[0]
  {
    forall y | y in r[1..]
      ensures y != r[0]
    {
      var i :| 0 <= i < |r[1..]| && r[1..][i] == y;
      assert r[i + 1] == y;
    }
    forall y | y in r && y != r[0]
      ensures y in r[1..]
    {
      var i :| 0 <= i < |r| && r[i] == y;
      assert r[1..][i - 1] == y;
    }
  }

  /** Sorting depends only on which values occur, not on their order or repeats. */
  lemma SortSameValues(xs: seq<int>, ys: seq<int>)
    requires forall y :: y in xs <==> y in ys
    ensures SortDescending(xs) == SortDescending(ys)
  {
    DescendingUnique(SortDescending(xs), SortDescending(ys));
  }

  // ---------------------------------------------------------------- the frequency switch

  /** `(1000000 / freq) / 2`: half the period of `freq`, in cycles of a 1 MHz clock. */
  function HalfPeriodCycles(freq: int): int
    requires freq != 0
  {
    JavaDiv(JavaDiv(1000000, freq), 2)
  }

  /** For a positive frequency, two delays fit in a period and two more cycles do not. */
  lemma HalfPeriodBounds(freq: int)
    requires freq > 0
    ensures var d := HalfPeriodCycles(freq);
      0 <= d && 2 * d * freq <= 1000000 && 1000000 < (2 * d + 2) * freq
  {
    var q := 1000000 / freq;
    assert JavaDiv(1000000, freq) == q;
    var d := q / 2;
    assert HalfPeriodCycles(freq) == d;
    assert q * freq <= 1000000 < (q + 1) * freq;
    assert 2 * d <= q < 2 * d + 2;
    assert 2 * d * freq <= q * freq;
    assert (q + 1) * freq <= (2 * d + 2) * freq;
  }

  /** One case of the switch. */
  function CaseText(freq: int): string
    requires freq != 0
  {
    "\t\tcase " + IntToString(freq) + ": \n"
    + "\t\t\t__delay_cycles(" + IntToString(HalfPeriodCycles(freq)) + ");\n"
    + "\t\t\tbreak;\n"
  }

  function CasesText(freqs: seq<int>): string
    requires 0 !in freqs
  {
    if freqs == [] then ""
    else CasesText(freqs[..|freqs| - 1]) + CaseText(freqs[|freqs| - 1])
  }

  /** The switch statement that replaces `<FREQSWITCH>`. */
  function SwitchText(freqs: seq<int>): string
    requires 0 !in freqs
  {
    "switch (freq) {\n" + CasesText(freqs) + "\t\t}\n"
  }

  // ---------------------------------------------------------------- template filling

  const FREQSWITCH: string := "<FREQSWITCH>"
  const VERSION: string := "<VERSION>"

  /** Text that cannot hold a placeholder: it has no '<'. */
  predicate NoOpen(s: string) {
    '<' !in s
  }

  /** Text without the pattern's first character passes through `replace` unchanged. */
  lemma {:induction false} ReplaceAllSkip(x: string, y: string, pat: string, rep: string)
    requires |pat| > 0 && pat[0] !in x
    ensures ReplaceAll(x + y, pat, rep) == x + ReplaceAll(y, pat, rep)
    decreases |x|
  {
    if x == [] {
      assert x + y == y;
    } else {
      var s := x + y;
      if |s| < |pat| {
        ReplaceAllShort(y, pat, rep);
      } else {
        assert s[0] == x[0];
        assert s[..|pat|] != pat by { assert s[..|pat|][0] != pat[0]; }
        assert s[1..] == x[1..] + y;
        ReplaceAllSkip(x[1..], y, pat, rep);
        assert ReplaceAll(s, pat, rep) == [x[0]] + ReplaceAll(x[1..] + y, pat, rep);
        assert x == [x[0]] + x[1..];
      }
    }
  }

  lemma ReplaceAllShort(y: string, pat: string, rep: string)
    requires 0 < |pat| && |y| < |pat|
    ensures ReplaceAll(y, pat, rep) == y
  {
  }

  /** A placeholder at the front is replaced and scanning resumes after it. */
  lemma ReplaceAllFront(y: string, pat: string, rep: string)
    requires |pat| > 0
    ensures ReplaceAll(pat + y, pat, rep) == rep + ReplaceAll(y, pat, rep)
  {
    assert (pat + y)[..|pat|] == pat;
    assert (pat + y)[|pat|..] == y;
  }

  /** `<VERSION>` is left alone when `<FREQSWITCH>` is replaced. */
  lemma VersionSurvivesSwitch(y: string, rep: string)
    requires NoOpen(y)
    ensures ReplaceAll(VERSION + y, FREQSWITCH, rep) == VERSION + y
  {
    var s := VERSION + y;
    if |s| >= |FREQSWITCH| {
      assert s[1] != FREQSWITCH[1];
      assert s[..|FREQSWITCH|] != FREQSWITCH by { assert s[..|FREQSWITCH|][1] != FREQSWITCH[1]; }
      assert s[1..] == VERSION[1..] + y;
      ReplaceAllSkip(VERSION[1..] + y, "", FREQSWITCH, rep);
      assert VERSION[1..] + y + "" == VERSION[1..] + y;
      ReplaceAllShort("", FREQSWITCH, rep);
    }
  }

  lemma {:induction false} NoOpenUnchanged(x: string, pat: string, rep: string)
    requires |pat| > 0 && pat[0] == '<' && NoOpen(x)
    ensures ReplaceAll(x, pat, rep) == x
  {
    ReplaceAllSkip(x, "", pat, rep);
    assert x + "" == x;
    ReplaceAllShort("", pat, rep);
  }

  /** The frequency switch holds no '<', so it cannot produce a placeholder. */
  lemma {:induction false} SwitchNoOpen(freqs: seq<int>)
    requires 0 !in freqs
    ensures NoOpen(CasesText(freqs)) && NoOpen(SwitchText(freqs))
    decreases |freqs|
  {
    if freqs != [] {
      var n := |freqs| - 1;
      assert freqs == freqs[..n] + [freqs[n]];
      SwitchNoOpen(freqs[..n]);
      CaseNoOpen(freqs[n]);
    }
  }

  lemma CaseNoOpen(freq: int)
    requires freq != 0
    ensures NoOpen(CaseText(freq))
  {
    var head := "\t\tcase " + IntToString(freq) + ": \n";
    AbsentWithInt('<', "\t\tcase ", freq, ": \n");
    AbsentWithInt('<', head + "\t\t\t__delay_cycles(", HalfPeriodCycles(freq), ");\n");
  }

  /** The start of the precise program: the template with both placeholders filled. */
  function FillTemplate(templateStart: string, switchText: string): string {
    ReplaceAll(ReplaceAll(templateStart, FREQSWITCH, switchText), VERSION, Versions.CURRENT_VERSION)
  }

  /**
    A template holding each placeholder once, `<FREQSWITCH>` before
    `<VERSION>`, comes out with the switch and the current version in their
    places and the rest of its text unchanged.
  */
  lemma FillTemplatePlaces(pre: string, mid: string, post: string, switchText: string)
    requires NoOpen(pre) && NoOpen(mid) && NoOpen(post) && NoOpen(switchText)
    ensures FillTemplate(pre + FREQSWITCH + mid + VERSION + post, switchText)
      == pre + switchText + mid + "1.0.0" + post
  {
    SwitchPlaced(pre, mid, post, switchText);
    VersionPlaced(pre + switchText + mid, post);
  }

  /** The first replacement puts the switch in place of `<FREQSWITCH>` and leaves `<VERSION>`. */
  lemma SwitchPlaced(pre: string, mid: string, post: string, switchText: string)
    requires NoOpen(pre) && NoOpen(mid) && NoOpen(post)
    ensures ReplaceAll(pre + FREQSWITCH + mid + VERSION + post, FREQSWITCH, switchText)
      == pre + switchText + mid + VERSION + post
  {
    var t := pre + FREQSWITCH + mid + VERSION + post;
    assert t == pre + (FREQSWITCH + (mid + (VERSION + post)));
    ReplaceAllSkip(pre, FREQSWITCH + (mid + (VERSION + post)), FREQSWITCH, switchText);
    ReplaceAllFront(mid + (VERSION + post), FREQSWITCH, switchText);
    ReplaceAllSkip(mid, VERSION + post, FREQSWITCH, switchText);
    VersionSurvivesSwitch(post, switchText);
    assert pre + (switchText + (mid + (VERSION + post))) == pre + switchText + mid + VERSION + post;
  }

  /** The second replacement puts the current version in place of `<VERSION>`. */
  lemma VersionPlaced(front: string, post: string)
    requires NoOpen(front) && NoOpen(post)
    ensures ReplaceAll(front + VERSION + post, VERSION, Versions.CURRENT_VERSION) == front + "1.0.0" + post
  {
    assert front + VERSION + post == front + (VERSION + post);
    ReplaceAllSkip(front, VERSION + post, VERSION, Versions.CURRENT_VERSION);
    ReplaceAllFront(post, VERSION, Versions.CURRENT_VERSION);
    NoOpenUnchanged(post, VERSION, Versions.CURRENT_VERSION);
  }

  // ---------------------------------------------------------------- the precise linker

  /**
    What `PreciseSongLinker.link` returns, or None where it throws
    `ArithmeticException`: a selected tone whose frequency truncates to 0
    makes the switch divide by zero.
  */
  function PreciseText(sv: SongValue, templateStart: string, templateEnd: string, separator: string): Option<string> {
    var freqs := SortDescending(ToneFreqs(Selected(sv, sv.events)));
    if 0 in freqs then None
    else Some(FillTemplate(templateStart, SwitchText(freqs)) + Body(Precise, sv, separator) + templateEnd)
  }

  /** Some tone in the window truncates to `f` Hz. */
  predicate UsedBy(sv: SongValue, f: int) {
    exists k :: 0 <= k < |sv.events| && InWindow(sv, sv.events[k]) && sv.events[k].Tone? && IntCast(sv.events[k].pitch) == f
  }

  lemma SelectedFreqs(sv: SongValue, f: int)
    ensures f in ToneFreqs(Selected(sv, sv.events)) <==> UsedBy(sv, f)
  {
    var sel := Selected(sv, sv.events);
    ToneFreqsExactly(sel, f);
    if f in ToneFreqs(sel) {
      var i :| 0 <= i < |sel| && sel[i].Tone? && IntCast(sel[i].pitch) == f;
      SelectedExactly(sv, sv.events, sel[i]);
      var k :| 0 <= k < |sv.events| && sv.events[k] == sel[i];
      assert InWindow(sv, sv.events[k]);
    }
    if UsedBy(sv, f) {
      var k :| 0 <= k < |sv.events| && InWindow(sv, sv.events[k]) && sv.events[k].Tone? && IntCast(sv.events[k].pitch) == f;
      SelectedExactly(sv, sv.events, sv.events[k]);
      var i :| 0 <= i < |sel| && sel[i] == sv.events[k];
    }
  }

  /** A selected tone below 1 Hz stops the precise linker. */
  lemma SubHertzToneFails(sv: SongValue, templateStart: string, templateEnd: string, separator: string, k: int)
    requires 0 <= k < |sv.events| && InWindow(sv, sv.events[k])
    requires sv.events[k].Tone? && 0.0 <= sv.events[k].pitch < 1.0
    ensures PreciseText(sv, templateStart, templateEnd, separator) == None
  {
    assert IntCast(sv.events[k].pitch) == 0;
    assert UsedBy(sv, 0);
    SelectedFreqs(sv, 0);
  }

  /**
    Otherwise the precise program's switch has one case per frequency in
    use, highest first, each waiting half that frequency's period.
  */
  lemma PreciseSwitch(sv: SongValue, templateStart: string, templateEnd: string, separator: string)
    requires !UsedBy(sv, 0)
    ensures var freqs := SortDescending(ToneFreqs(Selected(sv, sv.events)));
      && StrictlyDescending(freqs)
      && (forall f :: f in freqs <==> UsedBy(sv, f))
      && PreciseText(sv, templateStart, templateEnd, separator)
        == Some(FillTemplate(templateStart, SwitchText(freqs)) + Body(Precise, sv, separator) + templateEnd)
  {
    forall f
      ensures f in ToneFreqs(Selected(sv, sv.events)) <==> UsedBy(sv, f)
    {
      SelectedFreqs(sv, f);
    }
  }

  /** The statement `PreciseSongLinker.link` writes for one event. */
  method PreciseLine(e: SongEvent) returns (line: string)
    ensures line == Statement(Precise, e.Value())
  {
    ghost var ev := e.Value();
    if e.isTone {
      line := "\tbeep(" + IntToString(IntCast(e.pitch)) + ", " + IntToString(IntCast(e.durationSeconds * 1000.0)) + ");";
      assert ev == Tone(e.timeSeconds, e.durationSeconds, e.pitch);
    } else {
      line := "\t__delay_cycles(" + IntToString(IntCast(e.durationSeconds * 1000000.0)) + ");";
      assert ev == Rest(e.timeSeconds, e.durationSeconds);
    }
    assert line == Statement(Precise, ev);
  }

  /** The loop of `PreciseSongLinker.link` over the events: the body and the set of frequencies used. */
  method PreciseBody(song: Song, lineSeparator: string) returns (body: string, freqsUsed: seq<int>)
    ensures body == Body(Precise, song.Value(), lineSeparator)
    ensures forall f :: f in freqsUsed <==> f in ToneFreqs(Selected(song.Value(), song.Value().events))
  {
    ghost var sv := song.Value();
    freqsUsed := [];
    var bodyBuilder := "";
    var events := song.tones;
    for j := 0 to |events|
      invariant bodyBuilder == Terminated(Statements(Precise, Selected(sv, sv.events[..j])), lineSeparator)
      invariant forall f :: f in freqsUsed <==> f in ToneFreqs(Selected(sv, sv.events[..j]))
    {
      var e := events[j];
      BodyStep(Precise, sv, sv.events, j, lineSeparator);
      ToneFreqsStep(sv, sv.events, j);
      if e.timeSeconds < song.selectionStartTimeSec || e.timeSeconds > song.selectionEndTimeSec {
        continue;
      }
      if e.isTone {
        var freq := IntCast(e.pitch);
        if freq !in freqsUsed {
          freqsUsed := freqsUsed + [freq];
        }
      }
      var line := PreciseLine(e);
      assert e.Value() == sv.events[j];
      bodyBuilder := bodyBuilder + line + lineSeparator;
    }
    assert sv.events[..|events|] == sv.events;
    body := bodyBuilder;
  }

  /** The frequency switch, built case by case; None at a frequency of 0. */
  method BuildSwitch(freqsUsedSorted: seq<int>) returns (freqSwitch: Option<string>)
    ensures 0 in freqsUsedSorted ==> freqSwitch == None
    ensures 0 !in freqsUsedSorted ==> freqSwitch == Some(SwitchText(freqsUsedSorted))
  {
    var cases := "";
    for k := 0 to |freqsUsedSorted|
      invariant 0 !in freqsUsedSorted[..k]
      invariant cases == CasesText(freqsUsedSorted[..k])
    {
      var freq := freqsUsedSorted[k];
      if freq == 0 {
        return None;
      }
      var delayCycles := JavaDiv(JavaDiv(1000000, freq), 2);
      assert freqsUsedSorted[..k + 1][..k] == freqsUsedSorted[..k];
      var caseText := "\t\tcase " + IntToString(freq) + ": \n"
        + "\t\t\t__delay_cycles(" + IntToString(delayCycles) + ");\n"
        + "\t\t\tbreak;\n";
      assert caseText == CaseText(freq);
      cases := cases + caseText;
    }
    assert freqsUsedSorted[..|freqsUsedSorted|] == freqsUsedSorted;
    freqSwitch := Some("switch (freq) {\n" + cases + "\t\t}\n");
  }

  /** `PreciseSongLinker.link`, with the two template files passed in. */
  method PreciseLink(song: Song, templateStart: string, templateEnd: string, lineSeparator: string)
    returns (text: Option<string>)
    ensures text == PreciseText(song.Value(), templateStart, templateEnd, lineSeparator)
  {
    var body, freqsUsed := PreciseBody(song, lineSeparator);
    var freqsUsedSorted := SortDescending(freqsUsed);
    SortSameValues(freqsUsed, ToneFreqs(Selected(song.Value(), song.Value().events)));
    var freqSwitch := BuildSwitch(freqsUsedSorted);
    if freqSwitch.None? {
      return None;
    }
    text := Some(FillTemplate(templateStart, freqSwitch.value) + body + templateEnd);
  }
}
