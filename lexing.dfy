/**
  What the MusicString tokenizer produces, stated as a reference function
  over the text: whitespace separates words, and a `#` that starts a word
  opens a comment which runs up to and including the next run of `\n` and
  `\r` characters. A `#` anywhere else in a word (`c#`) is part of it.
*/
module Lexing {
  import opened JavaLang
  import opened Tokens

  predicate IsNewline(c: char) {
    c == '\n' || c == '\r'
  }

  /**
    Where scanning resumes after a comment: the first character after the
    first run of newline characters at or after `j`, or the end of the text.
    `seenNewline` says whether that run has already begun.
  */
  function CommentEnd(text: string, j: nat, seenNewline: bool): (r: nat)
    requires j <= |text|
    ensures j <= r <= |text|
    decreases |text| - j
  {
    if j == |text| then |text|
    else if IsNewline(text[j]) then CommentEnd(text, j + 1, true)
    else if seenNewline then j
    else CommentEnd(text, j + 1, false)
  }

  /** The end of the word starting at `i`: the next whitespace, or the end of the text. */
  function WordEnd(text: string, i: nat): (e: nat)
    requires i <= |text|
    ensures i <= e <= |text|
    ensures forall k :: i <= k < e ==> !IsWhitespace(text[k])
    ensures e < |text| ==> IsWhitespace(text[e])
    decreases |text| - i
  {
    if i == |text| || IsWhitespace(text[i]) then i else WordEnd(text, i + 1)
  }

  /** The words of `text` from offset `i` on, where `i` is at the start of a word. */
  function Words(text: string, i: nat): seq<Lexeme>
    requires i <= |text|
    decreases |text| - i
  {
    if i == |text| then []
    else if IsWhitespace(text[i]) then Words(text, i + 1)
    else if text[i] == '#' then Words(text, CommentEnd(text, i + 1, false))
    else
      var e := WordEnd(text, i);
      [Lexeme(text[i..e], i)] + Words(text, e)
  }

  /** Well-formed words: each is its own slice of the text and free of whitespace. */
  predicate WordAt(text: string, w: Lexeme, from: nat) {
    from <= w.pos && w.EndPos() <= |text|
    && |w.text| > 0
    && w.text == text[w.pos..w.EndPos()]
    && w.text[0] != '#'
    && (forall k :: 0 <= k < |w.text| ==> !IsWhitespace(w.text[k]))
  }

  /** Every word is non-empty, free of whitespace, does not start with `#`, and equals the slice of the text at its position. */
  lemma {:induction false} WordsAreSlices(text: string, i: nat)
    requires i <= |text|
    ensures forall k :: 0 <= k < |Words(text, i)| ==> WordAt(text, Words(text, i)[k], i)
    decreases |text| - i
  {
    if i == |text| {
    } else if IsWhitespace(text[i]) {
      WordsAreSlices(text, i + 1);
    } else if text[i] == '#' {
      WordsAreSlices(text, CommentEnd(text, i + 1, false));
    } else {
      var e := WordEnd(text, i);
      WordsAreSlices(text, e);
      assert Words(text, i) == [Lexeme(text[i..e], i)] + Words(text, e);
    }
  }

  /** Words come in strictly increasing position order, with at least one character between them. */
  lemma {:induction false} WordsOrdered(text: string, i: nat)
    requires i <= |text|
    ensures forall k :: 0 <= k < |Words(text, i)| - 1 ==>
              Words(text, i)[k].EndPos() < Words(text, i)[k + 1].pos
    decreases |text| - i
  {
    if i == |text| {
    } else if IsWhitespace(text[i]) {
      WordsOrdered(text, i + 1);
    } else if text[i] == '#' {
      WordsOrdered(text, CommentEnd(text, i + 1, false));
    } else {
      var e := WordEnd(text, i);
      var rest := Words(text, e);
      WordsOrdered(text, e);
      assert Words(text, i) == [Lexeme(text[i..e], i)] + rest;
      if |rest| > 0 {
        WordsAreSlices(text, e);
        assert e < |text| && IsWhitespace(text[e]);
        assert WordAt(text, rest[0], e);
      }
    }
  }

  /**
    Every word is non-empty, free of whitespace, does not start with `#`,
    and equals the slice of the text at its position; words come in
    strictly increasing position order with at least one character between
    them.
  */
  lemma WordsWellFormed(text: string, i: nat)
    requires i <= |text|
    ensures forall k :: 0 <= k < |Words(text, i)| ==> WordAt(text, Words(text, i)[k], i)
    ensures forall k :: 0 <= k < |Words(text, i)| - 1 ==>
              Words(text, i)[k].EndPos() < Words(text, i)[k + 1].pos
  {
    WordsAreSlices(text, i);
    WordsOrdered(text, i);
  }

  /** Text after which nothing but whitespace follows has no words there. */
  lemma {:induction false} WordsOfBlank(text: string, i: nat)
    requires i <= |text|
    requires forall k :: i <= k < |text| ==> IsWhitespace(text[k])
    ensures Words(text, i) == []
    decreases |text| - i
  {
    if i < |text| {
      WordsOfBlank(text, i + 1);
    }
  }

  /**
    A `#` at the start of a word drops everything up to the first character
    after the next run of newlines: that resume point lies past at least one
    `\n` or `\r`, or it is the end of the text.
  */
  lemma {:induction false} CommentSkipsLine(text: string, i: nat)
    requires i < |text| && text[i] == '#'
    ensures var e := CommentEnd(text, i + 1, false);
      Words(text, i) == Words(text, e)
      && (e == |text| || (i + 1 < e && IsNewline(text[e - 1]) && !IsNewline(text[e])))
  {
    CommentEndShape(text, i + 1, false);
  }

  lemma {:induction false} CommentEndShape(text: string, j: nat, seenNewline: bool)
    requires 0 < j <= |text|
    requires seenNewline ==> IsNewline(text[j - 1])
    ensures var e := CommentEnd(text, j, seenNewline);
      e == |text| || (j <= e && 0 < e && IsNewline(text[e - 1]) && !IsNewline(text[e]) && (j < e || seenNewline))
    decreases |text| - j
  {
    if j < |text| && (IsNewline(text[j]) || !seenNewline) {
      CommentEndShape(text, j + 1, IsNewline(text[j]));
    }
  }

  /**
    Every word is maximal: whitespace or the end of the text follows it,
    and whitespace or the start of the text precedes it.
  */
  lemma {:induction false} WordsMaximal(text: string, i: nat)
    requires i <= |text|
    requires i == 0 || i == |text| || IsWhitespace(text[i - 1])
    ensures forall w :: w in Words(text, i) ==>
              0 <= w.pos <= w.EndPos() <= |text|
              && (w.EndPos() == |text| || IsWhitespace(text[w.EndPos()]))
              && (w.pos == 0 || IsWhitespace(text[w.pos - 1]))
    decreases |text| - i
  {
    if i == |text| {
    } else if IsWhitespace(text[i]) {
      WordsMaximal(text, i + 1);
    } else if text[i] == '#' {
      CommentEndShape(text, i + 1, false);
      WordsMaximal(text, CommentEnd(text, i + 1, false));
    } else {
      var e := WordEnd(text, i);
      if e < |text| {
        WordsMaximal(text, e + 1);
        assert Words(text, e) == Words(text, e + 1);
      }
      assert Words(text, i) == [Lexeme(text[i..e], i)] + Words(text, e);
    }
  }

  /** A `#` inside a word is kept: `c#` is one word. */
  lemma SharpInsideWord()
    ensures Words("c# d", 0) == [Lexeme("c#", 0), Lexeme("d", 3)]
  {
    var t := "c# d";
    assert WordEnd(t, 3) == 4;
    assert WordEnd(t, 0) == 2;
    assert Words(t, 3) == [Lexeme(t[3..4], 3)] + Words(t, 4);
    assert Words(t, 2) == Words(t, 3);
    assert Words(t, 0) == [Lexeme(t[0..2], 0)] + Words(t, 2);
    assert t[0..2] == "c#" && t[3..4] == "d";
  }

  /** A comment line, even one with spaces in it, yields no words. */
  lemma CommentLine()
    ensures Words("#x y\nc", 0) == [Lexeme("c", 5)]
  {
    var t := "#x y\nc";
    assert CommentEnd(t, 5, true) == 5;
    assert CommentEnd(t, 1, false) == 5;
    assert WordEnd(t, 5) == 6;
    assert Words(t, 5) == [Lexeme(t[5..6], 5)] + Words(t, 6);
    assert Words(t, 0) == Words(t, 5);
    assert t[5..6] == "c";
  }

  /** The word that starts at `p` ends at the first whitespace after it. */
  lemma {:induction false} WordEndAt(text: string, p: nat, i: nat)
    requires p <= i <= |text|
    requires forall k :: p <= k < i ==> !IsWhitespace(text[k])
    requires i == |text| || IsWhitespace(text[i])
    ensures WordEnd(text, p) == i
    decreases i - p
  {
    if p < i {
      WordEndAt(text, p + 1, i);
    }
  }

  /** A word of the text, followed by the words after it. */
  lemma WordsOfWord(text: string, p: nat, i: nat)
    requires p < i <= |text| && text[p] != '#'
    requires forall k :: p <= k < i ==> !IsWhitespace(text[k])
    requires i == |text| || IsWhitespace(text[i])
    ensures Words(text, p) == [Lexeme(text[p..i], p)] + Words(text, i)
  {
    WordEndAt(text, p, i);
  }

  /** The lexemes with empty text removed. */
  function NonEmpty(ls: seq<Lexeme>): (r: seq<Lexeme>)
    ensures |r| <= |ls|
  {
    if ls == [] then []
    else if ls[|ls| - 1].text == "" then NonEmpty(ls[..|ls| - 1])
    else NonEmpty(ls[..|ls| - 1]) + [ls[|ls| - 1]]
  }

  /** Dropping empty lexemes distributes over concatenation. */
  lemma {:induction false} NonEmptyConcat(a: seq<Lexeme>, b: seq<Lexeme>)
    ensures NonEmpty(a + b) == NonEmpty(a) + NonEmpty(b)
    decreases |b|
  {
    if b == [] {
      assert a + b == a;
    } else {
      var b0 := b[..|b| - 1];
      assert (a + b)[..|a + b| - 1] == a + b0;
      NonEmptyConcat(a, b0);
    }
  }

  /** Lexemes that are all non-empty are kept as they are. */
  lemma {:induction false} NonEmptyKeepsAll(ls: seq<Lexeme>)
    requires forall k :: 0 <= k < |ls| ==> ls[k].text != ""
    ensures NonEmpty(ls) == ls
  {
    if ls != [] {
      NonEmptyKeepsAll(ls[..|ls| - 1]);
      assert ls == ls[..|ls| - 1] + [ls[|ls| - 1]];
    }
  }

  /** Appending a lexeme keeps it exactly when it is not empty. */
  lemma NonEmptyAppend(ls: seq<Lexeme>, x: Lexeme)
    ensures NonEmpty(ls + [x]) == if x.text == "" then NonEmpty(ls) else NonEmpty(ls) + [x]
  {
    assert (ls + [x])[..|ls|] == ls;
  }

  /** Dropping an empty lexeme does not change the non-empty ones. */
  lemma DropEmpty(ls: seq<Lexeme>, j: nat)
    requires j < |ls| && ls[j].text == ""
    ensures NonEmpty(ls[..j] + ls[j + 1..]) == NonEmpty(ls)
  {
    assert ls == ls[..j] + [ls[j]] + ls[j + 1..];
    NonEmptyConcat(ls[..j] + [ls[j]], ls[j + 1..]);
    NonEmptyConcat(ls[..j], [ls[j]]);
    NonEmptyConcat(ls[..j], ls[j + 1..]);
    assert NonEmpty([ls[j]]) == [];
  }

  /** No lexeme that survives `NonEmpty` is empty. */
  lemma {:induction false} NonEmptyDropsEmpty(ls: seq<Lexeme>)
    ensures forall k :: 0 <= k < |NonEmpty(ls)| ==> NonEmpty(ls)[k].text != ""
  {
    if ls != [] {
      NonEmptyDropsEmpty(ls[..|ls| - 1]);
    }
  }
}
