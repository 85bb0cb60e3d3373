/**
  The MusicString tokenizer: splits compiler input into `Token`s at
  whitespace, skips `#` comments, and drops the empty tokens that runs of
  separators leave behind. `Tokenize` is proved to produce exactly
  `Lexing.Words`.
*/
module Tokenizer {
  import opened JavaLang
  import opened Tokens
  import opened Lexing

  /**
    The tokenizer has read `text[..i]`: `done` holds the tokens it has
    closed, `tok` the one being read, which is the text from its start up
    to `i`, holds no whitespace, and starts no comment; and the words of the
    text are the non-empty closed tokens followed by the words from `tok`'s
    start on.
  */
  predicate Scanned(text: string, i: nat, tok: Lexeme, done: seq<Lexeme>) {
    0 <= tok.pos <= i <= |text|
    && tok.text == text[tok.pos..i]
    && (tok.pos < i ==> text[tok.pos] != '#')
    && (forall k :: tok.pos <= k < i ==> !IsWhitespace(text[k]))
    && NonEmpty(done) + Words(text, tok.pos) == Words(text, 0)
  }

  lemma ScanStart(text: string)
    ensures Scanned(text, 0, Lexeme("", 0), [])
  {
  }

  /** A separator closes the token being read and starts an empty one after it. */
  lemma ScanSeparator(text: string, i: nat, tok: Lexeme, done: seq<Lexeme>)
    requires Scanned(text, i, tok, done) && i < |text| && IsWhitespace(text[i])
    ensures Scanned(text, i + 1, Lexeme("", i + 1), done + [tok])
  {
    if tok.pos < i {
      WordBeforeSeparator(text, tok.pos, i, done);
    } else {
      NothingBeforeSeparator(text, i, done);
    }
  }

  lemma WordBeforeSeparator(text: string, p: nat, i: nat, done: seq<Lexeme>)
    requires p < i < |text| && IsWhitespace(text[i]) && text[p] != '#'
    requires forall k :: p <= k < i ==> !IsWhitespace(text[k])
    requires NonEmpty(done) + Words(text, p) == Words(text, 0)
    ensures NonEmpty(done + [Lexeme(text[p..i], p)]) + Words(text, i + 1) == Words(text, 0)
  {
    NonEmptyAppend(done, Lexeme(text[p..i], p));
    assert Words(text, i) == Words(text, i + 1);
    WordsOfWord(text, p, i);
  }

  lemma NothingBeforeSeparator(text: string, i: nat, done: seq<Lexeme>)
    requires i < |text| && IsWhitespace(text[i])
    requires NonEmpty(done) + Words(text, i) == Words(text, 0)
    ensures NonEmpty(done + [Lexeme("", i)]) + Words(text, i + 1) == Words(text, 0)
  {
    NonEmptyAppend(done, Lexeme("", i));
    assert Words(text, i) == Words(text, i + 1);
  }

  /** Any other character extends the token being read. */
  lemma ScanChar(text: string, i: nat, tok: Lexeme, done: seq<Lexeme>)
    requires Scanned(text, i, tok, done) && i < |text| && !IsWhitespace(text[i])
    requires tok.text == "" ==> text[i] != '#'
    ensures Scanned(text, i + 1, Lexeme(tok.text + [text[i]], tok.pos), done)
  {
    assert text[tok.pos..i + 1] == text[tok.pos..i] + [text[i]];
  }

  /** A `#` that starts a token skips the comment; an empty token starts after it. */
  lemma ScanComment(text: string, i: nat, tok: Lexeme, done: seq<Lexeme>, next: nat)
    requires Scanned(text, i, tok, done) && i < |text| && text[i] == '#' && tok.text == ""
    requires next == CommentEnd(text, i + 1, false) && next < |text|
    ensures Scanned(text, next, Lexeme("", next), done)
  {
    CommentSkipsLine(text, i);
  }

  /** A comment that runs to the end of the text leaves only an empty token behind. */
  lemma ScanCommentToEnd(text: string, i: nat, tok: Lexeme, done: seq<Lexeme>)
    requires Scanned(text, i, tok, done) && i < |text| && text[i] == '#' && tok.text == ""
    requires CommentEnd(text, i + 1, false) == |text|
    ensures NonEmpty(done + [tok]) == Words(text, 0)
  {
    CommentSkipsLine(text, i);
    NonEmptyAppend(done, tok);
  }

  /** At the end of the text the token being read is the last one. */
  lemma ScanEnd(text: string, tok: Lexeme, done: seq<Lexeme>)
    requires Scanned(text, |text|, tok, done)
    ensures NonEmpty(done + [tok]) == Words(text, 0)
  {
    NonEmptyAppend(done, tok);
    if tok.pos < |text| {
      WordsOfWord(text, tok.pos, |text|);
    }
  }

  /**
    Scans a comment that starts at `start`: the first character after the
    next run of newlines, and whether the text ran out first.
  */
  method SkipComment(text: string, start: nat) returns (next: nat, toEnd: bool)
    requires start < |text| && text[start] == '#'
    ensures start < next <= |text|
    ensures next == CommentEnd(text, start + 1, false)
    ensures toEnd <==> next == |text|
  {
    var i := start;
    var newlineCharRead := false;
    while true
      invariant start <= i < |text|
      invariant CommentEnd(text, i + 1, newlineCharRead) == CommentEnd(text, start + 1, false)
      decreases |text| - i
    {
      i := i + 1;
      if i >= |text| {
        return i, true;
      }
      var c := text[i];
      if c == '\n' || c == '\r' {
        newlineCharRead := true;
      } else if newlineCharRead {
        break;
      }
    }
    return i, false;
  }

  /** The tokens in `tokens` hold the lexemes `vals`, one for one. */
  predicate Holds(tokens: seq<Token>, vals: seq<Lexeme>)
    reads tokens
  {
    |tokens| == |vals|
    && forall k {:trigger vals[k]} :: 0 <= k < |tokens| ==> vals[k] == Lexeme(tokens[k].tokenText, tokens[k].textPos)
  }

  lemma {:induction false} HoldsValues(tokens: seq<Token>, vals: seq<Lexeme>)
    requires Holds(tokens, vals)
    ensures Values(tokens) == vals
  {
    if tokens != [] {
      var n := |tokens| - 1;
      assert Holds(tokens[..n], vals[..n]);
      HoldsValues(tokens[..n], vals[..n]);
      assert vals == vals[..n] + [vals[n]];
    }
  }

  /** A token appended to the list holds its own value. */
  lemma HoldsAppend(tokens: seq<Token>, vals: seq<Lexeme>, t: Token)
    requires Holds(tokens, vals)
    ensures Holds(tokens + [t], vals + [t.Value()])
  {
  }

  /** Appends `c` to the token being read, which none of `tokens` is. */
  method Extend(currToken: Token, c: char, ghost tokens: seq<Token>, ghost vals: seq<Lexeme>)
    requires currToken !in tokens && Holds(tokens, vals)
    modifies currToken
    ensures currToken.Value() == Lexeme(old(currToken.tokenText) + [c], old(currToken.textPos))
    ensures Holds(tokens, vals)
  {
    currToken.AddChar(c);
  }

  /** A separator at `text[i]` closes the token being read and starts an empty one after it. */
  method CloseToken(text: string, i: nat, tokens: seq<Token>, currToken: Token, ghost vals: seq<Lexeme>)
    returns (tokens': seq<Token>, currToken': Token, ghost vals': seq<Lexeme>)
    requires i < |text| && IsWhitespace(text[i]) && currToken !in tokens
    requires Scanned(text, i, currToken.Value(), vals) && Holds(tokens, vals)
    ensures fresh(currToken') && tokens' == tokens + [currToken]
    ensures currToken'.Value() == Lexeme("", i + 1)
    ensures Holds(tokens', vals') && Scanned(text, i + 1, currToken'.Value(), vals')
  {
    ScanSeparator(text, i, currToken.Value(), vals);
    HoldsAppend(tokens, vals, currToken);
    vals' := vals + [currToken.Value()];
    tokens' := tokens + [currToken];
    currToken' := new Token("", i + 1);
  }

  /**
    One pass of the scanning loop, at `text[i]`: a separator closes the
    token being read, a `#` that starts a token skips the comment, and any
    other character extends the token. `stop` says that a comment ran to
    the end of the text, which ends the scan.
  */
  method ReadChar(text: string, i: nat, tokens: seq<Token>, currToken: Token, firstCharOfToken: bool, ghost vals: seq<Lexeme>)
    returns (next: nat, tokens': seq<Token>, currToken': Token, firstCharOfToken': bool, stop: bool, ghost vals': seq<Lexeme>)
    requires i < |text| && currToken !in tokens
    requires firstCharOfToken <==> currToken.tokenText == ""
    requires Scanned(text, i, currToken.Value(), vals) && Holds(tokens, vals)
    modifies currToken
    ensures fresh(currToken') || currToken' == currToken
    ensures currToken' !in tokens' && Holds(tokens', vals')
    ensures firstCharOfToken' <==> currToken'.tokenText == ""
    ensures stop ==> NonEmpty(vals' + [currToken'.Value()]) == Words(text, 0)
    ensures !stop ==> i < next <= |text| && Scanned(text, next, currToken'.Value(), vals')
  {
    var c := text[i];
    ghost var tok := currToken.Value();
    if IsWhitespace(c) {
      tokens', currToken', vals' := CloseToken(text, i, tokens, currToken, vals);
      return i + 1, tokens', currToken', true, false, vals';
    }
    if firstCharOfToken && c == '#' {
      var after, toEnd := SkipComment(text, i);
      if toEnd {
        ScanCommentToEnd(text, i, tok, vals);
        return i + 1, tokens, currToken, firstCharOfToken, true, vals;
      }
      ScanComment(text, i, tok, vals, after);
      currToken' := new Token("", after);
      return after, tokens, currToken', true, false, vals;
    }
    ScanChar(text, i, tok, vals);
    Extend(currToken, c, tokens, vals);
    return i + 1, tokens, currToken, false, false, vals;
  }

  /**
    The scanning loop of the tokenizer: the tokens it reads, empty ones
    included, are the words of the text once the empty ones are dropped.
  */
  method ReadTokens(text: string) returns (tokens: seq<Token>)
    ensures NonEmpty(Values(tokens)) == Words(text, 0)
  {
    tokens := [];
    var currToken := new Token("", 0);
    var firstCharOfToken := true;
    ghost var vals := [];
    ScanStart(text);
    var i := 0;
    while i < |text|
      invariant fresh(currToken) && currToken !in tokens
      invariant firstCharOfToken <==> currToken.tokenText == ""
      invariant Scanned(text, i, currToken.Value(), vals)
      invariant Holds(tokens, vals)
      decreases |text| - i
    {
      var stop;
      i, tokens, currToken, firstCharOfToken, stop, vals := ReadChar(text, i, tokens, currToken, firstCharOfToken, vals);
      if stop {
        vals := vals + [currToken.Value()];
        tokens := tokens + [currToken];
        HoldsValues(tokens, vals);
        return;
      }
    }
    ScanEnd(text, currToken.Value(), vals);
    vals := vals + [currToken.Value()];
    tokens := tokens + [currToken];
    HoldsValues(tokens, vals);
  }

  /** A non-empty lexeme extends a prefix that has no empty lexemes. */
  lemma KeepStep(vs: seq<Lexeme>, j: nat)
    requires j < |vs| && vs[j].text != "" && NonEmpty(vs[..j]) == vs[..j]
    ensures NonEmpty(vs[..j + 1]) == vs[..j + 1]
  {
    assert vs[..j + 1] == vs[..j] + [vs[j]];
    NonEmptyAppend(vs[..j], vs[j]);
  }

  /** Removing an empty token keeps the values before it and the non-empty values overall. */
  lemma RemoveStep(ts: seq<Token>, j: nat)
    requires j < |ts| && Values(ts)[j].text == ""
    ensures Values(ts[..j] + ts[j + 1..])[..j] == Values(ts)[..j]
    ensures NonEmpty(Values(ts[..j] + ts[j + 1..])) == NonEmpty(Values(ts))
  {
    ValuesRemove(ts, j);
    DropEmpty(Values(ts), j);
  }

  /** Removes the tokens with empty text, keeping the others in order. */
  method RemoveEmptyTokens(ts: seq<Token>) returns (tokens: seq<Token>)
    ensures Values(tokens) == NonEmpty(Values(ts))
  {
    tokens := ts;
    var j := 0;
    while j < |tokens|
      invariant 0 <= j <= |tokens|
      invariant NonEmpty(Values(tokens)) == NonEmpty(Values(ts))
      invariant NonEmpty(Values(tokens)[..j]) == Values(tokens)[..j]
      decreases |tokens| - j
    {
      ValuesIndex(tokens, j);
      if |tokens[j].GetTokenText()| <= 0 {
        RemoveStep(tokens, j);
        tokens := tokens[..j] + tokens[j + 1..];
        j := j - 1;
      } else {
        KeepStep(Values(tokens), j);
      }
      j := j + 1;
    }
    assert Values(tokens)[..j] == Values(tokens);
  }

  /** Splits `text` into its words, in order, each with its offset in the text. */
  method Tokenize(text: string) returns (tokens: seq<Token>)
    ensures Values(tokens) == Words(text, 0)
  {
    tokens := ReadTokens(text);
    tokens := RemoveEmptyTokens(tokens);
  }
}
