/**
  A token of MusicString text: the characters of one word and the offset of
  its first character in the text handed to the compiler. The tokenizer
  builds a `Token` one character at a time; `Lexeme` is its value.
*/
module Tokens {

  /** The value of a token: its text and where that text starts. */
  datatype Lexeme = Lexeme(text: string, pos: int) {
    /** The offset just after the token's last character. */
    function EndPos(): int {
      pos + |text|
    }
  }

  class Token {
    var tokenText: string
    var textPos: int

    constructor (tokenText: string, textPos: int)
      ensures this.tokenText == tokenText && this.textPos == textPos
    {
      this.tokenText := tokenText;
      this.textPos := textPos;
    }

    /** Appends one character; the start offset stays where it was. */
    method AddChar(c: char)
      modifies this
      ensures tokenText == old(tokenText) + [c]
      ensures textPos == old(textPos)
      ensures GetTextEndPos() == old(GetTextEndPos()) + 1
    {
      tokenText := tokenText + [c];
    }

    function GetTokenText(): (r: string)
      reads this
      ensures r == tokenText
    {
      tokenText
    }

    method SetTokenText(tokenText: string)
      modifies this
      ensures this.tokenText == tokenText && textPos == old(textPos)
    {
      this.tokenText := tokenText;
    }

    function GetTextPos(): (r: int)
      reads this
      ensures r == textPos
    {
      textPos
    }

    method SetTextPos(textPos: int)
      modifies this
      ensures this.textPos == textPos && tokenText == old(tokenText)
    {
      this.textPos := textPos;
    }

    /** The offset after the token's last character, never before its start. */
    function GetTextEndPos(): (r: int)
      reads this
      ensures r - textPos == |tokenText|
      ensures r >= textPos
    {
      textPos + |tokenText|
    }

    function Value(): (v: Lexeme)
      reads this
      ensures v.text == tokenText && v.pos == textPos
      ensures v.EndPos() == GetTextEndPos()
    {
      Lexeme(tokenText, textPos)
    }
  }

  /** The values of a list of tokens, in order. */
  function Values(ts: seq<Token>): (vs: seq<Lexeme>)
    reads ts
    ensures |vs| == |ts|
  {
    if ts == [] then [] else Values(ts[..|ts| - 1]) + [ts[|ts| - 1].Value()]
  }

  /** The `k`-th value is the value of the `k`-th token. */
  lemma {:induction false} ValuesIndex(ts: seq<Token>, k: nat)
    requires k < |ts|
    ensures Values(ts)[k] == ts[k].Value()
  {
    if k < |ts| - 1 {
      ValuesIndex(ts[..|ts| - 1], k);
    }
  }

  /** The values of a concatenation are the concatenated values. */
  lemma {:induction false} ValuesConcat(a: seq<Token>, b: seq<Token>)
    ensures Values(a + b) == Values(a) + Values(b)
    decreases |b|
  {
    if b == [] {
      assert a + b == a;
    } else {
      var n := |b| - 1;
      assert (a + b)[..|a + b| - 1] == a + b[..n];
      assert (a + b)[|a + b| - 1] == b[n];
      ValuesConcat(a, b[..n]);
    }
  }

  lemma {:induction false} ValuesSplit(ts: seq<Token>, j: nat)
    requires j <= |ts|
    ensures Values(ts[..j]) == Values(ts)[..j] && Values(ts[j..]) == Values(ts)[j..]
  {
    assert ts == ts[..j] + ts[j..];
    ValuesConcat(ts[..j], ts[j..]);
  }

  /** Removing a token removes its value and nothing else. */
  lemma ValuesRemove(ts: seq<Token>, j: nat)
    requires j < |ts|
    ensures Values(ts[..j] + ts[j + 1..]) == Values(ts)[..j] + Values(ts)[j + 1..]
  {
    ValuesSplit(ts, j);
    ValuesSplit(ts, j + 1);
    ValuesConcat(ts[..j], ts[j + 1..]);
  }
}
