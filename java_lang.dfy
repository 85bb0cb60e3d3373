/**
  The parts of Java's own semantics that ToneScribe's core relies on:
  32-bit `int` arithmetic, the `(int)` cast of a `double`, truncating `/`
  and `%`, and the few `String` and `Integer` methods the sources call
  (`trim`, `split`, `indexOf`, `Integer.parseInt`, `Integer.toString`,
  `String.replace`). Doubles are modelled as `real`.
*/
module JavaLang {

  datatype Option<T> = None | Some(value: T)

  const INT_MIN: int := -0x8000_0000
  const INT_MAX: int := 0x7FFF_FFFF

  predicate InInt(x: int) {
    INT_MIN <= x <= INT_MAX
  }

  /** Two's-complement wrap-around of a 32-bit `int` result. */
  function Wrap32(x: int): (r: int)
    ensures InInt(r)
    ensures (x - r) % 0x1_0000_0000 == 0
    ensures InInt(x) ==> r == x
  {
    var m := (x - INT_MIN) % 0x1_0000_0000;
    assert (x - INT_MIN) == ((x - INT_MIN) / 0x1_0000_0000) * 0x1_0000_0000 + m;
    m + INT_MIN
  }

  function Abs(x: int): nat {
    if x < 0 then -x else x
  }

  /** Java's integer `/`: the quotient is truncated toward zero. */
  function JavaDiv(a: int, b: int): int
    requires b != 0
  {
    if (a < 0) == (b < 0) then Abs(a) / Abs(b) else -(Abs(a) / Abs(b))
  }

  /** Java's integer `%`: the remainder takes the sign of the dividend. */
  function JavaRem(a: int, b: int): int
    requires b != 0
  {
    if a < 0 then -(Abs(a) % Abs(b)) else Abs(a) % Abs(b)
  }

  /** Java's `/` and `%` fit together as `a == (a / b) * b + a % b`. */
  lemma JavaDivRem(a: int, b: int)
    requires b != 0
    ensures a == JavaDiv(a, b) * b + JavaRem(a, b)
    ensures Abs(JavaRem(a, b)) < Abs(b)
  {
    var q, r := Abs(a) / Abs(b), Abs(a) % Abs(b);
    assert Abs(a) == q * Abs(b) + r;
    if a < 0 && b < 0 {
      assert a == q * b - r;
    } else if a < 0 {
      assert a == (-q) * b - r;
    } else if b < 0 {
      assert a == (-q) * b + r;
    }
  }

  /**
    Division of two doubles. IEEE's infinities and NaN are not modelled:
    a division by zero yields 0 here.
  */
  function DoubleDiv(a: real, b: real): (r: real)
    ensures b != 0.0 ==> r * b == a
  {
    if b == 0.0 then 0.0 else a / b
  }

  function Floor(x: real): (r: int)
    ensures r as real <= x < r as real + 1.0
  {
    x.Floor
  }

  /**
    Java's narrowing `(int)` cast of a `double`: rounds toward zero and
    saturates at the bounds of `int`.
  */
  function IntCast(x: real): (r: int)
    ensures InInt(r)
    ensures 0.0 <= x < INT_MAX as real ==> r as real <= x < r as real + 1.0
    ensures INT_MIN as real < x < 0.0 ==> r as real - 1.0 < x <= r as real
    ensures x >= INT_MAX as real ==> r == INT_MAX
    ensures x <= INT_MIN as real ==> r == INT_MIN
  {
    if x >= INT_MAX as real then INT_MAX
    else if x <= INT_MIN as real then INT_MIN
    else if x >= 0.0 then Floor(x)
    else -Floor(-x)
  }

  /** `Character.isDigit` restricted to the ASCII digits. */
  predicate IsDigit(c: char) {
    '0' <= c <= '9'
  }

  function DigitValue(c: char): (d: nat)
    requires IsDigit(c)
    ensures d < 10
  {
    (c as int) - ('0' as int)
  }

  function DigitChar(d: nat): (c: char)
    requires d < 10
    ensures IsDigit(c) && DigitValue(c) == d
  {
    (('0' as int) + d) as char
  }

  /**
    `Character.isWhitespace`: the ASCII separators and controls U+001C to
    U+001F, plus the Unicode space, line and paragraph separators other
    than the non-breaking spaces.
  */
  predicate IsWhitespace(c: char) {
    c == ' ' || c == '\t' || c == '\n' || c == '\r' || c == '\U{000B}' || c == '\U{000C}'
    || ('\U{001C}' <= c <= '\U{001F}')
    || c == '\U{1680}' || ('\U{2000}' <= c <= '\U{2006}') || ('\U{2008}' <= c <= '\U{200A}')
    || c == '\U{2028}' || c == '\U{2029}' || c == '\U{205F}' || c == '\U{3000}'
  }

  function ToLowerChar(c: char): (r: char)
    ensures !('A' <= r <= 'Z')
    ensures !('A' <= c <= 'Z') ==> r == c
  {
    if 'A' <= c <= 'Z' then (c as int + 32) as char else c
  }

  /** `String.toLowerCase` on the ASCII letters. */
  function ToLower(s: string): (r: string)
    ensures |r| == |s|
    ensures forall i :: 0 <= i < |s| ==> r[i] == ToLowerChar(s[i])
  {
    seq(|s|, i requires 0 <= i < |s| => ToLowerChar(s[i]))
  }

  /** The leading part of `String.trim`: drops characters up to U+0020. */
  function TrimStart(s: string): (r: string)
    ensures |r| <= |s| && r == s[|s| - |r|..]
    ensures r != [] ==> r[0] > ' '
    ensures forall i :: 0 <= i < |s| - |r| ==> s[i] <= ' '
  {
    if s != [] && s[0] <= ' ' then TrimStart(s[1..]) else s
  }

  /** The trailing part of `String.trim`. */
  function TrimEnd(s: string): (r: string)
    ensures |r| <= |s| && r == s[..|r|]
    ensures r != [] ==> r[|r| - 1] > ' '
    ensures forall i :: |r| <= i < |s| ==> s[i] <= ' '
  {
    if s != [] && s[|s| - 1] <= ' ' then TrimEnd(s[..|s| - 1]) else s
  }

  /** `String.trim`. */
  function Trim(s: string): (r: string)
  {
    TrimEnd(TrimStart(s))
  }

  /** The scan behind `indexOf`: the first position at or after `i` holding `c`, or -1. */
  function IndexFrom(s: string, c: char, i: nat): int
    requires i <= |s|
    decreases |s| - i
  {
    if i == |s| then -1
    else if s[i] == c then i
    else IndexFrom(s, c, i + 1)
  }

  lemma {:induction false} IndexFromFirst(s: string, c: char, i: nat)
    requires i <= |s|
    ensures var r := IndexFrom(s, c, i);
      (r == -1 || i <= r < |s|)
      && (r == -1 <==> c !in s[i..])
      && (r >= 0 ==> s[r] == c && forall j :: i <= j < r ==> s[j] != c)
    decreases |s| - i
  {
    if i < |s| {
      assert s[i..] == [s[i]] + s[i + 1..];
      if s[i] != c {
        IndexFromFirst(s, c, i + 1);
      }
    }
  }

  /** `String.indexOf(char)`: the first position of `c`, or -1. */
  function IndexOf(s: string, c: char): (r: int)
    ensures -1 <= r < |s|
    ensures r == -1 <==> c !in s
    ensures r >= 0 ==> s[r] == c && forall j :: 0 <= j < r ==> s[j] != c
  {
    IndexFromFirst(s, c, 0);
    assert s[0..] == s;
    IndexFrom(s, c, 0)
  }

  /** Every piece between occurrences of `sep`, empty pieces included. */
  function SplitAll(s: string, sep: char): (parts: seq<string>)
    ensures |parts| >= 1
    decreases |s|
  {
    var i := IndexOf(s, sep);
    if i < 0 then [s] else [s[..i]] + SplitAll(s[i + 1..], sep)
  }

  /** The inverse of `SplitAll`: pieces glued back with `sep`. */
  function Join(parts: seq<string>, sep: char): string
    requires |parts| >= 1
  {
    if |parts| == 1 then parts[0] else parts[0] + [sep] + Join(parts[1..], sep)
  }

  /** Joining a first piece onto the rest puts one separator between them. */
  lemma JoinCons(head: string, rest: seq<string>, sep: char)
    requires |rest| >= 1
    ensures Join([head] + rest, sep) == head + [sep] + Join(rest, sep)
  {
    assert ([head] + rest)[1..] == rest;
  }

  /** The first separator of `a + [sep] + b` is the one after `a` when `a` has none. */
  lemma IndexOfAfter(a: string, sep: char, b: string)
    requires sep !in a
    ensures IndexOf(a + [sep] + b, sep) == |a|
  {
    var s := a + [sep] + b;
    assert forall j :: 0 <= j < |a| ==> s[j] == a[j];
    IndexOfFirst(s, sep, |a|);
  }

  /** A sequence is its part before `i`, its `i`-th element and its part after. */
  lemma SliceAround<T>(s: seq<T>, i: nat)
    requires i < |s|
    ensures s == s[..i] + [s[i]] + s[i + 1..]
  {
  }

  /** One step of `SplitAll`: the piece before the first separator, then the rest split. */
  lemma SplitAllStep(s: string, sep: char)
    requires sep in s
    ensures var i := IndexOf(s, sep);
      SplitAll(s, sep) == [s[..i]] + SplitAll(s[i + 1..], sep)
  {
  }

  /** No piece of `SplitAll` holds the separator. */
  lemma {:induction false} SplitAllNoSep(s: string, sep: char)
    ensures forall k :: 0 <= k < |SplitAll(s, sep)| ==> sep !in SplitAll(s, sep)[k]
    decreases |s|
  {
    if sep in s {
      var i := IndexOf(s, sep);
      SplitAllStep(s, sep);
      SplitAllNoSep(s[i + 1..], sep);
    }
  }

  lemma {:induction false} JoinSplitAll(s: string, sep: char)
    ensures Join(SplitAll(s, sep), sep) == s
    decreases |s|
  {
    if sep in s {
      var i := IndexOf(s, sep);
      var head, tail := s[..i], s[i + 1..];
      SplitAllStep(s, sep);
      SliceAround(s, i);
      JoinSplitAll(tail, sep);
      JoinCons(head, SplitAll(tail, sep), sep);
    }
  }

  /** Text without the separator, then the separator: the text is the first piece. */
  lemma SplitAllAfter(a: string, sep: char, b: string)
    requires sep !in a
    ensures SplitAll(a + [sep] + b, sep) == [a] + SplitAll(b, sep)
  {
    var s := a + [sep] + b;
    IndexOfAfter(a, sep, b);
    assert s[..|a|] == a;
    assert s[|a| + 1..] == b;
  }

  lemma {:induction false} SplitAllJoin(parts: seq<string>, sep: char)
    requires |parts| >= 1
    requires forall k :: 0 <= k < |parts| ==> sep !in parts[k]
    ensures SplitAll(Join(parts, sep), sep) == parts
  {
    if |parts| > 1 {
      SplitAllAfter(parts[0], sep, Join(parts[1..], sep));
      SplitAllJoin(parts[1..], sep);
      assert parts == [parts[0]] + parts[1..];
    }
  }

  function DropTrailingEmpty(parts: seq<string>): (r: seq<string>)
    ensures |r| <= |parts| && r == parts[..|r|]
    ensures r != [] ==> r[|r| - 1] != ""
    ensures forall k :: |r| <= k < |parts| ==> parts[k] == ""
  {
    if parts != [] && parts[|parts| - 1] == "" then DropTrailingEmpty(parts[..|parts| - 1])
    else parts
  }

  /** `indexOf` is the first occurrence. */
  lemma IndexOfFirst(s: string, c: char, k: nat)
    requires k < |s| && s[k] == c
    requires forall j :: 0 <= j < k ==> s[j] != c
    ensures IndexOf(s, c) == k
  {
  }

  /**
    `String.split` with a one-character separator and no limit: the pieces
    between separators, trailing empty pieces removed; a string without the
    separator (the empty string among them) yields itself as the one piece.
  */
  function Split(s: string, sep: char): (parts: seq<string>)
    ensures forall k :: 0 <= k < |parts| ==> sep !in parts[k]
  {
    SplitAllNoSep(s, sep);
    if sep !in s then [s] else DropTrailingEmpty(SplitAll(s, sep))
  }

  /** `split` takes apart what joining pieces without the separator, the last one non-empty, put together. */
  lemma SplitOfJoin(parts: seq<string>, sep: char)
    requires |parts| >= 1 && parts[|parts| - 1] != ""
    requires forall k :: 0 <= k < |parts| ==> sep !in parts[k]
    ensures Split(Join(parts, sep), sep) == parts
  {
    SplitAllJoin(parts, sep);
    if |parts| > 1 {
      var s := Join(parts, sep);
      assert s[|parts[0]|] == sep;
    }
  }

  /** Joining pieces that lack a character, with another separator, gives a text that lacks it. */
  lemma {:induction false} JoinWithout(parts: seq<string>, sep: char, c: char)
    requires |parts| >= 1 && sep != c
    requires forall k :: 0 <= k < |parts| ==> c !in parts[k]
    ensures c !in Join(parts, sep)
  {
    if |parts| > 1 {
      JoinWithout(parts[1..], sep, c);
    }
  }

  /** The joined text ends with the last piece. */
  lemma {:induction false} JoinEndsWithLast(parts: seq<string>, sep: char)
    requires |parts| >= 1
    ensures |Join(parts, sep)| >= |parts[|parts| - 1]|
  {
    if |parts| > 1 {
      JoinEndsWithLast(parts[1..], sep);
    }
  }

  /** Three pieces without the separator, the last one non-empty, joined by it, split back into the three. */
  lemma SplitThree(a: string, b: string, c: string, sep: char)
    requires sep !in a && sep !in b && sep !in c && c != ""
    ensures Split(a + [sep] + b + [sep] + c, sep) == [a, b, c]
  {
    var s := a + [sep] + b + [sep] + c;
    assert s == a + [sep] + (b + [sep] + c);
    SplitAllAfter(a, sep, b + [sep] + c);
    SplitAllAfter(b, sep, c);
    assert SplitAll(s, sep) == [a, b, c];
    assert s[|a|] == sep;
  }

  /** Splitting keeps every piece of the text, minus trailing empty ones. */
  lemma SplitPieces(s: string, sep: char)
    requires sep in s
    ensures Split(s, sep) + seq(|SplitAll(s, sep)| - |Split(s, sep)|, _ => "") == SplitAll(s, sep)
  {
    var all := SplitAll(s, sep);
    var r := Split(s, sep);
    var pad := seq(|all| - |r|, _ => "");
    assert forall k :: 0 <= k < |all| ==> (r + pad)[k] == all[k];
  }

  predicate AllDigits(s: string) {
    forall i :: 0 <= i < |s| ==> IsDigit(s[i])
  }

  /** The value of a string of decimal digits, most significant first. */
  function DigitsValue(s: string): nat
    requires AllDigits(s)
  {
    if |s| == 0 then 0 else DigitsValue(s[..|s| - 1]) * 10 + DigitValue(s[|s| - 1])
  }

  /**
    `Integer.parseInt`: an optional `+` or `-`, then at least one decimal
    digit, and a value inside the `int` range; anything else is the
    `NumberFormatException`, here `None`.
  */
  function ParseInt(s: string): (r: Option<int>)
    ensures r.Some? ==> InInt(r.value)
    ensures r.Some? ==> |s| > 0 && (IsDigit(s[0]) || s[0] == '-' || s[0] == '+')
  {
    if |s| == 0 then None
    else
      var body := if s[0] == '-' || s[0] == '+' then s[1..] else s;
      if |body| == 0 || !AllDigits(body) then None
      else
        var d: int := DigitsValue(body);
        var v := if s[0] == '-' then -d else d;
        if InInt(v) then Some(v) else None
  }

  /** Decimal digits of a natural number, without leading zeros. */
  function NatToString(n: nat): (s: string)
    ensures |s| >= 1 && AllDigits(s)
    ensures DigitsValue(s) == n
    ensures n > 0 ==> s[0] != '0'
  {
    if n < 10 then [DigitChar(n)]
    else
      var s := NatToString(n / 10) + [DigitChar(n % 10)];
      assert s[..|s| - 1] == NatToString(n / 10);
      s
  }

  /** `Integer.toString` (what `StringBuilder.append(int)` appends). */
  function IntToString(n: int): (s: string)
    ensures |s| >= 1
  {
    if n < 0 then "-" + NatToString(-n) else NatToString(n)
  }

  /** `Integer.parseInt` reads back what `Integer.toString` writes. */
  lemma ParseIntToString(n: int)
    requires InInt(n)
    ensures ParseInt(IntToString(n)) == Some(n)
  {
    var s := IntToString(n);
    if n < 0 {
      assert s[1..] == NatToString(-n);
    } else {
      assert IsDigit(s[0]);
    }
  }

  predicate OccursAt(s: string, pat: string, i: int) {
    0 <= i && i + |pat| <= |s| && s[i..i + |pat|] == pat
  }

  /**
    `String.replace(CharSequence, CharSequence)`: every occurrence of `pat`,
    scanning left to right without overlap, is replaced by `rep`.
  */
  function ReplaceAll(s: string, pat: string, rep: string): string
    requires |pat| > 0
    decreases |s|
  {
    if |s| < |pat| then s
    else if s[..|pat|] == pat then rep + ReplaceAll(s[|pat|..], pat, rep)
    else [s[0]] + ReplaceAll(s[1..], pat, rep)
  }

  /** A string in which `pat` does not occur is left as it is. */
  lemma {:induction false} ReplaceAllAbsent(s: string, pat: string, rep: string)
    requires |pat| > 0
    requires forall i :: !OccursAt(s, pat, i)
    ensures ReplaceAll(s, pat, rep) == s
    decreases |s|
  {
    if |s| >= |pat| {
      assert !OccursAt(s, pat, 0);
      forall i ensures !OccursAt(s[1..], pat, i) {
        if OccursAt(s[1..], pat, i) {
          assert s[1..][i..i + |pat|] == s[i + 1..i + 1 + |pat|];
          assert OccursAt(s, pat, i + 1);
        }
      }
      ReplaceAllAbsent(s[1..], pat, rep);
    }
  }

  /** Replacing a placeholder that occurs once, at the front, prefixes `rep`. */
  lemma ReplaceAllAtFront(pat: string, rep: string, rest: string)
    requires |pat| > 0
    requires forall i :: !OccursAt(rest, pat, i)
    ensures ReplaceAll(pat + rest, pat, rep) == rep + rest
  {
    assert (pat + rest)[..|pat|] == pat;
    assert (pat + rest)[|pat|..] == rest;
    ReplaceAllAbsent(rest, pat, rep);
  }
}
