/**
  The update checker's version comparison: dot-separated version numbers
  of one to four parts are compared part by part as integers, and a version
  with more parts beats one that agrees with it on all of the other's
  parts. Malformed input compares as 0, the same value as "equal".
*/
module Versions {
  import opened JavaLang

  const LESSER: int := -1
  const EQUALS: int := 0
  const GREATER: int := 1
  const INVALID_ARGS: int := 0

  /** The version of this build, the one update checks compare against. */
  const CURRENT_VERSION: string := "1.0.0"

  /** `\d+`: one or more ASCII digits. */
  predicate IsDigitGroup(s: string) {
    |s| >= 1 && AllDigits(s)
  }

  /**
    The parts a version number is made of: one to four of them, each a
    group of digits except the last, which may also be `*`.
  */
  predicate ValidParts(parts: seq<string>) {
    1 <= |parts| <= 4
    && (forall k :: 0 <= k < |parts| - 1 ==> IsDigitGroup(parts[k]))
    && (IsDigitGroup(parts[|parts| - 1]) || parts[|parts| - 1] == "*")
  }

  /**
    `isVersionNumber`: the whole text matches
    `(\d+\.)?(\d+\.)?(\d+\.)?(\*|\d+)`. Neither a digit nor `*` is a dot,
    so the dots of a match are exactly the dots of the text and its parts
    are the pieces between them.
  */
  predicate IsVersionNumber(v: string) {
    ValidParts(SplitAll(v, '.'))
  }

  lemma PartHasNoDot(s: string)
    requires IsDigitGroup(s) || s == "*"
    ensures '.' !in s
  {
  }

  /** A version number is exactly valid parts joined with dots. */
  lemma VersionNumberIsJoin(v: string)
    ensures IsVersionNumber(v) <==> exists parts :: ValidParts(parts) && Join(parts, '.') == v
  {
    if IsVersionNumber(v) {
      JoinSplitAll(v, '.');
      assert ValidParts(SplitAll(v, '.')) && Join(SplitAll(v, '.'), '.') == v;
    }
    if exists parts :: ValidParts(parts) && Join(parts, '.') == v {
      var parts :| ValidParts(parts) && Join(parts, '.') == v;
      forall k | 0 <= k < |parts|
        ensures '.' !in parts[k]
      {
        PartHasNoDot(parts[k]);
      }
      SplitAllJoin(parts, '.');
    }
  }

  /** `split("\\.")` of a version number gives its parts: its last part is never empty. */
  lemma SplitVersion(v: string)
    requires IsVersionNumber(v)
    ensures Split(v, '.') == SplitAll(v, '.')
  {
    if '.' !in v {
      assert IndexOf(v, '.') == -1;
    }
  }

  /**
    The loop of `compareVersions` from part `i` on: equal leading parts
    are skipped; the first pair that differs decides; a part that does not
    parse as an `int` makes the result `INVALID_ARGS`; when one list runs
    out first, the longer one is the greater.
  */
  function PartsFrom(a: seq<string>, b: seq<string>, i: nat): int
    requires i <= |a| && i <= |b|
    decreases |a| - i
  {
    if i < |a| && i < |b| then
      var x, y := ParseInt(a[i]), ParseInt(b[i]);
      if x.None? || y.None? then INVALID_ARGS
      else if x.value > y.value then GREATER
      else if x.value < y.value then LESSER
      else PartsFrom(a, b, i + 1)
    else if i < |a| then GREATER
    else if i < |b| then LESSER
    else EQUALS
  }

  /** `compareVersions`: `INVALID_ARGS` unless both are version numbers, else the part-by-part comparison. */
  function Compare(versionA: string, versionB: string): (r: int)
    ensures r == LESSER || r == EQUALS || r == GREATER
  {
    if !IsVersionNumber(versionA) || !IsVersionNumber(versionB) then INVALID_ARGS
    else
      var a, b := Split(versionA, '.'), Split(versionB, '.');
      PartsFromRange(a, b, 0);
      PartsFrom(a, b, 0)
  }

  lemma {:induction false} PartsFromRange(a: seq<string>, b: seq<string>, i: nat)
    requires i <= |a| && i <= |b|
    ensures PartsFrom(a, b, i) in {LESSER, EQUALS, GREATER}
    decreases |a| - i
  {
    if i < |a| && i < |b| {
      PartsFromRange(a, b, i + 1);
    }
  }

  /** The comparison loop, run over the parts as `split` returns them. */
  method CompareVersions(versionA: string, versionB: string) returns (r: int)
    ensures r == Compare(versionA, versionB)
  {
    if !IsVersionNumber(versionA) || !IsVersionNumber(versionB) {
      return INVALID_ARGS;
    }
    var a := Split(versionA, '.');
    var b := Split(versionB, '.');
    var index := 0;
    while index < |a| && index < |b|
      invariant index <= |a| && index <= |b|
      invariant PartsFrom(a, b, index) == PartsFrom(a, b, 0)
      decreases |a| - index
    {
      var i := ParseInt(a[index]);
      if i.None? {
        return INVALID_ARGS;
      }
      var j := ParseInt(b[index]);
      if j.None? {
        return INVALID_ARGS;
      }
      if i.value > j.value {
        return GREATER;
      } else if i.value < j.value {
        return LESSER;
      }
      index := index + 1;
    }
    if index < |a| && index == |b| {
      return GREATER;
    } else if index == |a| && index < |b| {
      return LESSER;
    } else {
      return EQUALS;
    }
  }

  // ---------------------------------------------------------------- properties

  lemma {:induction false} PartsFromAntisymmetric(a: seq<string>, b: seq<string>, i: nat)
    requires i <= |a| && i <= |b|
    ensures PartsFrom(a, b, i) == -PartsFrom(b, a, i)
    decreases |a| - i
  {
    if i < |a| && i < |b| {
      PartsFromAntisymmetric(a, b, i + 1);
    }
  }

  /** Swapping the arguments negates the result, `INVALID_ARGS` included. */
  lemma Antisymmetric(versionA: string, versionB: string)
    ensures Compare(versionA, versionB) == -Compare(versionB, versionA)
  {
    if IsVersionNumber(versionA) && IsVersionNumber(versionB) {
      PartsFromAntisymmetric(Split(versionA, '.'), Split(versionB, '.'), 0);
    }
  }

  lemma {:induction false} PartsFromSame(a: seq<string>, i: nat)
    requires i <= |a|
    ensures PartsFrom(a, a, i) == EQUALS
    decreases |a| - i
  {
    if i < |a| {
      PartsFromSame(a, i + 1);
    }
  }

  /** Every text compares equal to itself. */
  lemma Reflexive(version: string)
    ensures Compare(version, version) == EQUALS
  {
    if IsVersionNumber(version) {
      PartsFromSame(Split(version, '.'), 0);
    }
  }

  /** Every part parses, to the matching number of `xs`. */
  predicate ParsedAs(parts: seq<string>, xs: seq<int>) {
    |xs| == |parts| && forall k :: 0 <= k < |parts| ==> ParseInt(parts[k]) == Some(xs[k])
  }

  /**
    Lexicographic order on integer sequences, a proper prefix being the
    lesser: the reference the part-by-part loop is measured against.
  */
  function Lex(xs: seq<int>, ys: seq<int>): int {
    if xs == [] && ys == [] then EQUALS
    else if xs == [] then LESSER
    else if ys == [] then GREATER
    else if xs[0] > ys[0] then GREATER
    else if xs[0] < ys[0] then LESSER
    else Lex(xs[1..], ys[1..])
  }

  lemma {:induction false} PartsFromLex(a: seq<string>, b: seq<string>, xs: seq<int>, ys: seq<int>, i: nat)
    requires i <= |a| && i <= |b|
    requires ParsedAs(a, xs) && ParsedAs(b, ys)
    ensures PartsFrom(a, b, i) == Lex(xs[i..], ys[i..])
    decreases |a| - i
  {
    if i < |a| && i < |b| {
      PartsFromLex(a, b, xs, ys, i + 1);
      assert xs[i..][1..] == xs[i + 1..] && ys[i..][1..] == ys[i + 1..];
    }
  }

  /**
    When every part parses, `compareVersions` is the lexicographic order of
    the parts' numeric values: "1.10" is greater than "1.9", and "1" is
    less than "1.0".
  */
  lemma CompareIsLexicographic(versionA: string, versionB: string, xs: seq<int>, ys: seq<int>)
    requires IsVersionNumber(versionA) && IsVersionNumber(versionB)
    requires ParsedAs(Split(versionA, '.'), xs) && ParsedAs(Split(versionB, '.'), ys)
    ensures Compare(versionA, versionB) == Lex(xs, ys)
  {
    PartsFromLex(Split(versionA, '.'), Split(versionB, '.'), xs, ys, 0);
    assert xs[0..] == xs && ys[0..] == ys;
  }

  /** A proper extension is greater: extra parts win even when they are 0. */
  lemma {:induction false} LongerIsGreater(xs: seq<int>, ys: seq<int>)
    requires ys != []
    ensures Lex(xs + ys, xs) == GREATER
  {
    if xs != [] {
      assert (xs + ys)[1..] == xs[1..] + ys;
      LongerIsGreater(xs[1..], ys);
    }
  }

  /** A text that is not a version number compares as `INVALID_ARGS` with anything. */
  lemma InvalidIsZero(versionA: string, versionB: string)
    requires !IsVersionNumber(versionA) || !IsVersionNumber(versionB)
    ensures Compare(versionA, versionB) == INVALID_ARGS
  {
  }

  /** `isVersionNewerThanCurrent`. */
  predicate IsVersionNewerThanCurrent(version: string) {
    Compare(version, CURRENT_VERSION) == GREATER
  }

  /** `isVersionOlderThanCurrent`. */
  predicate IsVersionOlderThanCurrent(version: string) {
    Compare(version, CURRENT_VERSION) == LESSER
  }

  /**
    No version is both newer and older than the current one; the current
    one is neither; and "newer" is "the current one is older than it".
  */
  lemma NewerOlderExclusive(version: string)
    ensures !(IsVersionNewerThanCurrent(version) && IsVersionOlderThanCurrent(version))
    ensures IsVersionNewerThanCurrent(version) <==> Compare(CURRENT_VERSION, version) == LESSER
    ensures version == CURRENT_VERSION ==> !IsVersionNewerThanCurrent(version) && !IsVersionOlderThanCurrent(version)
  {
    Antisymmetric(version, CURRENT_VERSION);
    Reflexive(CURRENT_VERSION);
  }

  // ---------------------------------------------------------------- examples

  /** Valid parts joined with dots make a version number that `split` takes back apart. */
  lemma VersionOfParts(parts: seq<string>)
    requires ValidParts(parts)
    ensures IsVersionNumber(Join(parts, '.'))
    ensures Split(Join(parts, '.'), '.') == parts
  {
    forall k | 0 <= k < |parts|
      ensures '.' !in parts[k]
    {
      PartHasNoDot(parts[k]);
    }
    SplitAllJoin(parts, '.');
    SplitVersion(Join(parts, '.'));
  }

  /** The parts of a version number written out, and what comparing it means. */
  lemma VersionText(v: string, parts: seq<string>)
    requires ValidParts(parts) && Join(parts, '.') == v
    ensures IsVersionNumber(v) && Split(v, '.') == parts
  {
    VersionOfParts(parts);
  }

  lemma CompareTexts(va: string, vb: string, a: seq<string>, b: seq<string>)
    requires ValidParts(a) && Join(a, '.') == va
    requires ValidParts(b) && Join(b, '.') == vb
    ensures Compare(va, vb) == PartsFrom(a, b, 0)
  {
    VersionText(va, a);
    VersionText(vb, b);
  }

  lemma SmallNumbers()
    ensures IsDigitGroup("0") && ParseInt("0") == Some(0)
    ensures IsDigitGroup("1") && ParseInt("1") == Some(1)
    ensures IsDigitGroup("2") && ParseInt("2") == Some(2)
    ensures IsDigitGroup("9") && ParseInt("9") == Some(9)
  {
  }

  lemma Ten()
    ensures IsDigitGroup("10") && ParseInt("10") == Some(10)
  {
    assert "10"[..1] == "1";
    assert DigitsValue("1") == 1;
    assert DigitsValue("10") == 10;
  }

  /** Parts compare as numbers, not as text: 1.10 is after 1.9. */
  lemma TenAfterNine()
    ensures Compare("1.10", "1.9") == GREATER
  {
    var a, b := ["1", "10"], ["1", "9"];
    SmallNumbers();
    Ten();
    CompareTexts("1.10", "1.9", a, b);
    assert PartsFrom(a, b, 1) == GREATER;
  }

  /** An extra part wins even when it is 0: 1.0 is after 1. */
  lemma ExtraZeroPart()
    ensures Compare("1", "1.0") == LESSER
  {
    var a, b := ["1"], ["1", "0"];
    SmallNumbers();
    CompareTexts("1", "1.0", a, b);
    assert PartsFrom(a, b, 1) == LESSER;
  }

  /** A `*` is only read when the loop reaches it, and then it makes the result `INVALID_ARGS`. */
  lemma StarPart()
    ensures Compare("1.*", "1.2") == INVALID_ARGS
    ensures Compare("1.*", "1") == GREATER
  {
    var a, b, c := ["1", "*"], ["1", "2"], ["1"];
    SmallNumbers();
    assert ParseInt("*") == None;
    CompareTexts("1.*", "1.2", a, b);
    assert PartsFrom(a, b, 1) == INVALID_ARGS;
    CompareTexts("1.*", "1", a, c);
    assert PartsFrom(a, c, 1) == GREATER;
  }

  /** Against the current version 1.0.0, 1.0.1 is newer. */
  lemma NewerPatch()
    ensures IsVersionNewerThanCurrent("1.0.1")
  {
    var a, b := ["1", "0", "1"], ["1", "0", "0"];
    SmallNumbers();
    assert ValidParts(a) && Join(a, '.') == "1.0.1";
    assert ValidParts(b) && Join(b, '.') == CURRENT_VERSION;
    CompareTexts("1.0.1", CURRENT_VERSION, a, b);
    assert PartsFrom(a, b, 2) == GREATER;
    assert PartsFrom(a, b, 1) == GREATER;
    assert PartsFrom(a, b, 0) == GREATER;
  }

  /** Against the current version 1.0.0, 1.0 is older. */
  lemma OlderShorter()
    ensures IsVersionOlderThanCurrent("1.0")
  {
    var a, b := ["1", "0"], ["1", "0", "0"];
    SmallNumbers();
    assert ValidParts(a) && Join(a, '.') == "1.0";
    assert ValidParts(b) && Join(b, '.') == CURRENT_VERSION;
    CompareTexts("1.0", CURRENT_VERSION, a, b);
    assert PartsFrom(a, b, 2) == LESSER;
    assert PartsFrom(a, b, 1) == LESSER;
    assert PartsFrom(a, b, 0) == LESSER;
  }

  /**
    A part that does not parse (a `*`, or digits past the `int` range) makes
    the result `INVALID_ARGS` once the loop reaches it.
  */
  lemma {:induction false} UnparsableReached(a: seq<string>, b: seq<string>, i: nat, j: nat)
    requires j <= i < |a| && i < |b|
    requires forall k :: j <= k < i ==> ParseInt(a[k]).Some? && ParseInt(a[k]) == ParseInt(b[k])
    requires ParseInt(a[i]).None? || ParseInt(b[i]).None?
    ensures PartsFrom(a, b, j) == INVALID_ARGS
    decreases i - j
  {
    if j < i {
      UnparsableReached(a, b, i, j + 1);
    }
  }
}
