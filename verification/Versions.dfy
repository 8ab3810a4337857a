/**
 Stable versions X.Y.Z (sections 2 and 11 of Semantic Versioning 2.0.0) as text, and the
 version a commit asks for (items 2, 3 and 11 to 13 of Conventional Commits 1.0.0, with
 the repository's own rule for major version 0).
 */
module Versions {
  import opened Git

  /** `Number.MAX_SAFE_INTEGER` */
  const MAX_SAFE := 9007199254740991

  datatype Version = Version(major: nat, minor: nat, patch: nat) {
    predicate Safe() {
      major < MAX_SAFE && minor < MAX_SAFE && patch < MAX_SAFE
    }
  }

  /** The subtraction chain of `compareStableVersions`. */
  function Compare(a: Version, b: Version): int {
    if a.major != b.major then a.major - b.major
    else if a.minor != b.minor then a.minor - b.minor
    else a.patch - b.patch
  }

  predicate Less(a: Version, b: Version) {
    Compare(a, b) < 0
  }

  // ---------------------------------------------------------------- decimal text

  predicate IsDigit(c: char) {
    '0' <= c <= '9'
  }

  function DigitValue(c: char): nat
    requires IsDigit(c)
  {
    c as int - '0' as int
  }

  function DigitChar(d: nat): (c: char)
    requires d < 10
    ensures IsDigit(c) && DigitValue(c) == d
  {
    ('0' as int + d) as char
  }

  /** `(0|[1-9]\d*)` */
  predicate Numeral(s: string) {
    && s != []
    && (forall i :: 0 <= i < |s| ==> IsDigit(s[i]))
    && (s[0] == '0' ==> |s| == 1)
  }

  function Value(s: string): nat
    requires forall i :: 0 <= i < |s| ==> IsDigit(s[i])
  {
    if s == [] then 0 else 10 * Value(s[..|s| - 1]) + DigitValue(s[|s| - 1])
  }

  function Digits(n: nat): string {
    if n < 10 then [DigitChar(n)] else Digits(n / 10) + [DigitChar(n % 10)]
  }

  lemma {:induction false} DigitsAreCanonical(n: nat)
    ensures Numeral(Digits(n)) && Value(Digits(n)) == n
    ensures n > 0 ==> Digits(n)[0] != '0'
  {
    if n >= 10 {
      DigitsAreCanonical(n / 10);
      assert Digits(n)[..|Digits(n)| - 1] == Digits(n / 10);
    } else {
      assert Digits(n)[..0] == [];
    }
  }

  lemma {:induction false} NumeralsAreDigits(s: string)
    requires Numeral(s)
    ensures Digits(Value(s)) == s
    ensures |s| > 1 ==> Value(s) >= 10
    ensures s[0] != '0' ==> Value(s) > 0
  {
    var front := s[..|s| - 1];
    if front == [] {
      assert Value(front) == 0;
    } else {
      NumeralsAreDigits(front);
      assert Value(s) / 10 == Value(front) && Value(s) % 10 == DigitValue(s[|s| - 1]);
    }
  }

  // ---------------------------------------------------------------- X.Y.Z

  /** `text.split(".")` */
  function Split(s: string): (parts: seq<string>)
    ensures |parts| > 0
  {
    if s == [] then [[]]
    else
      var rest := Split(s[1..]);
      if s[0] == '.' then [[]] + rest else [[s[0]] + rest[0]] + rest[1..]
  }

  function Print(v: Version): string {
    Digits(v.major) + "." + Digits(v.minor) + "." + Digits(v.patch)
  }

  /** The text has the form X.Y.Z, with counters of any size. */
  predicate Stable(s: string) {
    var parts := Split(s);
    |parts| == 3 && Numeral(parts[0]) && Numeral(parts[1]) && Numeral(parts[2])
  }

  /** `stableVersionParts`: None where it throws. */
  function Parse(s: string): Option<Version> {
    var parts := Split(s);
    if Stable(s) then
      var v := Version(Value(parts[0]), Value(parts[1]), Value(parts[2]));
      if v.Safe() then Some(v) else None
    else None
  }

  lemma {:induction false} SplitJoins(head: string, tail: string)
    requires forall i :: 0 <= i < |head| ==> head[i] != '.'
    ensures Split(head + "." + tail) == [head] + Split(tail)
  {
    var s := head + "." + tail;
    if head == [] {
      assert s[1..] == tail;
    } else {
      SplitJoins(head[1..], tail);
      assert s[1..] == head[1..] + "." + tail;
      assert [head[0]] + head[1..] == head;
    }
  }

  lemma {:induction false} SplitOne(s: string)
    requires forall i :: 0 <= i < |s| ==> s[i] != '.'
    ensures Split(s) == [s]
  {
    if s != [] {
      SplitOne(s[1..]);
      assert [s[0]] + s[1..] == s;
    }
  }

  function Joined(parts: seq<string>): string
    requires |parts| > 0
  {
    if |parts| == 1 then parts[0] else parts[0] + "." + Joined(parts[1..])
  }

  lemma {:induction false} SplitIsInvertible(s: string)
    ensures Joined(Split(s)) == s
  {
    if s != [] {
      var rest := Split(s[1..]);
      SplitIsInvertible(s[1..]);
      if s[0] == '.' {
        assert Split(s)[1..] == rest;
        assert s == [] + "." + s[1..];
      } else {
        assert Split(s)[1..] == rest[1..];
        assert s == [s[0]] + s[1..];
      }
    }
  }

  /** Printing then parsing is the identity below the safe-integer bound, and fails at or above it. */
  lemma PrintThenParse(v: Version)
    ensures Parse(Print(v)) == if v.Safe() then Some(v) else None
  {
    DigitsAreCanonical(v.major);
    DigitsAreCanonical(v.minor);
    DigitsAreCanonical(v.patch);
    SplitJoins(Digits(v.major), Digits(v.minor) + "." + Digits(v.patch));
    SplitJoins(Digits(v.minor), Digits(v.patch));
    SplitOne(Digits(v.patch));
    assert Print(v) == Digits(v.major) + "." + (Digits(v.minor) + "." + Digits(v.patch));
    assert Split(Print(v)) == [Digits(v.major), Digits(v.minor), Digits(v.patch)];
  }

  /** Parsing then printing is the identity: only canonical text is accepted. */
  lemma ParseThenPrint(s: string)
    requires Parse(s).Some?
    ensures Print(Parse(s).value) == s
  {
    var parts := Split(s);
    NumeralsAreDigits(parts[0]);
    NumeralsAreDigits(parts[1]);
    NumeralsAreDigits(parts[2]);
    SplitIsInvertible(s);
    assert Joined(parts[1..][1..]) == parts[2];
    assert Joined(parts[1..]) == parts[1] + "." + parts[2];
  }

  /** `compareStableVersions` on text: None where it throws. */
  function CompareText(left: string, right: string): Option<int> {
    if Parse(left).Some? && Parse(right).Some? then Some(Compare(Parse(left).value, Parse(right).value)) else None
  }

  /** Comparison is a total order on accepted text, and only identical text compares equal. */
  lemma TextOrderIsTotal(a: string, b: string, c: string)
    requires Parse(a).Some? && Parse(b).Some? && Parse(c).Some?
    ensures CompareText(a, b).value == 0 <==> a == b
    ensures CompareText(a, b).value < 0 <==> CompareText(b, a).value > 0
    ensures CompareText(a, b).value <= 0 && CompareText(b, c).value <= 0 ==> CompareText(a, c).value <= 0
    ensures CompareText(a, b).value <= 0 && CompareText(b, c).value < 0 ==> CompareText(a, c).value < 0
  {
    ParseThenPrint(a);
    ParseThenPrint(b);
  }

  // ---------------------------------------------------------------- the version a commit asks for

  datatype Kind = Feature | Fix | Other

  /** What `calculateConventionalVersion` reads in a commit message. */
  datatype Intent = Intent(releaseAs: Option<string>, breaking: bool, kind: Kind)

  datatype Calculated = Throws | NoRelease | Next(version: string)

  function Calculate(current: string, intent: Intent): Calculated {
    if Parse(current).None? then Throws else
    var v := Parse(current).value;
    if intent.releaseAs.Some? then
      var order := CompareText(intent.releaseAs.value, current);
      if order.None? || order.value <= 0 then Throws else Next(intent.releaseAs.value)
    else if intent.breaking then
      Next(Print(if v.major == 0 then Version(0, v.minor + 1, 0) else Version(v.major + 1, 0, 0)))
    else if intent.kind == Feature then
      Next(Print(if v.major == 0 then Version(0, v.minor, v.patch + 1) else Version(v.major, v.minor + 1, 0)))
    else if intent.kind == Fix then
      Next(Print(Version(v.major, v.minor, v.patch + 1)))
    else NoRelease
  }

  /** The counters down to the one a change must raise. Before 1.0.0 every promise is one counter weaker. */
  datatype Level = MajorLevel | MinorLevel | PatchLevel

  function Promise(was: Version, intent: Intent): Level {
    if intent.breaking then (if was.major == 0 then MinorLevel else MajorLevel)
    else if intent.kind == Feature && was.major > 0 then MinorLevel
    else PatchLevel
  }

  /** `v` is above every version that agrees with `was` down to the counter. */
  predicate Raises(was: Version, v: Version, level: Level) {
    || v.major > was.major
    || (v.major == was.major && level != MajorLevel &&
        (v.minor > was.minor || (v.minor == was.minor && level == PatchLevel && v.patch > was.patch)))
  }

  /** What the next version is: the requested one, or one step of the promised counter with the lower ones reset. */
  predicate Covers(was: Version, next: Version, intent: Intent) {
    if intent.releaseAs.Some? then
      && intent.releaseAs.value == Print(next)
      && (next.major > was.major || (next.major == was.major && (next.minor > was.minor || (next.minor == was.minor && next.patch > was.patch))))
    else match Promise(was, intent)
      case MajorLevel => next.major == was.major + 1 && next.minor == 0 && next.patch == 0
      case MinorLevel => next.major == was.major && next.minor == was.minor + 1 && next.patch == 0
      case PatchLevel => next.major == was.major && next.minor == was.minor && next.patch == was.patch + 1
  }

  /** A version that is not requested is the smallest one that keeps the promise. */
  lemma CoveringIsLeast(was: Version, next: Version, intent: Intent, other: Version)
    requires Covers(was, next, intent) && intent.releaseAs.None?
    ensures Raises(was, next, Promise(was, intent))
    ensures Raises(was, other, Promise(was, intent)) ==> !Less(other, next)
  {
  }

  /** When a commit asks for a release at all, and which requests are refused. */
  lemma CalculationDecides(current: string, intent: Intent)
    ensures Calculate(current, intent).Throws? <==>
              || Parse(current).None?
              || (intent.releaseAs.Some? && (Parse(intent.releaseAs.value).None?
                                             || !Less(Parse(current).value, Parse(intent.releaseAs.value).value)))
    ensures Calculate(current, intent).NoRelease? <==>
              Parse(current).Some? && intent.releaseAs.None? && !intent.breaking && intent.kind == Other
  {
    hide Parse;
    if Parse(current).Some? && intent.releaseAs.Some? && Parse(intent.releaseAs.value).Some? {
      TextOrderIsTotal(intent.releaseAs.value, current, current);
    }
  }

  /**
   Every returned version is the canonical text of a strictly greater version: the requested
   one, or exactly the next one for the change. It can be read back unless a counter has
   reached the safe-integer bound.
   */
  lemma CalculatedVersionIncreases(current: string, intent: Intent) returns (next: Version)
    requires Calculate(current, intent).Next?
    ensures Parse(current).Some? && Covers(Parse(current).value, next, intent) && Less(Parse(current).value, next)
    ensures Calculate(current, intent).version == Print(next)
    ensures Parse(Calculate(current, intent).version) == if next.Safe() then Some(next) else None
    ensures intent.releaseAs.Some? ==> next.Safe()
  {
    var v := Parse(current).value;
    if intent.releaseAs.Some? {
      next := Parse(intent.releaseAs.value).value;
      ParseThenPrint(intent.releaseAs.value);
    } else if intent.breaking {
      next := if v.major == 0 then Version(0, v.minor + 1, 0) else Version(v.major + 1, 0, 0);
    } else if intent.kind == Feature {
      next := if v.major == 0 then Version(0, v.minor, v.patch + 1) else Version(v.major, v.minor + 1, 0);
    } else {
      next := Version(v.major, v.minor, v.patch + 1);
    }
    PrintThenParse(next);
  }
}
