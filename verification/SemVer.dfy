/** Semantic version text and precedence (`semver.py`), on ASCII text. */
module SemVer {
  import opened Prelude

  /** Build metadata is kept for printing but takes no part in equality or precedence. */
  datatype Version = Version(major: nat, minor: nat, patch: nat, prerelease: seq<string>, build: seq<string>)

  // ---------------------------------------------------------------- character classes

  predicate IsDigit(c: char) { '0' <= c <= '9' }

  predicate IsIdentifierChar(c: char) {
    IsDigit(c) || 'a' <= c <= 'z' || 'A' <= c <= 'Z' || c == '-'
  }

  predicate AllDigits(s: string) { s != [] && forall i :: 0 <= i < |s| ==> IsDigit(s[i]) }

  /** `0|[1-9]\d*`: a decimal number without leading zeros. */
  predicate IsNumeral(s: string) { AllDigits(s) && (s[0] != '0' || |s| == 1) }

  /** One dot-separated build identifier. */
  predicate IsBuildIdentifier(s: string) {
    s != [] && forall i :: 0 <= i < |s| ==> IsIdentifierChar(s[i])
  }

  /** One pre-release identifier: a numeral, or letters/digits/hyphens with some non-digit. */
  predicate IsPrereleaseIdentifier(s: string) {
    IsBuildIdentifier(s) && (AllDigits(s) ==> IsNumeral(s))
  }

  predicate Identifiers(ids: seq<string>) {
    forall i :: 0 <= i < |ids| ==> IsPrereleaseIdentifier(ids[i])
  }

  predicate BuildIdentifiers(ids: seq<string>) {
    forall i :: 0 <= i < |ids| ==> IsBuildIdentifier(ids[i])
  }

  /** The versions `parse` can return. */
  predicate Valid(v: Version) {
    Identifiers(v.prerelease) && BuildIdentifiers(v.build)
  }

  /** What the program handles are parsed versions. */
  type Parsed = v: Version | Valid(v) witness Version(0, 0, 0, [], [])

  // ---------------------------------------------------------------- decimal numbers

  function DigitChar(d: nat): (c: char)
    requires d < 10
    ensures IsDigit(c) && c as int - '0' as int == d
  {
    ('0' as int + d) as char
  }

  function PrintNat(n: nat): (s: string)
    ensures IsNumeral(s) && (s[0] == '0' ==> n == 0)
  {
    if n < 10 then [DigitChar(n)] else PrintNat(n / 10) + [DigitChar(n % 10)]
  }

  function ParseNat(s: string): nat
    requires forall i :: 0 <= i < |s| ==> IsDigit(s[i])
  {
    if s == [] then 0
    else
      assert IsDigit(s[|s| - 1]);
      ParseNat(s[..|s| - 1]) * 10 + (s[|s| - 1] as int - '0' as int)
  }

  lemma {:induction false} ParsePrintNat(n: nat)
    ensures ParseNat(PrintNat(n)) == n
  {
    if n >= 10 {
      ParsePrintNat(n / 10);
      var s := PrintNat(n);
      assert s[..|s| - 1] == PrintNat(n / 10);
    } else {
      assert PrintNat(n)[..0] == [];
    }
  }

  lemma {:induction false} PrintParseNat(s: string)
    requires IsNumeral(s)
    ensures PrintNat(ParseNat(s)) == s
    ensures s[0] != '0' ==> ParseNat(s) > 0
  {
    var head, last := s[..|s| - 1], s[|s| - 1];
    assert s == head + [last];
    if |s| == 1 {
      assert head == [];
    } else {
      PrintParseNat(head);
    }
  }

  // ---------------------------------------------------------------- cutting and joining

  /** Text before the first `sep`, and the text after it if there is one. */
  function CutFirst(s: string, sep: char): (string, Option<string>) {
    if s == [] then ([], None)
    else if s[0] == sep then ([], Some(s[1..]))
    else var (head, tail) := CutFirst(s[1..], sep); ([s[0]] + head, tail)
  }

  function Uncut(head: string, tail: Option<string>, sep: char): string {
    if tail.None? then head else head + [sep] + tail.value
  }

  lemma {:induction false} UncutCut(s: string, sep: char)
    ensures var (head, tail) := CutFirst(s, sep); Uncut(head, tail, sep) == s && sep !in head
  {
    if s != [] && s[0] != sep {
      UncutCut(s[1..], sep);
    }
  }

  lemma {:induction false} CutUncut(head: string, tail: Option<string>, sep: char)
    requires sep !in head
    ensures CutFirst(Uncut(head, tail, sep), sep) == (head, tail)
  {
    var s := Uncut(head, tail, sep);
    if head == [] {
      if tail.Some? { assert s == [sep] + tail.value; }
    } else {
      CutUncut(head[1..], tail, sep);
      assert s[1..] == Uncut(head[1..], tail, sep);
      assert s[0] == head[0] != sep && head == [head[0]] + head[1..];
    }
  }

  function Split(s: string): (parts: seq<string>)
    ensures parts != []
    decreases |s|
  {
    var (head, tail) := CutFirst(s, '.');
    CutShrinks(s, '.');
    if tail.None? then [head] else [head] + Split(tail.value)
  }

  lemma {:induction false} CutShrinks(s: string, sep: char)
    ensures var (_, tail) := CutFirst(s, sep); tail.Some? ==> |tail.value| < |s|
  {
    if s != [] && s[0] != sep { CutShrinks(s[1..], sep); }
  }

  function Join(parts: seq<string>): string {
    if parts == [] then [] else if |parts| == 1 then parts[0] else parts[0] + ['.'] + Join(parts[1..])
  }

  predicate DotFree(parts: seq<string>) { forall i :: 0 <= i < |parts| ==> '.' !in parts[i] }

  lemma {:induction false} SplitJoin(parts: seq<string>)
    requires parts != [] && DotFree(parts)
    ensures Split(Join(parts)) == parts
  {
    if |parts| == 1 {
      CutUncut(parts[0], None, '.');
    } else {
      SplitJoin(parts[1..]);
      CutUncut(parts[0], Some(Join(parts[1..])), '.');
      assert Join(parts) == Uncut(parts[0], Some(Join(parts[1..])), '.');
    }
  }

  lemma {:induction false} JoinSplit(s: string)
    ensures Join(Split(s)) == s
    decreases |s|
  {
    UncutCut(s, '.');
    CutShrinks(s, '.');
    var (head, tail) := CutFirst(s, '.');
    if tail.Some? {
      JoinSplit(tail.value);
      assert Split(s)[1..] == Split(tail.value);
    }
  }

  // ---------------------------------------------------------------- parse and print

  /** `SemVer.parse`; None stands for `SemVerError`. */
  function Parse(s: string): Option<Version> {
    var (body, build) := CutFirst(s, '+');
    var (core, prerelease) := CutFirst(body, '-');
    var numbers := Split(core);
    var pre := if prerelease.Some? then Split(prerelease.value) else [];
    var meta := if build.Some? then Split(build.value) else [];
    if && |numbers| == 3
       && IsNumeral(numbers[0]) && IsNumeral(numbers[1]) && IsNumeral(numbers[2])
       && Identifiers(pre) && BuildIdentifiers(meta)
    then
      Some(Version(ParseNat(numbers[0]), ParseNat(numbers[1]), ParseNat(numbers[2]), pre, meta))
    else None
  }

  /** `SemVer.__str__`. */
  function Print(v: Version): string {
    var core := PrintNat(v.major) + ['.'] + PrintNat(v.minor) + ['.'] + PrintNat(v.patch);
    var body := if v.prerelease == [] then core else core + ['-'] + Join(v.prerelease);
    if v.build == [] then body else body + ['+'] + Join(v.build)
  }

  lemma {:induction false} JoinChars(parts: seq<string>, c: char)
    requires c in Join(parts)
    ensures c == '.' || exists i :: 0 <= i < |parts| && c in parts[i]
  {
    if |parts| > 1 && c !in parts[0] && c != '.' {
      assert c in Join(parts[1..]);
      JoinChars(parts[1..], c);
      var i :| 0 <= i < |parts| - 1 && c in parts[1..][i];
      assert c in parts[i + 1];
    }
  }

  lemma IdentifiersAvoid(parts: seq<string>)
    requires BuildIdentifiers(parts)
    ensures DotFree(parts) && '+' !in Join(parts)
  {
    if '+' in Join(parts) { JoinChars(parts, '+'); }
  }

  function CoreText(v: Version): string {
    Join([PrintNat(v.major), PrintNat(v.minor), PrintNat(v.patch)])
  }

  function BodyText(v: Version): string {
    Uncut(CoreText(v), if v.prerelease == [] then None else Some(Join(v.prerelease)), '-')
  }

  lemma PrintAsCuts(v: Version)
    ensures CoreText(v) == PrintNat(v.major) + ['.'] + PrintNat(v.minor) + ['.'] + PrintNat(v.patch)
    ensures Print(v) == Uncut(BodyText(v), if v.build == [] then None else Some(Join(v.build)), '+')
  {
    var a, b, c := PrintNat(v.major), PrintNat(v.minor), PrintNat(v.patch);
    assert [a, b, c][1..] == [b, c] && [b, c][1..] == [c];
    assert Join([b, c]) == b + ['.'] + c;
    assert Join([a, b, c]) == a + ['.'] + (b + ['.'] + c) == a + ['.'] + b + ['.'] + c;
  }

  /** Every version `parse` can return survives printing and parsing. */
  lemma ParsePrint(v: Version)
    requires Valid(v)
    ensures Parse(Print(v)) == Some(v)
  {
    PrintAsCuts(v);
    var numbers := [PrintNat(v.major), PrintNat(v.minor), PrintNat(v.patch)];
    var core := CoreText(v);
    forall c | c in core ensures IsDigit(c) || c == '.' {
      if c != '.' { JoinChars(numbers, c); }
    }
    IdentifiersAvoid(v.prerelease);
    IdentifiersAvoid(v.build);
    CutUncut(BodyText(v), if v.build == [] then None else Some(Join(v.build)), '+');
    CutUncut(core, if v.prerelease == [] then None else Some(Join(v.prerelease)), '-');
    SplitJoin(numbers);
    if v.prerelease != [] { SplitJoin(v.prerelease); }
    if v.build != [] { SplitJoin(v.build); }
    ParsePrintNat(v.major);
    ParsePrintNat(v.minor);
    ParsePrintNat(v.patch);
  }

  lemma PrintParseCore(core: string)
    requires var n := Split(core); |n| == 3 && IsNumeral(n[0]) && IsNumeral(n[1]) && IsNumeral(n[2])
    ensures var n := Split(core);
            PrintNat(ParseNat(n[0])) + ['.'] + PrintNat(ParseNat(n[1])) + ['.'] + PrintNat(ParseNat(n[2])) == core
  {
    var n := Split(core);
    JoinSplit(core);
    PrintParseNat(n[0]);
    PrintParseNat(n[1]);
    PrintParseNat(n[2]);
    assert n == [n[0], n[1], n[2]] && n[1..] == [n[1], n[2]] && n[1..][1..] == [n[2]];
    assert Join(n[1..]) == n[1] + ['.'] + n[2];
    assert core == n[0] + ['.'] + (n[1] + ['.'] + n[2]) == n[0] + ['.'] + n[1] + ['.'] + n[2];
  }

  /** Whatever `parse` accepts is exactly the printed form of its result, which is valid. */
  lemma PrintParse(s: string)
    requires Parse(s).Some?
    ensures Valid(Parse(s).value) && Print(Parse(s).value) == s
  {
    UncutCut(s, '+');
    var (body, build) := CutFirst(s, '+');
    UncutCut(body, '-');
    var (core, prerelease) := CutFirst(body, '-');
    PrintParseCore(core);
    if prerelease.Some? { JoinSplit(prerelease.value); }
    if build.Some? { JoinSplit(build.value); }
  }

  // ---------------------------------------------------------------- precedence

  function Codes(s: string): (r: seq<int>) { seq(|s|, i requires 0 <= i < |s| => s[i] as int) }

  /** The identifier step of `_compare_prerelease`, for two different identifiers. */
  function CompareIdentifiers(l: string, r: string): int {
    if AllDigits(l) && AllDigits(r) then (if ParseNat(l) < ParseNat(r) then -1 else 1)
    else if AllDigits(l) != AllDigits(r) then (if AllDigits(l) then -1 else 1)
    else if LexLess(Codes(l), Codes(r)) then -1 else 1
  }

  /** The scan over both identifier lists. */
  function Scan(l: seq<string>, r: seq<string>): int {
    if l == [] || r == [] then (if |l| == |r| then 0 else if |l| < |r| then -1 else 1)
    else if l[0] == r[0] then Scan(l[1..], r[1..])
    else CompareIdentifiers(l[0], r[0])
  }

  /** `_compare_prerelease`: no pre-release outranks any pre-release. */
  function ComparePrerelease(l: seq<string>, r: seq<string>): int {
    if l == [] && r == [] then 0 else if l == [] then 1 else if r == [] then -1 else Scan(l, r)
  }

  /** `SemVer.__lt__`. */
  predicate Less(a: Version, b: Version) {
    if a.major != b.major then a.major < b.major
    else if a.minor != b.minor then a.minor < b.minor
    else if a.patch != b.patch then a.patch < b.patch
    else ComparePrerelease(a.prerelease, b.prerelease) < 0
  }

  /** `SemVer.__eq__`. */
  predicate Same(a: Version, b: Version) {
    a.major == b.major && a.minor == b.minor && a.patch == b.patch && a.prerelease == b.prerelease
  }

  /** Independent statement of one identifier preceding another: item 11.4.1-11.4.3 of Semantic Versioning 2.0.0. */
  predicate IdentifierPrecedes(l: string, r: string) {
    || (AllDigits(l) && AllDigits(r) && ParseNat(l) < ParseNat(r))
    || (AllDigits(l) && !AllDigits(r))
    || (!AllDigits(l) && !AllDigits(r) && LexLess(Codes(l), Codes(r)))
  }

  /** Item 11.4: decided at the first difference, a shorter equal prefix coming first. */
  ghost predicate ListPrecedes(l: seq<string>, r: seq<string>) {
    exists k :: 0 <= k <= |l| && k <= |r| && l[..k] == r[..k] &&
      ((k == |l| && k < |r|) || (k < |l| && k < |r| && IdentifierPrecedes(l[k], r[k])))
  }

  lemma CodesInjective(l: string, r: string)
    requires Codes(l) == Codes(r)
    ensures l == r
  {
    assert |l| == |Codes(l)| == |Codes(r)| == |r|;
    forall i | 0 <= i < |l| ensures l[i] == r[i] {
      assert Codes(l)[i] == Codes(r)[i];
    }
  }

  lemma IdentifierTotal(l: string, r: string)
    requires IsPrereleaseIdentifier(l) && IsPrereleaseIdentifier(r)
    ensures l == r || IdentifierPrecedes(l, r) || IdentifierPrecedes(r, l)
    ensures !IdentifierPrecedes(l, l) && !(IdentifierPrecedes(l, r) && IdentifierPrecedes(r, l))
    ensures l != r ==> CompareIdentifiers(l, r) == if IdentifierPrecedes(l, r) then -1 else 1
  {
    LexTotal(Codes(l), Codes(r));
    if AllDigits(l) && AllDigits(r) {
      PrintParseNat(l);
      PrintParseNat(r);
    } else if Codes(l) == Codes(r) {
      CodesInjective(l, r);
    }
  }

  lemma IdentifierTransitive(a: string, b: string, c: string)
    requires IdentifierPrecedes(a, b) && IdentifierPrecedes(b, c)
    ensures IdentifierPrecedes(a, c)
  {
    if !AllDigits(a) {
      LexTransitive(Codes(a), Codes(b), Codes(c));
    }
  }

  /** The scan decides exactly the order of item 11.4. */
  lemma {:induction false} ScanIsItem11(l: seq<string>, r: seq<string>)
    requires Identifiers(l) && Identifiers(r)
    ensures Scan(l, r) == 0 <==> l == r
    ensures Scan(l, r) < 0 <==> ListPrecedes(l, r)
    ensures Scan(l, r) > 0 <==> Scan(r, l) < 0
  {
    if l == [] || r == [] {
      assert l[..0] == r[..0];
    } else if l[0] == r[0] {
      ScanIsItem11(l[1..], r[1..]);
      assert l == [l[0]] + l[1..] && r == [r[0]] + r[1..];
      SameHeadPrecedes(l, r);
    } else {
      IdentifierTotal(l[0], r[0]);
      IdentifierTotal(r[0], l[0]);
      OtherHeadPrecedes(l, r);
    }
  }

  lemma SameHeadPrecedes(l: seq<string>, r: seq<string>)
    requires Identifiers(l) && l != [] && r != [] && l[0] == r[0]
    ensures ListPrecedes(l, r) <==> ListPrecedes(l[1..], r[1..])
  {
    if ListPrecedes(l[1..], r[1..]) {
      var k :| 0 <= k <= |l| - 1 && k <= |r| - 1 && l[1..][..k] == r[1..][..k] &&
        ((k == |l| - 1 && k < |r| - 1) ||
         (k < |l| - 1 && k < |r| - 1 && IdentifierPrecedes(l[1..][k], r[1..][k])));
      assert l[..k + 1] == [l[0]] + l[1..][..k] && r[..k + 1] == [r[0]] + r[1..][..k];
    }
    if ListPrecedes(l, r) {
      var k :| 0 <= k <= |l| && k <= |r| && l[..k] == r[..k] &&
        ((k == |l| && k < |r|) || (k < |l| && k < |r| && IdentifierPrecedes(l[k], r[k])));
      IdentifierTotal(l[0], r[0]);
      assert k > 0;
      assert l[1..][..k - 1] == l[..k][1..] && r[1..][..k - 1] == r[..k][1..];
    }
  }

  lemma OtherHeadPrecedes(l: seq<string>, r: seq<string>)
    requires l != [] && r != [] && l[0] != r[0]
    ensures ListPrecedes(l, r) <==> IdentifierPrecedes(l[0], r[0])
  {
    assert l[..0] == r[..0];
    if ListPrecedes(l, r) {
      var k :| 0 <= k <= |l| && k <= |r| && l[..k] == r[..k] &&
        ((k == |l| && k < |r|) || (k < |l| && k < |r| && IdentifierPrecedes(l[k], r[k])));
      assert k == 0 || l[..k][0] != r[..k][0];
    }
  }

  lemma {:induction false} ScanTransitive(a: seq<string>, b: seq<string>, c: seq<string>)
    requires Identifiers(a) && Identifiers(b) && Identifiers(c)
    requires Scan(a, b) < 0 && Scan(b, c) < 0
    ensures Scan(a, c) < 0
  {
    if a != [] && b != [] && c != [] {
      IdentifierTotal(a[0], b[0]);
      IdentifierTotal(b[0], c[0]);
      IdentifierTotal(a[0], c[0]);
      if a[0] == b[0] == c[0] {
        ScanTransitive(a[1..], b[1..], c[1..]);
      } else if a[0] != b[0] && b[0] != c[0] {
        IdentifierTransitive(a[0], b[0], c[0]);
      }
    }
  }

  /** Precedence on parsed versions: exactly one of less, same, greater. */
  lemma PrecedenceTotal(a: Version, b: Version)
    requires Valid(a) && Valid(b)
    ensures Same(a, b) || Less(a, b) || Less(b, a)
    ensures !(Same(a, b) && Less(a, b)) && !(Less(a, b) && Less(b, a))
  {
    ScanIsItem11(a.prerelease, b.prerelease);
    ScanIsItem11(b.prerelease, a.prerelease);
  }

  lemma PrecedenceTransitive(a: Version, b: Version, c: Version)
    requires Valid(a) && Valid(b) && Valid(c)
    requires Less(a, b) && Less(b, c)
    ensures Less(a, c)
  {
    if a.prerelease != [] && b.prerelease != [] && c.prerelease != [] && Scan(a.prerelease, b.prerelease) < 0 &&
       Scan(b.prerelease, c.prerelease) < 0 {
      ScanTransitive(a.prerelease, b.prerelease, c.prerelease);
    }
  }

  /** Items 10 and 11 of Semantic Versioning 2.0.0 put together. */
  lemma PrecedenceIsItem11(a: Version, b: Version)
    requires Valid(a) && Valid(b)
    ensures Less(a, b) <==>
      || LexLess([a.major, a.minor, a.patch], [b.major, b.minor, b.patch])
      || ([a.major, a.minor, a.patch] == [b.major, b.minor, b.patch] &&
          ((a.prerelease != [] && b.prerelease == []) ||
           (a.prerelease != [] && b.prerelease != [] && ListPrecedes(a.prerelease, b.prerelease))))
  {
    var x, y := [a.major, a.minor, a.patch], [b.major, b.minor, b.patch];
    assert x[1..] == [a.minor, a.patch] && y[1..] == [b.minor, b.patch];
    assert x[1..][1..] == [a.patch] && y[1..][1..] == [b.patch];
    assert LexLess([a.patch], [b.patch]) <==> a.patch < b.patch;
    assert LexLess([a.minor, a.patch], [b.minor, b.patch]) <==>
           a.minor < b.minor || (a.minor == b.minor && a.patch < b.patch);
    assert x == y <==> (x[0] == y[0] && x[1] == y[1] && x[2] == y[2]);
    ScanIsItem11(a.prerelease, b.prerelease);
  }

  /** Equal precedence is respected by the order on both sides. */
  lemma SameRespectsLess(a: Version, b: Version, c: Version)
    requires Same(a, b)
    ensures Less(a, c) == Less(b, c) && Less(c, a) == Less(c, b)
  {
  }
}
