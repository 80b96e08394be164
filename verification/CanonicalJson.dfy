/** The two printers that an update manifest passes through: the canonical one it is signed over (`canonical_json.py`),
    and `json.dumps` with sorted keys, which `_persist_manifest` in `update_runtime.py` caches it with. */
module CanonicalJson {
  import opened Prelude
  import opened Encoding
  import SemVer

  const MAX_SAFE_INTEGER := 9_007_199_254_740_991

  /** A decoded JSON value. An object lists its members in insertion order, as a Python dict does.
      `Unsupported` stands for floats, bytes, and mappings with a key that is not text. */
  datatype Json =
    | Null
    | Bool(b: bool)
    | Int(n: int)
    | Str(s: Text)
    | Arr(items: seq<Json>)
    | Obj(fields: seq<Field>)
    | Unsupported

  datatype Field = Field(key: Text, value: Json)

  predicate DistinctKeys(fields: seq<Field>) {
    forall i, j :: 0 <= i < j < |fields| ==> fields[i].key != fields[j].key
  }

  /** The values `_serialize` accepts; on all others it raises `CanonicalizationError`.
      Distinct keys are not checked: every mapping has them. */
  predicate Allowed(v: Json) {
    match v
    case Null => true
    case Bool(_) => true
    case Int(n) => -MAX_SAFE_INTEGER <= n <= MAX_SAFE_INTEGER
    case Str(s) => IsUnicode(s)
    case Arr(items) => forall i :: 0 <= i < |items| ==> Allowed(items[i])
    case Obj(fields) =>
      DistinctKeys(fields) &&
      forall i :: 0 <= i < |fields| ==> IsUnicode(fields[i].key) && Allowed(fields[i].value)
    case Unsupported => false
  }

  /** Equality of decoded values: objects are compared as dictionaries, whatever their insertion order. */
  ghost predicate SameValue(a: Json, b: Json)
    decreases a
  {
    match (a, b)
    case (Arr(xs), Arr(ys)) => |xs| == |ys| && forall i :: 0 <= i < |xs| ==> SameValue(xs[i], ys[i])
    case (Obj(fs), Obj(gs)) =>
      && (forall i :: 0 <= i < |fs| ==> HasKey(gs, fs[i].key))
      && (forall j :: 0 <= j < |gs| ==> HasKey(fs, gs[j].key))
      && (forall i, j :: 0 <= i < |fs| && 0 <= j < |gs| && fs[i].key == gs[j].key ==>
            SameValue(fs[i].value, gs[j].value))
    case _ => a == b
  }

  predicate HasKey(fields: seq<Field>, key: Text) {
    exists i :: 0 <= i < |fields| && fields[i].key == key
  }

  // ---------------------------------------------------------------- the printer

  const QUOTE: CodePoint := 0x22
  const BACKSLASH: CodePoint := 0x5C

  function Ascii(s: string): (t: Text)
    requires forall i :: 0 <= i < |s| ==> s[i] < '\U{80}'
    ensures |t| == |s| && forall i :: 0 <= i < |s| ==> t[i] == s[i] as int
  {
    seq(|s|, i requires 0 <= i < |s| => s[i] as int)
  }

  function HexDigit(d: int): CodePoint
    requires 0 <= d < 16
  {
    if d < 10 then 0x30 + d else 0x61 + d - 10
  }

  /** `Canonical` is section 3.2.2.2 of RFC 8785, which is `json.dumps(..., ensure_ascii=False)`; `Ascii` is the default
      `json.dumps`, which escapes everything outside the printable ASCII characters. */
  datatype Style = Canonical | AsciiOnly

  function Hex4(n: int): Text
    requires 0 <= n < 0x10000
  {
    [HexDigit(n / 0x1000), HexDigit(n / 0x100 % 0x10), HexDigit(n / 0x10 % 0x10), HexDigit(n % 0x10)]
  }

  /** An escaped UTF-16 code unit. */
  function EscapeUnit(n: int): Text
    requires 0 <= n < 0x10000
  {
    [BACKSLASH, 0x75] + Hex4(n)
  }

  /** One character inside quotes. */
  function EscapeChar(st: Style, c: CodePoint): Text {
    if c == QUOTE then [BACKSLASH, QUOTE]
    else if c == BACKSLASH then [BACKSLASH, BACKSLASH]
    else if c == 0x08 then [BACKSLASH, 0x62]
    else if c == 0x09 then [BACKSLASH, 0x74]
    else if c == 0x0A then [BACKSLASH, 0x6E]
    else if c == 0x0C then [BACKSLASH, 0x66]
    else if c == 0x0D then [BACKSLASH, 0x72]
    else if c < 0x20 || (st == AsciiOnly && c >= 0x7F) then EscapeUnits(Units(c))
    else [c]
  }

  function EscapeUnits(u: seq<int>): Text
    requires forall i :: 0 <= i < |u| ==> 0 <= u[i] < 0x10000
  {
    if u == [] then [] else EscapeUnit(u[0]) + EscapeUnits(u[1..])
  }

  function Escape(st: Style, s: Text): Text {
    if s == [] then [] else EscapeChar(st, s[0]) + Escape(st, s[1..])
  }

  function Quoted(st: Style, s: Text): Text { [QUOTE] + Escape(st, s) + [QUOTE] }

  function Decimal(n: int): Text {
    NumeralsAreAscii(if n < 0 then -n else n);
    if n < 0 then [0x2D] + Ascii(SemVer.PrintNat(-n)) else Ascii(SemVer.PrintNat(n))
  }

  lemma NumeralsAreAscii(n: nat)
    ensures forall i :: 0 <= i < |SemVer.PrintNat(n)| ==> SemVer.PrintNat(n)[i] < '\U{80}'
  {
    assert SemVer.AllDigits(SemVer.PrintNat(n));
    forall i | 0 <= i < |SemVer.PrintNat(n)| ensures SemVer.PrintNat(n)[i] < '\U{80}' {
      assert SemVer.IsDigit(SemVer.PrintNat(n)[i]);
    }
  }

  /** What keys are compared by: big-endian UTF-16 in the canonical form, code points in Python's own order of text. */
  function SortKey(st: Style, key: Text): seq<int> { if st == Canonical then Utf16Be(key) else key }

  predicate Precedes(st: Style, a: Text, b: Text) { LexLess(SortKey(st, a), SortKey(st, b)) }

  lemma KeysOrdered(st: Style, a: Text, b: Text)
    requires IsUnicode(a) && IsUnicode(b)
    ensures a == b || Precedes(st, a, b) || Precedes(st, b, a)
    ensures !Precedes(st, a, a) && !(Precedes(st, a, b) && Precedes(st, b, a))
  {
    if st == Canonical { KeyOrder(a, b); } else { LexTotal(a, b); }
  }

  /** An object member with its value already printed. */
  datatype Member = Member(key: Text, text: Text)

  function Insert(st: Style, m: Member, sorted: seq<Member>): seq<Member> {
    if sorted == [] || Precedes(st, m.key, sorted[0].key) then [m] + sorted
    else [sorted[0]] + Insert(st, m, sorted[1..])
  }

  /** `sorted(keys, ...)` applied to members. */
  function Sort(st: Style, members: seq<Member>): seq<Member> {
    if members == [] then [] else Insert(st, members[0], Sort(st, members[1..]))
  }

  function JoinMembers(st: Style, members: seq<Member>): Text {
    if members == [] then []
    else
      var head := Quoted(st, members[0].key) + [0x3A] + members[0].text;
      if |members| == 1 then head else head + [0x2C] + JoinMembers(st, members[1..])
  }

  /** `_serialize` where it does not raise, and `json.dumps(..., sort_keys=True, separators=(",", ":"))` on the same
      values. */
  function Serialize(st: Style, v: Json): Text
    requires Allowed(v)
    decreases v
  {
    match v
    case Null => [0x6E, 0x75, 0x6C, 0x6C]
    case Bool(b) => if b then [0x74, 0x72, 0x75, 0x65] else [0x66, 0x61, 0x6C, 0x73, 0x65]
    case Int(n) => Decimal(n)
    case Str(s) => Quoted(st, s)
    case Arr(items) => [0x5B] + SerializeItems(st, items) + [0x5D]
    case Obj(fields) => [0x7B] + JoinMembers(st, Sort(st, Members(st, fields))) + [0x7D]
  }

  function SerializeItems(st: Style, items: seq<Json>): Text
    requires forall i :: 0 <= i < |items| ==> Allowed(items[i])
    decreases items
  {
    if items == [] then []
    else if |items| == 1 then Serialize(st, items[0])
    else Serialize(st, items[0]) + [0x2C] + SerializeItems(st, items[1..])
  }

  function Members(st: Style, fields: seq<Field>): (ms: seq<Member>)
    requires forall i :: 0 <= i < |fields| ==> Allowed(fields[i].value)
    ensures |ms| == |fields|
    ensures forall i :: 0 <= i < |fields| ==> ms[i] == Member(fields[i].key, Serialize(st, fields[i].value))
    decreases fields
  {
    if fields == [] then []
    else [Member(fields[0].key, Serialize(st, fields[0].value))] + Members(st, fields[1..])
  }

  /** `canonicalize_json`; None stands for `CanonicalizationError`. */
  function Canonicalize(v: Json): Option<seq<int>> {
    if Allowed(v) then Some(Utf8(Serialize(Canonical, v))) else None
  }

  // ---------------------------------------------------------------- sorting

  ghost predicate Sorted(st: Style, ms: seq<Member>) {
    forall i, j :: 0 <= i < j < |ms| ==> Precedes(st, ms[i].key, ms[j].key)
  }

  ghost predicate UnicodeKeys(ms: seq<Member>) { forall i :: 0 <= i < |ms| ==> IsUnicode(ms[i].key) }

  lemma {:induction false} InsertMembers(st: Style, m: Member, ms: seq<Member>)
    ensures forall x :: x in Insert(st, m, ms) <==> x == m || x in ms
  {
    if ms != [] && !Precedes(st, m.key, ms[0].key) {
      InsertMembers(st, m, ms[1..]);
      assert ms == [ms[0]] + ms[1..];
    }
  }

  lemma ConsSorted(st: Style, m: Member, ms: seq<Member>)
    requires Sorted(st, ms) && forall x :: x in ms ==> Precedes(st, m.key, x.key)
    ensures Sorted(st, [m] + ms)
  {
  }

  lemma {:induction false} InsertSorted(st: Style, m: Member, ms: seq<Member>)
    requires Sorted(st, ms) && UnicodeKeys(ms) && IsUnicode(m.key)
    requires forall i :: 0 <= i < |ms| ==> ms[i].key != m.key
    ensures Sorted(st, Insert(st, m, ms))
  {
    if ms == [] {
    } else if Precedes(st, m.key, ms[0].key) {
      forall x | x in ms ensures Precedes(st, m.key, x.key) {
        var i :| 0 <= i < |ms| && ms[i] == x;
        if i > 0 { LexTransitive(SortKey(st, m.key), SortKey(st, ms[0].key), SortKey(st, x.key)); }
      }
      ConsSorted(st, m, ms);
    } else {
      KeysOrdered(st, m.key, ms[0].key);
      InsertSorted(st, m, ms[1..]);
      InsertMembers(st, m, ms[1..]);
      ConsSorted(st, ms[0], Insert(st, m, ms[1..]));
    }
  }

  lemma {:induction false} SortSorted(st: Style, ms: seq<Member>)
    requires UnicodeKeys(ms)
    requires forall i, j :: 0 <= i < j < |ms| ==> ms[i].key != ms[j].key
    ensures Sorted(st, Sort(st, ms))
    ensures forall x :: x in Sort(st, ms) <==> x in ms
  {
    if ms != [] {
      SortSorted(st, ms[1..]);
      var rest := Sort(st, ms[1..]);
      forall i | 0 <= i < |rest| ensures rest[i].key != ms[0].key && IsUnicode(rest[i].key) {
        assert rest[i] in ms[1..];
      }
      InsertSorted(st, ms[0], rest);
      InsertMembers(st, ms[0], rest);
      assert ms == [ms[0]] + ms[1..];
    }
  }

  /** The first of a strictly sorted list does not come again. */
  lemma HeadOnce(st: Style, ms: seq<Member>)
    requires Sorted(st, ms) && UnicodeKeys(ms) && ms != []
    ensures forall m :: m in ms[1..] <==> m in ms && m != ms[0]
  {
    KeysOrdered(st, ms[0].key, ms[0].key);
    assert ms == [ms[0]] + ms[1..];
    forall m | m in ms[1..] ensures m != ms[0] {
      var k :| 0 <= k < |ms| - 1 && ms[1..][k] == m;
      assert Precedes(st, ms[0].key, ms[k + 1].key);
    }
  }

  /** Two strictly sorted lists with the same members are the same list. */
  lemma {:induction false} SortedUnique(st: Style, xs: seq<Member>, ys: seq<Member>)
    requires Sorted(st, xs) && Sorted(st, ys) && UnicodeKeys(xs) && UnicodeKeys(ys)
    requires forall m :: m in xs <==> m in ys
    ensures xs == ys
  {
    if ys != [] { assert ys[0] in ys; }
    if xs != [] {
      assert xs[0] in ys;
      SameHead(st, xs, ys);
      HeadOnce(st, xs);
      HeadOnce(st, ys);
      SortedUnique(st, xs[1..], ys[1..]);
      assert xs == [xs[0]] + xs[1..] && ys == [ys[0]] + ys[1..];
    }
  }

  lemma SameHead(st: Style, xs: seq<Member>, ys: seq<Member>)
    requires Sorted(st, xs) && Sorted(st, ys) && UnicodeKeys(xs) && UnicodeKeys(ys)
    requires xs != [] && ys != [] && xs[0] in ys && ys[0] in xs
    ensures xs[0] == ys[0]
  {
    var i :| 0 <= i < |ys| && ys[i] == xs[0];
    var j :| 0 <= j < |xs| && xs[j] == ys[0];
    KeysOrdered(st, xs[0].key, ys[0].key);
    assert i == 0;
  }

  lemma SortedMembers(st: Style, fields: seq<Field>)
    requires Allowed(Obj(fields))
    ensures var ms := Sort(st, Members(st, fields));
      Sorted(st, ms) && UnicodeKeys(ms) && forall x :: x in ms <==> x in Members(st, fields)
  {
    var ms := Members(st, fields);
    SortSorted(st, ms);
    forall i | 0 <= i < |Sort(st, ms)| ensures IsUnicode(Sort(st, ms)[i].key) {
      assert Sort(st, ms)[i] in ms;
    }
  }

  // ---------------------------------------------------------------- insertion order does not matter

  /** Equal dictionaries print identically, whatever their insertion orders. */
  lemma {:induction false} SerializeRespectsSameValue(st: Style, a: Json, b: Json)
    requires Allowed(a) && Allowed(b) && SameValue(a, b)
    ensures Serialize(st, a) == Serialize(st, b)
    decreases a
  {
    match a
    case Arr(xs) => SameItems(st, xs, b.items);
    case Obj(fs) =>
      var gs := b.fields;
      forall i, j | 0 <= i < |fs| && 0 <= j < |gs| && fs[i].key == gs[j].key
        ensures Serialize(st, fs[i].value) == Serialize(st, gs[j].value)
      {
        SerializeRespectsSameValue(st, fs[i].value, gs[j].value);
      }
      SameFields(st, fs, gs);
    case _ =>
  }

  lemma SameFields(st: Style, fs: seq<Field>, gs: seq<Field>)
    requires Allowed(Obj(fs)) && Allowed(Obj(gs)) && SameValue(Obj(fs), Obj(gs))
    requires forall i, j :: 0 <= i < |fs| && 0 <= j < |gs| && fs[i].key == gs[j].key ==>
               Serialize(st, fs[i].value) == Serialize(st, gs[j].value)
    ensures Sort(st, Members(st, fs)) == Sort(st, Members(st, gs))
  {
    SortedMembers(st, fs);
    SortedMembers(st, gs);
    forall i | 0 <= i < |fs| ensures Members(st, fs)[i] in Members(st, gs) {
      assert HasKey(gs, fs[i].key);
      var j :| 0 <= j < |gs| && gs[j].key == fs[i].key;
      assert Members(st, gs)[j] == Members(st, fs)[i];
    }
    forall j | 0 <= j < |gs| ensures Members(st, gs)[j] in Members(st, fs) {
      assert HasKey(fs, gs[j].key);
      var i :| 0 <= i < |fs| && fs[i].key == gs[j].key;
      assert Members(st, fs)[i] == Members(st, gs)[j];
    }
    SortedUnique(st, Sort(st, Members(st, fs)), Sort(st, Members(st, gs)));
  }

  lemma {:induction false} SameItems(st: Style, xs: seq<Json>, ys: seq<Json>)
    requires |xs| == |ys|
    requires forall i :: 0 <= i < |xs| ==> Allowed(xs[i]) && Allowed(ys[i]) && SameValue(xs[i], ys[i])
    ensures SerializeItems(st, xs) == SerializeItems(st, ys)
    decreases xs
  {
    if xs != [] {
      SerializeRespectsSameValue(st, xs[0], ys[0]);
      SameItems(st, xs[1..], ys[1..]);
    }
  }

  // ---------------------------------------------------------------- the text determines the value

  lemma Peel(p: Text, q: Text, x: Text)
    requires p + q <= x
    ensures p <= x && q <= x[|p|..]
  {
    assert p == (p + q)[..|p|] == x[..|p|];
    assert q == (p + q)[|p|..] == x[|p|..|p| + |q|];
  }

  /** What follows position `n` cannot continue a number. */
  predicate DelimitedAt(x: Text, n: nat) { n >= |x| || !(0x30 <= x[n] <= 0x39) }

  lemma HexUnique(c: int, d: int)
    requires 0 <= c < 16 && 0 <= d < 16 && HexDigit(c) == HexDigit(d)
    ensures c == d
  {
  }

  lemma Hex4Unique(m: int, n: int)
    requires 0 <= m < 0x10000 && 0 <= n < 0x10000 && Hex4(m) == Hex4(n)
    ensures m == n
  {
    assert Hex4(m)[0] == Hex4(n)[0] && Hex4(m)[1] == Hex4(n)[1] && Hex4(m)[2] == Hex4(n)[2] && Hex4(m)[3] == Hex4(n)[3];
    HexUnique(m / 0x1000, n / 0x1000);
    HexUnique(m / 0x100 % 0x10, n / 0x100 % 0x10);
    HexUnique(m / 0x10 % 0x10, n / 0x10 % 0x10);
    HexUnique(m % 0x10, n % 0x10);
    FourNibbles(m);
    FourNibbles(n);
  }

  lemma FourNibbles(n: int)
    requires 0 <= n < 0x10000
    ensures n == n / 0x1000 * 0x1000 + n / 0x100 % 0x10 * 0x100 + n / 0x10 % 0x10 * 0x10 + n % 0x10
  {
    assert n / 0x100 == n / 0x1000 * 0x10 + n / 0x100 % 0x10;
    assert n / 0x10 == n / 0x100 * 0x10 + n / 0x10 % 0x10;
  }

  lemma EscapeUnitUnique(m: int, n: int, x: Text)
    requires 0 <= m < 0x10000 && 0 <= n < 0x10000 && EscapeUnit(m) <= x && EscapeUnit(n) <= x
    ensures m == n
  {
    assert Hex4(m) == EscapeUnit(m)[2..] == x[2..6] && Hex4(n) == EscapeUnit(n)[2..] == x[2..6];
    Hex4Unique(m, n);
  }

  /** Escaped characters are told apart by their code units: a first surrogate always has its second one after it. */
  lemma EscapeUnitsUnique(c: CodePoint, d: CodePoint, x: Text)
    requires IsScalar(c) && IsScalar(d)
    requires EscapeUnits(Units(c)) <= x && EscapeUnits(Units(d)) <= x
    ensures c == d
  {
    var u, v := Units(c), Units(d);
    Peel(EscapeUnit(u[0]), EscapeUnits(u[1..]), x);
    Peel(EscapeUnit(v[0]), EscapeUnits(v[1..]), x);
    EscapeUnitUnique(u[0], v[0], x);
    if |u| == 2 && |v| == 2 {
      assert EscapeUnits(u[1..]) == EscapeUnit(u[1]) && EscapeUnits(v[1..]) == EscapeUnit(v[1]);
      EscapeUnitUnique(u[1], v[1], x[6..]);
      assert u == v;
    }
    UnitsPrefixFree(c, d, [], []);
  }

  predicate ByUnits(st: Style, c: CodePoint) {
    (c < 0x20 && !(c == 0x08 || c == 0x09 || c == 0x0A || c == 0x0C || c == 0x0D)) || (st == AsciiOnly && c >= 0x7F)
  }

  lemma EscapeCharUnique(sa: Style, c: CodePoint, sb: Style, d: CodePoint, x: Text)
    requires IsScalar(c) && IsScalar(d)
    requires EscapeChar(sa, c) <= x && EscapeChar(sb, d) <= x
    ensures c == d && EscapeChar(sa, c) == EscapeChar(sb, d)
  {
    assert x[0] == EscapeChar(sa, c)[0] && x[0] == EscapeChar(sb, d)[0];
    if x[0] == BACKSLASH {
      assert x[1] == EscapeChar(sa, c)[1] && x[1] == EscapeChar(sb, d)[1];
      assert ByUnits(sa, c) <==> x[1] == 0x75;
      assert ByUnits(sb, d) <==> x[1] == 0x75;
      if x[1] == 0x75 { EscapeUnitsUnique(c, d, x); }
    }
  }

  lemma EscapeHead(st: Style, s: Text, x: Text)
    requires Escape(st, s) + [QUOTE] <= x
    ensures x != [] && (x[0] == QUOTE <==> s == [])
  {
    if s != [] { assert x[0] == (Escape(st, s) + [QUOTE])[0] == EscapeChar(st, s[0])[0]; }
  }

  lemma EscapeStep(st: Style, s: Text, x: Text)
    requires s != [] && Escape(st, s) + [QUOTE] <= x
    ensures EscapeChar(st, s[0]) <= x && Escape(st, s[1..]) + [QUOTE] <= x[|EscapeChar(st, s[0])|..]
  {
    assert Escape(st, s) + [QUOTE] == EscapeChar(st, s[0]) + (Escape(st, s[1..]) + [QUOTE]);
    Peel(EscapeChar(st, s[0]), Escape(st, s[1..]) + [QUOTE], x);
  }

  lemma {:induction false} EscapeUnique(sa: Style, s: Text, sb: Style, u: Text, x: Text)
    requires IsUnicode(s) && IsUnicode(u)
    requires Escape(sa, s) + [QUOTE] <= x && Escape(sb, u) + [QUOTE] <= x
    ensures s == u && Escape(sa, s) == Escape(sb, u)
  {
    EscapeHead(sa, s, x);
    EscapeHead(sb, u, x);
    if s != [] && u != [] {
      EscapeStep(sa, s, x);
      EscapeStep(sb, u, x);
      EscapeCharUnique(sa, s[0], sb, u[0], x);
      EscapeUnique(sa, s[1..], sb, u[1..], x[|EscapeChar(sa, s[0])|..]);
      assert s == [s[0]] + s[1..] && u == [u[0]] + u[1..];
    }
  }

  lemma QuotedUnique(sa: Style, s: Text, sb: Style, u: Text, x: Text)
    requires IsUnicode(s) && IsUnicode(u)
    requires Quoted(sa, s) <= x && Quoted(sb, u) <= x
    ensures s == u && Quoted(sa, s) == Quoted(sb, u)
  {
    assert Quoted(sa, s) == [QUOTE] + (Escape(sa, s) + [QUOTE]) && Quoted(sb, u) == [QUOTE] + (Escape(sb, u) + [QUOTE]);
    Peel([QUOTE], Escape(sa, s) + [QUOTE], x);
    Peel([QUOTE], Escape(sb, u) + [QUOTE], x);
    EscapeUnique(sa, s, sb, u, x[1..]);
  }

  lemma DigitsOfDecimal(n: nat)
    ensures |Decimal(n)| == |SemVer.PrintNat(n)|
    ensures forall i ::
      0 <= i < |Decimal(n)| ==> Decimal(n)[i] == SemVer.PrintNat(n)[i] as int && 0x30 <= Decimal(n)[i] <= 0x39
  {
    NumeralsAreAscii(n);
    forall i | 0 <= i < |Decimal(n)| ensures 0x30 <= Decimal(n)[i] <= 0x39 {
      assert SemVer.IsDigit(SemVer.PrintNat(n)[i]);
    }
  }

  lemma NumeralUnique(n: nat, m: nat, x: Text)
    requires Decimal(n) <= x && Decimal(m) <= x
    requires DelimitedAt(x, |Decimal(n)|) && DelimitedAt(x, |Decimal(m)|)
    ensures n == m
  {
    DigitsOfDecimal(n);
    DigitsOfDecimal(m);
    assert forall i :: 0 <= i < |Decimal(n)| ==> x[i] == Decimal(n)[i];
    assert forall i :: 0 <= i < |Decimal(m)| ==> x[i] == Decimal(m)[i];
    var a, b := SemVer.PrintNat(n), SemVer.PrintNat(m);
    assert |a| == |b|;
    forall i | 0 <= i < |a| ensures a[i] == b[i] {
      assert Decimal(n)[i] == x[i] == Decimal(m)[i];
    }
    assert a == b;
    SemVer.ParsePrintNat(n);
    SemVer.ParsePrintNat(m);
  }

  lemma IntUnique(n: int, m: int, x: Text)
    requires Decimal(n) <= x && Decimal(m) <= x && (n < 0 <==> m < 0)
    requires DelimitedAt(x, |Decimal(n)|) && DelimitedAt(x, |Decimal(m)|)
    ensures n == m
  {
    if n < 0 { NegativeUnique(-n, -m, x); } else { NumeralUnique(n, m, x); }
  }

  lemma NegativeUnique(n: nat, m: nat, x: Text)
    requires [0x2D] + Decimal(n) <= x && [0x2D] + Decimal(m) <= x
    requires DelimitedAt(x, |Decimal(n)| + 1) && DelimitedAt(x, |Decimal(m)| + 1)
    ensures n == m
  {
    Peel([0x2D], Decimal(n), x);
    Peel([0x2D], Decimal(m), x);
    NumeralUnique(n, m, x[1..]);
  }

  /** The first character of a printed value tells its kind. */
  lemma FirstChar(st: Style, v: Json)
    requires Allowed(v)
    ensures Serialize(st, v) != []
    ensures var c := Serialize(st, v)[0];
      && (v.Null? <==> c == 0x6E)
      && (v.Bool? && v.b <==> c == 0x74) && (v.Bool? && !v.b <==> c == 0x66)
      && (v.Int? && v.n < 0 <==> c == 0x2D) && (v.Int? && v.n >= 0 <==> 0x30 <= c <= 0x39)
      && (v.Str? <==> c == QUOTE) && (v.Arr? <==> c == 0x5B) && (v.Obj? <==> c == 0x7B)
  {
    if v.Int? { DigitsOfDecimal(if v.n < 0 then -v.n else v.n); }
  }

  /** Main step of injectivity: two values printed in either style that start the same text are the same value, and
      their texts are the same. */
  lemma {:induction false} SerializeUnique(sa: Style, a: Json, sb: Style, b: Json, x: Text)
    requires Allowed(a) && Allowed(b)
    requires Serialize(sa, a) <= x && Serialize(sb, b) <= x
    requires DelimitedAt(x, |Serialize(sa, a)|) && DelimitedAt(x, |Serialize(sb, b)|)
    ensures SameValue(a, b) && Serialize(sa, a) == Serialize(sb, b)
    decreases a, 2, 0
  {
    FirstChar(sa, a);
    FirstChar(sb, b);
    assert x[0] == Serialize(sa, a)[0] && x[0] == Serialize(sb, b)[0];
    match a
    case Null =>
    case Bool(_) =>
    case Int(n) => IntUnique(n, b.n, x);
    case Str(s) => QuotedUnique(sa, s, sb, b.s, x);
    case Arr(items) => ArrayUnique(sa, a, sb, b, x);
    case Obj(fields) => ObjectUnique(sa, a, sb, b, x);
    case Unsupported =>
  }

  // Arrays

  lemma ItemsHead(st: Style, xs: seq<Json>, x: Text)
    requires forall i :: 0 <= i < |xs| ==> Allowed(xs[i])
    requires SerializeItems(st, xs) + [0x5D] <= x
    ensures x != [] && (x[0] == 0x5D <==> xs == [])
  {
    if xs != [] {
      FirstChar(st, xs[0]);
      assert x[0] == (SerializeItems(st, xs) + [0x5D])[0] == Serialize(st, xs[0])[0];
    }
  }

  lemma StepLast(head: Text, close: CodePoint, x: Text)
    requires head + [close] <= x
    ensures head <= x && x[|head|..] != [] && x[|head|..][0] == close
  {
    Peel(head, [close], x);
  }

  lemma StepMore(head: Text, tail: Text, x: Text)
    requires head + [0x2C] + tail <= x
    ensures head <= x && x[|head|..] != [] && x[|head|..][0] == 0x2C && tail <= x[|head|..][1..]
  {
    assert head + [0x2C] + tail == head + ([0x2C] + tail);
    Peel(head, [0x2C] + tail, x);
    Peel([0x2C], tail, x[|head|..]);
  }

  /** After the first item comes the closing bracket, or a comma and the other items. */
  lemma ItemsStep(st: Style, xs: seq<Json>, x: Text)
    requires xs != [] && forall i :: 0 <= i < |xs| ==> Allowed(xs[i])
    requires SerializeItems(st, xs) + [0x5D] <= x
    ensures Serialize(st, xs[0]) <= x
    ensures var rest := x[|Serialize(st, xs[0])|..];
      rest != [] && rest[0] == (if |xs| == 1 then 0x5D else 0x2C) &&
      (|xs| > 1 ==> SerializeItems(st, xs[1..]) + [0x5D] <= rest[1..])
  {
    var head := Serialize(st, xs[0]);
    if |xs| == 1 {
      StepLast(head, 0x5D, x);
    } else {
      var more := SerializeItems(st, xs[1..]);
      assert SerializeItems(st, xs) == head + [0x2C] + more;
      Regroup(head + [0x2C], more, 0x5D);
      StepMore(head, more + [0x5D], x);
    }
  }

  lemma Regroup(p: Text, q: Text, c: CodePoint)
    ensures p + q + [c] == p + (q + [c])
  {
  }

  lemma {:induction false} ItemsUnique(sa: Style, a: Json, xs: seq<Json>, sb: Style, ys: seq<Json>, x: Text)
    requires forall i :: 0 <= i < |xs| ==> Allowed(xs[i]) && xs[i] < a
    requires forall i :: 0 <= i < |ys| ==> Allowed(ys[i])
    requires SerializeItems(sa, xs) + [0x5D] <= x && SerializeItems(sb, ys) + [0x5D] <= x
    ensures |xs| == |ys| && forall i :: 0 <= i < |xs| ==> SameValue(xs[i], ys[i])
    ensures SerializeItems(sa, xs) == SerializeItems(sb, ys)
    decreases a, 0, |xs|
  {
    ItemsHead(sa, xs, x);
    ItemsHead(sb, ys, x);
    if xs != [] && ys != [] {
      ItemsStep(sa, xs, x);
      ItemsStep(sb, ys, x);
      SerializeUnique(sa, xs[0], sb, ys[0], x);
      if |xs| > 1 && |ys| > 1 {
        ItemsUnique(sa, a, xs[1..], sb, ys[1..], x[|Serialize(sa, xs[0])|..][1..]);
        forall i | 0 < i < |xs| ensures SameValue(xs[i], ys[i]) {
          assert SameValue(xs[1..][i - 1], ys[1..][i - 1]);
        }
      }
    }
  }

  lemma {:induction false} ArrayUnique(sa: Style, a: Json, sb: Style, b: Json, x: Text)
    requires a.Arr? && b.Arr? && Allowed(a) && Allowed(b)
    requires Serialize(sa, a) <= x && Serialize(sb, b) <= x
    ensures SameValue(a, b) && Serialize(sa, a) == Serialize(sb, b)
    decreases a, 1, 0
  {
    assert Serialize(sa, a) == [0x5B] + (SerializeItems(sa, a.items) + [0x5D]);
    assert Serialize(sb, b) == [0x5B] + (SerializeItems(sb, b.items) + [0x5D]);
    Peel([0x5B], SerializeItems(sa, a.items) + [0x5D], x);
    Peel([0x5B], SerializeItems(sb, b.items) + [0x5D], x);
    ItemsUnique(sa, a, a.items, sb, b.items, x[1..]);
  }

  // Objects

  /** The two objects agree on the value of this key. */
  ghost predicate SameAt(key: Text, fs: seq<Field>, gs: seq<Field>) {
    forall i, j :: 0 <= i < |fs| && 0 <= j < |gs| && fs[i].key == key == gs[j].key ==>
      SameValue(fs[i].value, gs[j].value)
  }

  ghost predicate SamePairs(ms: seq<Member>, ns: seq<Member>, fs: seq<Field>, gs: seq<Field>) {
    && |ms| == |ns|
    && (forall k :: 0 <= k < |ms| ==> ms[k].key == ns[k].key && SameAt(ms[k].key, fs, gs))
  }

  /** `m` is the printed form of a field of `v`. */
  ghost predicate MemberOf(st: Style, m: Member, v: Json)
    requires v.Obj? && Allowed(v)
  {
    exists i :: 0 <= i < |v.fields| && m == Member(v.fields[i].key, Serialize(st, v.fields[i].value))
  }

  ghost predicate MembersOf(st: Style, ms: seq<Member>, v: Json)
    requires v.Obj? && Allowed(v)
  {
    forall k :: 0 <= k < |ms| ==> MemberOf(st, ms[k], v)
  }

  lemma TailMembersOf(st: Style, ms: seq<Member>, v: Json)
    requires v.Obj? && Allowed(v) && MembersOf(st, ms, v) && ms != []
    ensures MemberOf(st, ms[0], v) && MembersOf(st, ms[1..], v)
  {
    forall k | 0 <= k < |ms| - 1 ensures MemberOf(st, ms[1..][k], v) { assert ms[1..][k] == ms[k + 1]; }
  }

  lemma MembersHead(st: Style, ms: seq<Member>, x: Text)
    requires JoinMembers(st, ms) + [0x7D] <= x
    ensures x != [] && (x[0] == 0x7D <==> ms == [])
  {
    if ms != [] { assert x[0] == (JoinMembers(st, ms) + [0x7D])[0] == QUOTE; }
  }

  function MemberText(st: Style, m: Member): Text { Quoted(st, m.key) + [0x3A] + m.text }

  lemma JoinStep(st: Style, ms: seq<Member>)
    requires |ms| > 1
    ensures JoinMembers(st, ms) == MemberText(st, ms[0]) + [0x2C] + JoinMembers(st, ms[1..])
  {
  }

  /** After the first member comes the closing brace, or a comma and the other members. */
  lemma MembersStep(st: Style, ms: seq<Member>, x: Text)
    requires ms != [] && JoinMembers(st, ms) + [0x7D] <= x
    ensures MemberText(st, ms[0]) <= x
    ensures var rest := x[|MemberText(st, ms[0])|..];
      rest != [] && rest[0] == (if |ms| == 1 then 0x7D else 0x2C) &&
      (|ms| > 1 ==> JoinMembers(st, ms[1..]) + [0x7D] <= rest[1..])
  {
    var head := MemberText(st, ms[0]);
    if |ms| == 1 {
      StepLast(head, 0x7D, x);
    } else {
      var more := JoinMembers(st, ms[1..]);
      Regroup(head + [0x2C], more, 0x7D);
      StepMore(head, more + [0x7D], x);
    }
  }

  /** A member starts with its quoted key; its value follows the colon. */
  lemma MemberStep(st: Style, m: Member, x: Text)
    requires MemberText(st, m) <= x && DelimitedAt(x, |MemberText(st, m)|)
    ensures Quoted(st, m.key) <= x && |MemberText(st, m)| == |Quoted(st, m.key)| + 1 + |m.text| <= |x|
    ensures m.text <= x[|Quoted(st, m.key)| + 1..]
    ensures DelimitedAt(x[|Quoted(st, m.key)| + 1..], |m.text|)
  {
    Peel(Quoted(st, m.key) + [0x3A], m.text, x);
    Peel(Quoted(st, m.key), [0x3A], x);
    DelimitedAfter(x, |Quoted(st, m.key)| + 1, |m.text|);
  }

  lemma DelimitedAfter(x: Text, skip: nat, n: nat)
    requires skip <= |x| && DelimitedAt(x, skip + n)
    ensures DelimitedAt(x[skip..], n)
  {
  }

  lemma FieldOfMember(st: Style, m: Member, v: Json) returns (i: nat)
    requires v.Obj? && Allowed(v) && MemberOf(st, m, v)
    ensures i < |v.fields| && v.fields[i] < v && IsUnicode(m.key) && Allowed(v.fields[i].value)
    ensures m == Member(v.fields[i].key, Serialize(st, v.fields[i].value))
  {
    i :| 0 <= i < |v.fields| && m == Member(v.fields[i].key, Serialize(st, v.fields[i].value));
  }

  lemma {:induction false} MembersUnique(sa: Style, a: Json, ms: seq<Member>, sb: Style, b: Json, ns: seq<Member>,
                                         x: Text)
    requires a.Obj? && b.Obj? && Allowed(a) && Allowed(b)
    requires MembersOf(sa, ms, a) && MembersOf(sb, ns, b)
    requires JoinMembers(sa, ms) + [0x7D] <= x && JoinMembers(sb, ns) + [0x7D] <= x
    ensures SamePairs(ms, ns, a.fields, b.fields) && JoinMembers(sa, ms) == JoinMembers(sb, ns)
    decreases a, 0, |ms|
  {
    MembersHead(sa, ms, x);
    MembersHead(sb, ns, x);
    if ms != [] && ns != [] {
      MembersStep(sa, ms, x);
      MembersStep(sb, ns, x);
      TailMembersOf(sa, ms, a);
      TailMembersOf(sb, ns, b);
      OneMemberUnique(sa, a, ms[0], sb, b, ns[0], x);
      if |ms| > 1 && |ns| > 1 {
        MembersUnique(sa, a, ms[1..], sb, b, ns[1..], x[|MemberText(sa, ms[0])|..][1..]);
        ConsPairs(ms, ns, a.fields, b.fields);
        JoinStep(sa, ms);
        JoinStep(sb, ns);
      }
    }
  }

  lemma ConsPairs(ms: seq<Member>, ns: seq<Member>, fs: seq<Field>, gs: seq<Field>)
    requires ms != [] && ns != [] && ms[0].key == ns[0].key && SameAt(ms[0].key, fs, gs)
    requires SamePairs(ms[1..], ns[1..], fs, gs)
    ensures SamePairs(ms, ns, fs, gs)
  {
    forall k | 0 < k < |ms| ensures ms[k].key == ns[k].key && SameAt(ms[k].key, fs, gs) {
      assert ms[k] == ms[1..][k - 1] && ns[k] == ns[1..][k - 1];
    }
  }

  lemma {:induction false} OneMemberUnique(sa: Style, a: Json, m: Member, sb: Style, b: Json, n: Member, x: Text)
    requires a.Obj? && b.Obj? && Allowed(a) && Allowed(b)
    requires MemberOf(sa, m, a) && MemberOf(sb, n, b)
    requires MemberText(sa, m) <= x && MemberText(sb, n) <= x
    requires DelimitedAt(x, |MemberText(sa, m)|) && DelimitedAt(x, |MemberText(sb, n)|)
    ensures m == n && MemberText(sa, m) == MemberText(sb, n) && SameAt(m.key, a.fields, b.fields)
    decreases a, 0, 0
  {
    MemberStep(sa, m, x);
    MemberStep(sb, n, x);
    var i := FieldOfMember(sa, m, a);
    var j := FieldOfMember(sb, n, b);
    QuotedUnique(sa, m.key, sb, n.key, x);
    SerializeUnique(sa, a.fields[i].value, sb, b.fields[j].value, x[|Quoted(sa, m.key)| + 1..]);
    SameOnlyThere(a.fields, i, b.fields, j);
  }

  /** With distinct keys there is only one pair of fields to compare. */
  lemma SameOnlyThere(fs: seq<Field>, i: nat, gs: seq<Field>, j: nat)
    requires DistinctKeys(fs) && DistinctKeys(gs) && i < |fs| && j < |gs| && fs[i].key == gs[j].key
    requires SameValue(fs[i].value, gs[j].value)
    ensures SameAt(fs[i].key, fs, gs)
  {
  }

  /** These members are the printed fields of `v`, in some order. */
  ghost predicate ListsFields(st: Style, ms: seq<Member>, v: Json)
    requires v.Obj? && Allowed(v)
  {
    && MembersOf(st, ms, v)
    && (forall i :: 0 <= i < |v.fields| ==> exists k :: 0 <= k < |ms| && ms[k].key == v.fields[i].key)
  }

  lemma SortedMemberOf(st: Style, v: Json)
    requires v.Obj? && Allowed(v)
    ensures ListsFields(st, Sort(st, Members(st, v.fields)), v)
  {
    SortedMembers(st, v.fields);
    var ms := Sort(st, Members(st, v.fields));
    forall k | 0 <= k < |ms| ensures MemberOf(st, ms[k], v) {
      assert ms[k] in Members(st, v.fields);
    }
    assert MembersOf(st, ms, v);
    forall i | 0 <= i < |v.fields| ensures exists k :: 0 <= k < |ms| && ms[k].key == v.fields[i].key {
      assert Members(st, v.fields)[i] in ms;
    }
  }

  lemma ObjectText(st: Style, v: Json, x: Text) returns (ms: seq<Member>)
    requires v.Obj? && Allowed(v) && Serialize(st, v) <= x
    ensures ListsFields(st, ms, v) && Serialize(st, v) == [0x7B] + JoinMembers(st, ms) + [0x7D]
    ensures x != [] && JoinMembers(st, ms) + [0x7D] <= x[1..]
  {
    ms := Sort(st, Members(st, v.fields));
    SortedMemberOf(st, v);
    Regroup([0x7B], JoinMembers(st, ms), 0x7D);
    Peel([0x7B], JoinMembers(st, ms) + [0x7D], x);
  }

  lemma {:induction false} ObjectUnique(sa: Style, a: Json, sb: Style, b: Json, x: Text)
    requires a.Obj? && b.Obj? && Allowed(a) && Allowed(b)
    requires Serialize(sa, a) <= x && Serialize(sb, b) <= x
    ensures SameValue(a, b) && Serialize(sa, a) == Serialize(sb, b)
    decreases a, 1, 0
  {
    var ms := ObjectText(sa, a, x);
    var ns := ObjectText(sb, b, x);
    MembersUnique(sa, a, ms, sb, b, ns, x[1..]);
    PairsGiveSameValue(sa, a, ms, sb, b, ns);
  }

  lemma PairsGiveSameValue(sa: Style, a: Json, ms: seq<Member>, sb: Style, b: Json, ns: seq<Member>)
    requires a.Obj? && b.Obj? && Allowed(a) && Allowed(b)
    requires ListsFields(sa, ms, a) && ListsFields(sb, ns, b)
    requires SamePairs(ms, ns, a.fields, b.fields)
    ensures SameValue(a, b)
  {
    var fs, gs := a.fields, b.fields;
    forall i | 0 <= i < |fs| ensures HasKey(gs, fs[i].key) && SameAt(fs[i].key, fs, gs) {
      PairOfLeft(sa, a, ms, sb, b, ns, i);
    }
    forall j | 0 <= j < |gs| ensures HasKey(fs, gs[j].key) { PairOfRight(sa, a, ms, sb, b, ns, j); }
    SameObjects(fs, gs);
  }

  lemma SameObjects(fs: seq<Field>, gs: seq<Field>)
    requires forall i :: 0 <= i < |fs| ==> HasKey(gs, fs[i].key) && SameAt(fs[i].key, fs, gs)
    requires forall j :: 0 <= j < |gs| ==> HasKey(fs, gs[j].key)
    ensures SameValue(Obj(fs), Obj(gs))
  {
  }

  lemma PairOfLeft(sa: Style, a: Json, ms: seq<Member>, sb: Style, b: Json, ns: seq<Member>, i: nat)
    requires a.Obj? && b.Obj? && Allowed(a) && Allowed(b)
    requires ListsFields(sa, ms, a) && ListsFields(sb, ns, b)
    requires SamePairs(ms, ns, a.fields, b.fields) && i < |a.fields|
    ensures HasKey(b.fields, a.fields[i].key) && SameAt(a.fields[i].key, a.fields, b.fields)
  {
    var k :| 0 <= k < |ms| && ms[k].key == a.fields[i].key;
    assert MemberOf(sb, ns[k], b);
  }

  lemma PairOfRight(sa: Style, a: Json, ms: seq<Member>, sb: Style, b: Json, ns: seq<Member>, j: nat)
    requires a.Obj? && b.Obj? && Allowed(a) && Allowed(b)
    requires ListsFields(sa, ms, a) && ListsFields(sb, ns, b)
    requires SamePairs(ms, ns, a.fields, b.fields) && j < |b.fields|
    ensures HasKey(a.fields, b.fields[j].key)
  {
    var k :| 0 <= k < |ns| && ns[k].key == b.fields[j].key;
    assert MemberOf(sa, ms[k], a);
  }

  /** Canonical bytes are equal exactly for equal values: the printer ignores insertion order and nothing else. */
  lemma CanonicalizeIsExact(a: Json, b: Json)
    requires Canonicalize(a).Some? && Canonicalize(b).Some?
    ensures Canonicalize(a) == Canonicalize(b) <==> SameValue(a, b)
  {
    if Canonicalize(a) == Canonicalize(b) {
      Utf8Injective(Serialize(Canonical, a), Serialize(Canonical, b));
      SerializeUnique(Canonical, a, Canonical, b, Serialize(Canonical, a));
    }
    if SameValue(a, b) {
      SerializeRespectsSameValue(Canonical, a, b);
    }
  }

  // ---------------------------------------------------------------- reading

  /** `json.loads`: a value whose text, printed in either style, are these bytes. */
  ghost predicate ReadsAs(bytes: seq<int>, v: Json) {
    Allowed(v) && exists st :: Utf8(Serialize(st, v)) == bytes
  }

  /** Reading undoes printing: bytes printed in either style read as only one value, up to the order of fields. */
  lemma ReadingIsUnique(bytes: seq<int>, a: Json, b: Json)
    requires ReadsAs(bytes, a) && ReadsAs(bytes, b)
    ensures SameValue(a, b)
  {
    var sa :| Utf8(Serialize(sa, a)) == bytes;
    var sb :| Utf8(Serialize(sb, b)) == bytes;
    Utf8Injective(Serialize(sa, a), Serialize(sb, b));
    SerializeUnique(sa, a, sb, b, Serialize(sa, a));
  }
}
