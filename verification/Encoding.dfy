/** Text as Python sees it (code points, surrogates included) and the two encodings `canonical_json.py` uses. */
module Encoding {
  import opened Prelude

  type CodePoint = c: int | 0 <= c <= 0x10FFFF
  type Text = seq<CodePoint>

  predicate IsScalar(c: CodePoint) { !(0xD800 <= c <= 0xDFFF) }

  /** `_validate_unicode` accepts exactly the texts without lone surrogates. */
  predicate IsUnicode(s: Text) { forall i :: 0 <= i < |s| ==> IsScalar(s[i]) }

  // ---------------------------------------------------------------- UTF-8

  function Utf8Char(c: CodePoint): seq<int> {
    if c < 0x80 then [c]
    else if c < 0x800 then [0xC0 + c / 0x40, 0x80 + c % 0x40]
    else if c < 0x10000 then [0xE0 + c / 0x1000, 0x80 + c / 0x40 % 0x40, 0x80 + c % 0x40]
    else [0xF0 + c / 0x40000, 0x80 + c / 0x1000 % 0x40, 0x80 + c / 0x40 % 0x40, 0x80 + c % 0x40]
  }

  function Utf8(s: Text): seq<int> {
    if s == [] then [] else Utf8Char(s[0]) + Utf8(s[1..])
  }

  /** The lead byte determines the length, the bytes determine the character. */
  lemma Utf8CharPrefixFree(c: CodePoint, d: CodePoint, r: seq<int>, t: seq<int>)
    requires Utf8Char(c) + r == Utf8Char(d) + t
    ensures c == d && r == t
  {
    var x, y := Utf8Char(c) + r, Utf8Char(d) + t;
    assert x[0] == Utf8Char(c)[0] && y[0] == Utf8Char(d)[0];
    Utf8Lead(c);
    Utf8Lead(d);
    assert |Utf8Char(c)| == |Utf8Char(d)|;
    assert Utf8Char(c) == x[..|Utf8Char(c)|] == y[..|Utf8Char(d)|] == Utf8Char(d);
    Utf8Decode(c);
    Utf8Decode(d);
    assert r == x[|Utf8Char(c)|..] == y[|Utf8Char(d)|..] == t;
  }

  lemma Utf8Lead(c: CodePoint)
    ensures var lead := Utf8Char(c)[0];
      |Utf8Char(c)| == if lead < 0x80 then 1 else if lead < 0xE0 then 2 else if lead < 0xF0 then 3 else 4
  {
  }

  lemma Utf8Decode(c: CodePoint)
    ensures var b := Utf8Char(c);
      c == if |b| == 1 then b[0]
           else if |b| == 2 then (b[0] - 0xC0) * 0x40 + (b[1] - 0x80)
           else if |b| == 3 then (b[0] - 0xE0) * 0x1000 + (b[1] - 0x80) * 0x40 + (b[2] - 0x80)
           else (b[0] - 0xF0) * 0x40000 + (b[1] - 0x80) * 0x1000 + (b[2] - 0x80) * 0x40 + (b[3] - 0x80)
  {
    SixBits(c);
    SixBits(c / 0x40);
    SixBits(c / 0x1000);
    assert c / 0x40 / 0x40 == c / 0x1000;
    assert c / 0x1000 / 0x40 == c / 0x40000;
  }

  lemma SixBits(n: int)
    ensures n == n / 0x40 * 0x40 + n % 0x40
  {
  }

  lemma {:induction false} Utf8Injective(s: Text, t: Text)
    requires Utf8(s) == Utf8(t)
    ensures s == t
  {
    assert s != [] ==> |Utf8(s)| >= |Utf8Char(s[0])| > 0;
    assert t != [] ==> |Utf8(t)| >= |Utf8Char(t[0])| > 0;
    if s != [] && t != [] {
      Utf8CharPrefixFree(s[0], t[0], Utf8(s[1..]), Utf8(t[1..]));
      Utf8Injective(s[1..], t[1..]);
      assert s == [s[0]] + s[1..] && t == [t[0]] + t[1..];
    }
  }

  // ---------------------------------------------------------------- UTF-16

  /** The UTF-16 code units of one character. */
  function Units(c: CodePoint): (u: seq<int>)
    ensures forall i :: 0 <= i < |u| ==> 0 <= u[i] < 0x10000
  {
    if c < 0x10000 then [c]
    else [0xD800 + (c - 0x10000) / 0x400, 0xDC00 + (c - 0x10000) % 0x400]
  }

  function Utf16Units(s: Text): (u: seq<int>)
    ensures forall i :: 0 <= i < |u| ==> 0 <= u[i] < 0x10000
  {
    if s == [] then [] else Units(s[0]) + Utf16Units(s[1..])
  }

  /** Big-endian bytes of code units, as in `key.encode("utf-16-be")`. */
  function BigEndian(u: seq<int>): seq<int> {
    if u == [] then [] else [u[0] / 0x100, u[0] % 0x100] + BigEndian(u[1..])
  }

  function Utf16Be(s: Text): seq<int> { BigEndian(Utf16Units(s)) }

  /** Sorting by the encoded bytes is sorting by code units, as section 3.2.3 of RFC 8785 asks. */
  lemma {:induction false} ByteOrderIsUnitOrder(u: seq<int>, v: seq<int>)
    requires forall i :: 0 <= i < |u| ==> 0 <= u[i] < 0x10000
    requires forall i :: 0 <= i < |v| ==> 0 <= v[i] < 0x10000
    ensures LexLess(BigEndian(u), BigEndian(v)) <==> LexLess(u, v)
    ensures BigEndian(u) == BigEndian(v) ==> u == v
  {
    var a, b := BigEndian(u), BigEndian(v);
    if u != [] && v != [] {
      ByteOrderIsUnitOrder(u[1..], v[1..]);
      assert a[1..][1..] == BigEndian(u[1..]) && b[1..][1..] == BigEndian(v[1..]);
      assert u[0] == a[0] * 0x100 + a[1] && v[0] == b[0] * 0x100 + b[1];
      assert a[1..][0] == a[1] && b[1..][0] == b[1];
      assert LexLess(a[1..], b[1..]) <==> a[1] < b[1] || (a[1] == b[1] && LexLess(a[1..][1..], b[1..][1..]));
      assert u == [u[0]] + u[1..] && v == [v[0]] + v[1..];
    }
  }

  lemma UnitsPrefixFree(c: CodePoint, d: CodePoint, r: seq<int>, t: seq<int>)
    requires IsScalar(c) && IsScalar(d)
    requires Units(c) + r == Units(d) + t
    ensures c == d && r == t
  {
    var x, y := Units(c) + r, Units(d) + t;
    assert x[0] == Units(c)[0] && y[0] == Units(d)[0];
    assert |Units(c)| == |Units(d)|;
    assert Units(c) == x[..|Units(c)|] == y[..|Units(d)|] == Units(d);
    assert r == x[|Units(c)|..] == y[|Units(d)|..] == t;
  }

  lemma {:induction false} Utf16Injective(s: Text, t: Text)
    requires IsUnicode(s) && IsUnicode(t)
    requires Utf16Units(s) == Utf16Units(t)
    ensures s == t
  {
    assert s != [] ==> |Utf16Units(s)| >= |Units(s[0])| > 0;
    assert t != [] ==> |Utf16Units(t)| >= |Units(t[0])| > 0;
    if s != [] && t != [] {
      UnitsPrefixFree(s[0], t[0], Utf16Units(s[1..]), Utf16Units(t[1..]));
      Utf16Injective(s[1..], t[1..]);
      assert s == [s[0]] + s[1..] && t == [t[0]] + t[1..];
    }
  }

  /** The sort key of an object member. */
  predicate KeyLess(a: Text, b: Text) { LexLess(Utf16Be(a), Utf16Be(b)) }

  /** Keys are ordered by UTF-16 code units, totally and strictly. */
  lemma KeyOrder(a: Text, b: Text)
    requires IsUnicode(a) && IsUnicode(b)
    ensures KeyLess(a, b) <==> LexLess(Utf16Units(a), Utf16Units(b))
    ensures a == b || KeyLess(a, b) || KeyLess(b, a)
    ensures !KeyLess(a, a) && !(KeyLess(a, b) && KeyLess(b, a))
  {
    ByteOrderIsUnitOrder(Utf16Units(a), Utf16Units(b));
    ByteOrderIsUnitOrder(Utf16Units(b), Utf16Units(a));
    LexTotal(Utf16Be(a), Utf16Be(b));
    if Utf16Be(a) == Utf16Be(b) { Utf16Injective(a, b); }
  }
}
