/** Promotion of the beta channel pointer (`scripts/validate_channel_promotion.py`). */
module Promotion {
  import opened Prelude
  import opened SemVer

  /** JSON values as far as the check looks at them. */
  datatype Value = Whole(n: int) | Flag(b: bool) | Text(s: string) | Other(id: nat)

  /** A decoded object: the five fields that the check reads, where present, and all others. */
  datatype Document = Document(schema: Option<Value>, channel: Option<Value>, keyId: Option<Value>,
                               signature: Option<Value>, version: Option<Value>, others: map<string, Value>)

  /** Python counts `True` and `False` as 1 and 0, also when it compares dictionaries. */
  function Plain(v: Option<Value>): Option<Value> {
    if v.Some? && v.value.Flag? then Some(Whole(if v.value.b then 1 else 0)) else v
  }

  predicate Alike(a: Document, b: Document) {
    && Plain(a.schema) == Plain(b.schema) && Plain(a.channel) == Plain(b.channel) && Plain(a.keyId) == Plain(b.keyId)
    && Plain(a.signature) == Plain(b.signature) && Plain(a.version) == Plain(b.version)
    && a.others.Keys == b.others.Keys
    && forall k :: k in a.others ==> Plain(Some(a.others[k])) == Plain(Some(b.others[k]))
  }

  predicate IsText(v: Option<Value>) { v.Some? && v.value.Text? }

  /** `_beta_version`; None stands for its errors. */
  function BetaVersion(d: Document): Option<Version> {
    if Plain(d.schema) != Some(Whole(1)) || d.channel != Some(Text("beta")) then None
    else if !IsText(d.keyId) || !IsText(d.signature) || !IsText(d.version) then None
    else
      var v := Parse(d.version.value.s);
      if v.Some? && v.value.prerelease != [] then v else None
  }

  lemma BetaIsValid(d: Document)
    ensures BetaVersion(d).Some? ==> Valid(BetaVersion(d).value)
  {
    if BetaVersion(d).Some? { PrintParse(d.version.value.s); }
  }

  /** `validate_promotion`. */
  predicate Accepts(candidate: Document, current: Option<Document>, exactMatch: Option<bool>) {
    BetaVersion(candidate).Some? &&
    (current.Some? ==>
       && BetaVersion(current.value).Some?
       && var next, now := BetaVersion(candidate).value, BetaVersion(current.value).value;
       && !Less(next, now)
       && (Same(next, now) ==> if exactMatch.Some? then exactMatch.value else Alike(candidate, current.value)))
  }

  /** A published pointer: the file's bytes and the object they decode to. */
  datatype Pointer = Pointer(bytes: seq<int>, document: Document)

  /** Pointer `i` was checked against the one it replaced, as the command line does it or as a direct caller may. */
  ghost predicate Checked(history: seq<Pointer>, byBytes: bool, i: nat)
    requires i < |history|
  {
    if i == 0 then Accepts(history[0].document, None, None)
    else
      var exact := if byBytes then Some(history[i].bytes == history[i - 1].bytes) else None;
      Accepts(history[i].document, Some(history[i - 1].document), exact)
  }

  ghost predicate Promoted(history: seq<Pointer>, byBytes: bool) {
    forall i :: 0 <= i < |history| ==> Checked(history, byBytes, i)
  }

  ghost predicate Identical(a: Pointer, b: Pointer, byBytes: bool) {
    if byBytes then a.bytes == b.bytes else Alike(a.document, b.document)
  }

  predicate Announces(p: Pointer) { BetaVersion(p.document).Some? }

  /** The version that a pointer announces, if it does. */
  function VersionOf(p: Pointer): Version {
    match BetaVersion(p.document)
    case Some(v) => v
    case None => Version(0, 0, 0, [], [])
  }

  /** What the check of one pointer establishes. */
  lemma CheckedFacts(history: seq<Pointer>, byBytes: bool, i: nat)
    requires Promoted(history, byBytes) && i < |history|
    ensures Announces(history[i])
    ensures i > 0 ==>
              && Announces(history[i - 1])
              && !Below(history[i], history[i - 1])
              && (Level(history[i], history[i - 1]) ==> Identical(history[i - 1], history[i], byBytes))
  {
    assert Checked(history, byBytes, i);
  }

  predicate Below(a: Pointer, b: Pointer) { Less(VersionOf(a), VersionOf(b)) }

  predicate Level(a: Pointer, b: Pointer) { Same(VersionOf(a), VersionOf(b)) }

  lemma NotBelowItself(p: Pointer)
    requires Announces(p)
    ensures !Below(p, p)
  {
    BetaIsValid(p.document);
    PrecedenceTotal(VersionOf(p), VersionOf(p));
  }

  lemma NotBelowTransitive(p: Pointer, q: Pointer, r: Pointer)
    requires Announces(p) && Announces(q) && Announces(r)
    requires !Below(q, p) && !Below(r, q)
    ensures !Below(r, p)
    ensures Level(p, r) ==> Level(p, q) && Level(r, q)
  {
    BetaIsValid(p.document);
    BetaIsValid(q.document);
    BetaIsValid(r.document);
    NotLessTransitive(VersionOf(p), VersionOf(q), VersionOf(r));
  }

  lemma NotLessTransitive(a: Version, m: Version, b: Version)
    requires Valid(a) && Valid(m) && Valid(b)
    requires !Less(m, a) && !Less(b, m)
    ensures !Less(b, a)
    ensures Same(a, b) ==> Same(a, m) && Same(b, m)
  {
    PrecedenceTotal(a, m);
    PrecedenceTotal(m, b);
    PrecedenceTotal(a, b);
    if Less(a, m) && Less(m, b) {
      PrecedenceTransitive(a, m, b);
    } else if Same(a, m) {
      SameRespectsLess(a, m, b);
    } else {
      SameRespectsLess(m, b, a);
    }
  }

  /** Over a whole history the precedence never falls, however many promotions lie between. */
  lemma {:induction false} PrecedenceNeverFalls(history: seq<Pointer>, byBytes: bool, i: nat, j: nat)
    requires Promoted(history, byBytes) && i <= j < |history|
    ensures Announces(history[i]) && Announces(history[j])
    ensures !Below(history[j], history[i])
  {
    CheckedFacts(history, byBytes, i);
    CheckedFacts(history, byBytes, j);
    if i == j {
      NotBelowItself(history[i]);
    } else {
      PrecedenceNeverFalls(history, byBytes, i, j - 1);
      CheckedFacts(history, byBytes, j - 1);
      NotBelowTransitive(history[i], history[j - 1], history[j]);
    }
  }

  /** Two pointers of the same precedence, however far apart, are one and the same. */
  lemma {:induction false} EqualPrecedenceIsOnePointer(history: seq<Pointer>, byBytes: bool, i: nat, j: nat)
    requires Promoted(history, byBytes) && i <= j < |history|
    requires Announces(history[i]) && Announces(history[j])
    requires Level(history[i], history[j])
    ensures Identical(history[i], history[j], byBytes)
  {
    if i < j {
      PrecedenceNeverFalls(history, byBytes, i, j - 1);
      CheckedFacts(history, byBytes, i);
      CheckedFacts(history, byBytes, j - 1);
      CheckedFacts(history, byBytes, j);
      NotBelowTransitive(history[i], history[j - 1], history[j]);
      EqualPrecedenceIsOnePointer(history, byBytes, i, j - 1);
      IdenticalTransitive(history[i], history[j - 1], history[j], byBytes);
    }
  }

  lemma IdenticalTransitive(a: Pointer, m: Pointer, b: Pointer, byBytes: bool)
    requires Identical(a, m, byBytes) && Identical(m, b, byBytes)
    ensures Identical(a, b, byBytes)
  {
  }
}
