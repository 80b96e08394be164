/** What an update manifest's signature and fingerprint cover (`update_manifest.py`, `update_engine.py`). */
module ManifestPayload {
  import opened Prelude
  import opened Encoding
  import opened CanonicalJson

  const SIGNATURE: Text := Ascii("signature")

  /** Ed25519 signatures are 64 bytes; the parser rejects all others. */
  const SIGNATURE_BYTES := 64

  function WithoutSignature(fields: seq<Field>): (r: seq<Field>)
    ensures forall f :: f in r <==> f in fields && f.key != SIGNATURE
  {
    if fields == [] then []
    else (if fields[0].key == SIGNATURE then [] else [fields[0]]) + WithoutSignature(fields[1..])
  }

  /** `manifest_signing_payload`; None stands for a missing signature or a value that cannot be canonicalized. */
  function SigningPayload(root: seq<Field>): Option<seq<int>> {
    if HasKey(root, SIGNATURE) then Canonicalize(Obj(WithoutSignature(root))) else None
  }

  /** `_manifest_fingerprint`: a digest of the payload followed by the signature. */
  function Fingerprint(digest: seq<int> -> string, payload: seq<int>, signature: seq<int>): string {
    digest(payload + signature)
  }

  /** Two documents that are the same dictionary once the signature field is taken out. */
  ghost predicate SameUnsigned(a: seq<Field>, b: seq<Field>) {
    SameValue(Obj(WithoutSignature(a)), Obj(WithoutSignature(b)))
  }

  /** The payload fixes every signed field and ignores only the order of the fields. */
  lemma PayloadIsExact(a: seq<Field>, b: seq<Field>)
    requires SigningPayload(a).Some? && SigningPayload(b).Some?
    ensures SigningPayload(a) == SigningPayload(b) <==> SameUnsigned(a, b)
  {
    CanonicalizeIsExact(Obj(WithoutSignature(a)), Obj(WithoutSignature(b)));
  }

  ghost predicate CollisionFree(digest: seq<int> -> string) {
    forall x, y :: digest(x) == digest(y) ==> x == y
  }

  /** Under a collision-free digest, one fingerprint means one signed content and one signature. */
  lemma FingerprintIsExact(digest: seq<int> -> string, a: seq<Field>, b: seq<Field>, s: seq<int>, t: seq<int>)
    requires CollisionFree(digest)
    requires SigningPayload(a).Some? && SigningPayload(b).Some?
    requires |s| == |t| == SIGNATURE_BYTES
    ensures Fingerprint(digest, SigningPayload(a).value, s) == Fingerprint(digest, SigningPayload(b).value, t)
       <==> SameUnsigned(a, b) && s == t
  {
    var p, q := SigningPayload(a).value, SigningPayload(b).value;
    PayloadIsExact(a, b);
    if p + s == q + t {
      assert |p| == |q|;
      assert p == (p + s)[..|p|] == (q + t)[..|q|] == q;
      assert s == (p + s)[|p|..] == (q + t)[|q|..] == t;
    }
  }

  lemma {:induction false} WithoutSignatureIsStable(fields: seq<Field>)
    requires forall i :: 0 <= i < |fields| ==> fields[i].key != SIGNATURE
    ensures WithoutSignature(fields) == fields
  {
    if fields != [] {
      WithoutSignatureIsStable(fields[1..]);
      assert fields == [fields[0]] + fields[1..];
    }
  }

  lemma {:induction false} WithoutAppended(fields: seq<Field>, last: Field)
    requires last.key == SIGNATURE
    ensures WithoutSignature(fields + [last]) == WithoutSignature(fields)
  {
    if fields == [] {
      assert fields + [last] == [last] && [last][1..] == [];
    } else {
      assert (fields + [last])[1..] == fields[1..] + [last];
      WithoutAppended(fields[1..], last);
    }
  }

  // ---------------------------------------------------------------- the cached copy

  /** `document["signature"] = ...` on a decoded payload. */
  function WithSignature(decoded: seq<Field>, signature: Text): seq<Field> {
    decoded + [Field(SIGNATURE, Str(signature))]
  }

  /** What `_persist_manifest` writes; None if the document could not be printed. */
  function CachedBytes(decoded: seq<Field>, signature: Text): Option<seq<int>> {
    var document := Obj(WithSignature(decoded, signature));
    if Allowed(document) then Some(Utf8(Serialize(AsciiOnly, document))) else None
  }

  lemma {:induction false} WithoutIsAllowed(fields: seq<Field>)
    requires Allowed(Obj(fields))
    ensures Allowed(Obj(WithoutSignature(fields)))
  {
    if fields != [] {
      var rest := fields[1..];
      assert Allowed(Obj(rest));
      WithoutIsAllowed(rest);
      forall f | f in WithoutSignature(rest) ensures f.key != fields[0].key {
        assert f in rest;
        var i :| 0 <= i < |rest| && rest[i] == f;
        assert fields[i + 1] == f;
      }
    }
  }

  /** Leaving out the signature respects equality of dictionaries. */
  lemma WithoutRespectsSameValue(a: seq<Field>, b: seq<Field>)
    requires SameValue(Obj(a), Obj(b))
    ensures SameUnsigned(a, b)
  {
    KeysRemain(a, b);
    KeysRemain(b, a);
    var x, y := WithoutSignature(a), WithoutSignature(b);
    forall i, j | 0 <= i < |x| && 0 <= j < |y| && x[i].key == y[j].key ensures SameValue(x[i].value, y[j].value) {
      assert x[i] in x && y[j] in y;
      SameFieldValue(a, b, x[i], y[j]);
    }
    DictionariesAreSame(x, y);
  }

  lemma SameFieldValue(a: seq<Field>, b: seq<Field>, f: Field, g: Field)
    requires SameValue(Obj(a), Obj(b)) && f in a && g in b && f.key == g.key
    ensures SameValue(f.value, g.value)
  {
    var k :| 0 <= k < |a| && a[k] == f;
    var l :| 0 <= l < |b| && b[l] == g;
  }

  lemma DictionariesAreSame(x: seq<Field>, y: seq<Field>)
    requires forall i :: 0 <= i < |x| ==> HasKey(y, x[i].key)
    requires forall j :: 0 <= j < |y| ==> HasKey(x, y[j].key)
    requires forall i, j :: 0 <= i < |x| && 0 <= j < |y| && x[i].key == y[j].key ==> SameValue(x[i].value, y[j].value)
    ensures SameValue(Obj(x), Obj(y))
  {
  }

  lemma KeysRemain(a: seq<Field>, b: seq<Field>)
    requires forall i :: 0 <= i < |a| ==> HasKey(b, a[i].key)
    ensures forall i :: 0 <= i < |WithoutSignature(a)| ==> HasKey(WithoutSignature(b), WithoutSignature(a)[i].key)
  {
    var x, y := WithoutSignature(a), WithoutSignature(b);
    forall i | 0 <= i < |x| ensures HasKey(y, x[i].key) {
      assert x[i] in a;
      var k :| 0 <= k < |a| && a[k] == x[i];
      assert HasKey(b, a[k].key);
      var l :| 0 <= l < |b| && b[l].key == a[k].key;
      assert b[l] in y;
      var m :| 0 <= m < |y| && y[m] == b[l];
    }
  }

  /** The decoded payload is a dictionary without a signature, equal to the manifest's unsigned fields; the signature
      fits into it, and the document can be printed. */
  lemma DecodedPayload(root: seq<Field>, decoded: Json, signature: Text)
    requires SigningPayload(root).Some? && ReadsAs(SigningPayload(root).value, decoded) && IsUnicode(signature)
    ensures decoded.Obj? && !HasKey(decoded.fields, SIGNATURE) && Allowed(decoded)
    ensures Canonicalize(decoded) == SigningPayload(root)
    ensures CachedBytes(decoded.fields, signature).Some?
  {
    DecodedIsUnsigned(root, decoded);
    SignatureIsLeftOut(root, decoded.fields);
    SignedIsAllowed(decoded.fields, signature);
  }

  lemma DecodedIsUnsigned(root: seq<Field>, decoded: Json)
    requires SigningPayload(root).Some? && ReadsAs(SigningPayload(root).value, decoded)
    ensures decoded.Obj? && SameValue(decoded, Obj(WithoutSignature(root)))
    ensures Allowed(decoded) && Canonicalize(decoded) == SigningPayload(root)
  {
    var unsigned := Obj(WithoutSignature(root));
    CanonicalReads(unsigned);
    ReadingIsUnique(SigningPayload(root).value, decoded, unsigned);
    SerializeRespectsSameValue(Canonical, decoded, unsigned);
  }

  lemma CanonicalReads(v: Json)
    requires Canonicalize(v).Some?
    ensures ReadsAs(Canonicalize(v).value, v)
  {
    assert Utf8(Serialize(Canonical, v)) == Canonicalize(v).value;
  }

  lemma SignatureIsLeftOut(root: seq<Field>, fields: seq<Field>)
    requires SameValue(Obj(fields), Obj(WithoutSignature(root)))
    ensures !HasKey(fields, SIGNATURE)
  {
    var rest := WithoutSignature(root);
    assert forall i :: 0 <= i < |rest| ==> rest[i] in rest;
    assert !HasKey(rest, SIGNATURE);
  }

  lemma SignedIsAllowed(fields: seq<Field>, signature: Text)
    requires Allowed(Obj(fields)) && !HasKey(fields, SIGNATURE) && IsUnicode(signature)
    ensures Allowed(Obj(WithSignature(fields, signature)))
  {
    var document := WithSignature(fields, signature);
    forall i, j | 0 <= i < j < |document| ensures document[i].key != document[j].key {
      if j == |fields| { assert fields[i].key != SIGNATURE; }
    }
  }

  /** `_persist_manifest` and a later reading of its file, for every manifest: decode the signing payload, put the
      signature back, print with `json.dumps`, read again. Nothing in it can fail, the re-read document is a dictionary
      with the same signature, and it has the signing payload of the original, so the signature stays valid and the
      comparison of fingerprints always succeeds. */
  lemma CachedCopyKeepsPayload(root: seq<Field>, decoded: Json, signature: Text, reread: Json)
    requires SigningPayload(root).Some? && ReadsAs(SigningPayload(root).value, decoded) && IsUnicode(signature)
    requires decoded.Obj? && CachedBytes(decoded.fields, signature).Some? ==>
               ReadsAs(CachedBytes(decoded.fields, signature).value, reread)
    ensures decoded.Obj? && !HasKey(decoded.fields, SIGNATURE) && CachedBytes(decoded.fields, signature).Some?
    ensures reread.Obj? && SigningPayload(reread.fields) == SigningPayload(root)
    ensures HasKey(reread.fields, SIGNATURE)
    ensures forall f :: f in reread.fields && f.key == SIGNATURE ==> f.value == Str(signature)
  {
    DecodedPayload(root, decoded, signature);
    var document := WithSignature(decoded.fields, signature);
    ReadingIsUnique(CachedBytes(decoded.fields, signature).value, Obj(document), reread);
    SignatureSurvives(decoded.fields, signature, reread.fields);
    PayloadSurvives(decoded.fields, signature, reread.fields);
  }

  lemma SignatureSurvives(decoded: seq<Field>, signature: Text, reread: seq<Field>)
    requires SameValue(Obj(WithSignature(decoded, signature)), Obj(reread))
    ensures HasKey(reread, SIGNATURE) && forall f :: f in reread && f.key == SIGNATURE ==> f.value == Str(signature)
  {
    var document := WithSignature(decoded, signature);
    assert document[|decoded|] == Field(SIGNATURE, Str(signature));
    forall f | f in reread && f.key == SIGNATURE ensures f.value == Str(signature) {
      var j :| 0 <= j < |reread| && reread[j] == f;
      assert SameValue(document[|decoded|].value, reread[j].value);
    }
  }

  lemma PayloadSurvives(decoded: seq<Field>, signature: Text, reread: seq<Field>)
    requires Allowed(Obj(decoded)) && !HasKey(decoded, SIGNATURE) && Allowed(Obj(reread)) && HasKey(reread, SIGNATURE)
    requires SameValue(Obj(WithSignature(decoded, signature)), Obj(reread))
    ensures SigningPayload(reread) == Canonicalize(Obj(decoded))
  {
    assert forall i :: 0 <= i < |decoded| ==> decoded[i].key != SIGNATURE;
    WithoutAppended(decoded, Field(SIGNATURE, Str(signature)));
    WithoutSignatureIsStable(decoded);
    WithoutIsAllowed(reread);
    WithoutRespectsSameValue(WithSignature(decoded, signature), reread);
    CanonicalizeIsExact(Obj(decoded), Obj(WithoutSignature(reread)));
  }
}
