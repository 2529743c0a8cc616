/** Signing plugin manifests over their canonical text, with an abstract signature scheme. */
module ManifestSigning {
  import opened Text
  import opened Canonical
  import opened CanonicalOrder
  import opened CanonicalReadable

  const MANIFEST_SIGNATURE_ALG := "ed25519"

  // Keys and signatures are hexadecimal text; `verify` is `None` when the host raises an error.
  datatype Scheme = Scheme(
    publicOf: string -> string,
    sign: (string, string) -> string,
    verify: (string, string, string) -> Option<bool>)

  predicate IsHex(s: string, length: nat) {
    |s| == length && forall i :: 0 <= i < |s| ==> IsDigit(s[i]) || 'a' <= s[i] <= 'f'
  }

  // What a scheme makes it also accepts, in the format of the manifest.
  ghost predicate SchemeLaw(scheme: Scheme) {
    forall key: string, payload: string ::
      var public, sig := scheme.publicOf(key), scheme.sign(key, payload);
      IsHex(public, 64) && IsHex(sig, 128) && scheme.verify(public, payload, sig) == Some(true)
  }

  datatype Reason =
    | NotAnObject | NoSignatureObject | UnsupportedAlg | BadPublicKey | BadValue | DoesNotVerify | VerificationFailed

  datatype VerifyResult = Verified(publicKey: string) | Rejected(reason: Reason)

  function Field(ms: seq<Member>, key: string): Option<Json> {
    if ms == [] then None
    else if ms[0].key == key then Some(ms[0].value)
    else Field(ms[1..], key)
  }

  function StripSignature(ms: seq<Member>): seq<Member> {
    if ms == [] then []
    else (if ms[0].key == "signature" then [] else [ms[0]]) + StripSignature(ms[1..])
  }

  // The text that is signed.
  function Payload(num: Numerals, ms: seq<Member>): string {
    Canon(num, JObj(StripSignature(ms)))
  }

  // `signManifest`
  function SignManifest(num: Numerals, scheme: Scheme, ms: seq<Member>, privateKey: string): Json {
    JObj([Member("alg", JStr(MANIFEST_SIGNATURE_ALG)),
          Member("publicKey", JStr(scheme.publicOf(privateKey))),
          Member("value", JStr(scheme.sign(privateKey, Payload(num, ms))))])
  }

  // `verifyManifestSignature`
  function VerifyManifestSignature(num: Numerals, scheme: Scheme, manifest: Json): VerifyResult {
    if !manifest.JObj? then Rejected(NotAnObject)
    else
      match Field(manifest.members, "signature")
      case Some(JObj(sig)) => CheckBlock(num, scheme, manifest.members, sig)
      case _ => Rejected(NoSignatureObject)
  }

  function CheckBlock(num: Numerals, scheme: Scheme, ms: seq<Member>, sig: seq<Member>): VerifyResult {
    var alg, public, value := Field(sig, "alg"), Field(sig, "publicKey"), Field(sig, "value");
    if alg != Some(JStr(MANIFEST_SIGNATURE_ALG)) then Rejected(UnsupportedAlg)
    else if public.None? || !public.value.JStr? || !IsHex(public.value.s, 64) then Rejected(BadPublicKey)
    else if value.None? || !value.value.JStr? || !IsHex(value.value.s, 128) then Rejected(BadValue)
    else
      match scheme.verify(public.value.s, Payload(num, ms), value.value.s)
      case None => Rejected(VerificationFailed)
      case Some(valid) => if valid then Verified(public.value.s) else Rejected(DoesNotVerify)
  }

  // ----- Fields and stripping, as values -----

  lemma {:induction false} FieldIs(ms: seq<Member>, key: string)
    ensures Field(ms, key).Some? <==> key in DenoteMembers(ms)
    ensures Field(ms, key).Some? ==> Denote(Field(ms, key).value) == DenoteMembers(ms)[key]
  {
    hide Denote;
    if ms != [] {
      FieldIs(ms[1..], key);
    }
  }

  lemma {:induction false} FieldProper(num: Numerals, ms: seq<Member>, key: string)
    requires forall i :: 0 <= i < |ms| ==> Proper(num, ms[i].value)
    ensures Field(ms, key).Some? ==> Proper(num, Field(ms, key).value)
  {
    hide Proper;
    if ms != [] {
      FieldProper(num, ms[1..], key);
    }
  }

  lemma {:induction false} StripMembers(ms: seq<Member>)
    ensures forall m :: m in StripSignature(ms) <==> m in ms && m.key != "signature"
  {
    if ms != [] {
      StripMembers(ms[1..]);
      assert ms == [ms[0]] + ms[1..];
    }
  }

  lemma {:induction false} StripDistinct(ms: seq<Member>)
    requires DistinctKeys(ms)
    ensures DistinctKeys(StripSignature(ms))
  {
    if ms != [] {
      StripDistinct(ms[1..]);
      StripMembers(ms[1..]);
      var rest := StripSignature(ms[1..]);
      assert forall i :: 0 <= i < |rest| ==> rest[i] in ms[1..];
    }
  }

  lemma {:induction false} StripDenotes(ms: seq<Member>)
    ensures DenoteMembers(StripSignature(ms)) == DenoteMembers(ms) - {"signature"}
  {
    hide Denote;
    if ms != [] {
      StripDenotes(ms[1..]);
      var rest := StripSignature(ms[1..]);
      if ms[0].key == "signature" {
        assert StripSignature(ms) == rest;
      } else {
        assert StripSignature(ms) == [ms[0]] + rest && ([ms[0]] + rest)[1..] == rest;
      }
    }
  }

  lemma StripProper(num: Numerals, ms: seq<Member>)
    requires Proper(num, JObj(ms))
    ensures Proper(num, JObj(StripSignature(ms)))
  {
    StripMembers(ms);
    StripDistinct(ms);
    var rest := StripSignature(ms);
    assert forall i :: 0 <= i < |rest| ==> rest[i] in ms;
  }

  // ----- The signed text and the value -----

  // Manifests have the same signed text exactly when they are the same value apart from their
  // signature fields.
  lemma PayloadIff(num: Numerals, a: seq<Member>, b: seq<Member>)
    requires NumeralLaw(num) && Proper(num, JObj(a)) && Proper(num, JObj(b))
    ensures Payload(num, a) == Payload(num, b) <==>
            DenoteMembers(a) - {"signature"} == DenoteMembers(b) - {"signature"}
  {
    hide NumeralLaw, Canon, DenoteMembers, StripSignature;
    StripProper(num, a);
    StripProper(num, b);
    StripDenotes(a);
    StripDenotes(b);
    CanonIff(num, JObj(StripSignature(a)), JObj(StripSignature(b)));
  }

  // A string field is determined by the value.
  lemma StringField(a: seq<Member>, b: seq<Member>, key: string)
    requires DenoteMembers(a) == DenoteMembers(b)
    ensures Field(a, key).Some? <==> Field(b, key).Some?
    ensures Field(a, key).Some? ==> (Field(a, key).value.JStr? <==> Field(b, key).value.JStr?)
    ensures Field(a, key).Some? && Field(a, key).value.JStr? ==> Field(a, key) == Field(b, key)
  {
    hide DenoteMembers, Field;
    FieldIs(a, key);
    FieldIs(b, key);
  }

  // Verification sees the value only: any reordering of members, at any depth, changes nothing.
  lemma VerificationIsOfTheValue(num: Numerals, scheme: Scheme, v: Json, w: Json)
    requires NumeralLaw(num) && Proper(num, v) && Proper(num, w) && Denote(v) == Denote(w)
    ensures VerifyManifestSignature(num, scheme, v) == VerifyManifestSignature(num, scheme, w)
  {
    hide NumeralLaw, Proper, Field, CheckBlock, DenoteMembers, DenoteItems;
    if v.JObj? {
      var a, b := v.members, w.members;
      PayloadIff(num, a, b);
      FieldIs(a, "signature");
      FieldIs(b, "signature");
      var s, t := Field(a, "signature"), Field(b, "signature");
      if s.Some? && s.value.JObj? {
        BlocksAgree(num, scheme, a, b, s.value.members, t.value.members);
      }
    }
  }

  lemma BlocksAgree(num: Numerals, scheme: Scheme, a: seq<Member>, b: seq<Member>, s: seq<Member>, t: seq<Member>)
    requires Payload(num, a) == Payload(num, b) && DenoteMembers(s) == DenoteMembers(t)
    ensures CheckBlock(num, scheme, a, s) == CheckBlock(num, scheme, b, t)
  {
    hide Payload, DenoteMembers, Field, IsHex;
    StringField(s, t, "alg");
    StringField(s, t, "publicKey");
    StringField(s, t, "value");
  }

  // A signed manifest verifies under the signer's key: whatever order its members are written
  // in, and whatever signature it carried when it was signed.
  lemma SignedVerifies(num: Numerals, scheme: Scheme, ms: seq<Member>, privateKey: string, signed: Json)
    requires NumeralLaw(num) && SchemeLaw(scheme) && Proper(num, JObj(ms)) && Proper(num, signed)
    requires Denote(signed) == VObj(DenoteMembers(ms)["signature" := Denote(SignManifest(num, scheme, ms, privateKey))])
    ensures VerifyManifestSignature(num, scheme, signed) == Verified(scheme.publicOf(privateKey))
  {
    var block := SignManifest(num, scheme, ms, privateKey);
    BlockFields(num, scheme, ms, privateKey);
    assert Denote(block) == VObj(DenoteMembers(block.members));
    hide NumeralLaw, Proper, Field, DenoteMembers, SignManifest, Payload, SchemeLaw, IsHex;
    assert DenoteMembers(signed.members) - {"signature"} == DenoteMembers(ms) - {"signature"};
    PayloadIff(num, signed.members, ms);
    FieldIs(signed.members, "signature");
    var sig := Field(signed.members, "signature").value.members;
    StringField(block.members, sig, "alg");
    StringField(block.members, sig, "publicKey");
    StringField(block.members, sig, "value");
    SchemeAccepts(scheme, privateKey, Payload(num, ms));
  }

  lemma SchemeAccepts(scheme: Scheme, key: string, payload: string)
    requires SchemeLaw(scheme)
    ensures IsHex(scheme.publicOf(key), 64) && IsHex(scheme.sign(key, payload), 128)
    ensures scheme.verify(scheme.publicOf(key), payload, scheme.sign(key, payload)) == Some(true)
  {
  }

  lemma BlockFields(num: Numerals, scheme: Scheme, ms: seq<Member>, privateKey: string)
    ensures var sig := SignManifest(num, scheme, ms, privateKey).members;
            && Field(sig, "alg") == Some(JStr(MANIFEST_SIGNATURE_ALG))
            && Field(sig, "publicKey") == Some(JStr(scheme.publicOf(privateKey)))
            && Field(sig, "value") == Some(JStr(scheme.sign(privateKey, Payload(num, ms))))
  {
    hide Payload;
    var sig := SignManifest(num, scheme, ms, privateKey).members;
    assert sig[1..][0] == sig[1] && sig[1..][1..][0] == sig[2];
    assert Field(sig, "publicKey") == Field(sig[1..], "publicKey");
    assert Field(sig, "value") == Field(sig[1..], "value") == Field(sig[1..][1..], "value");
  }

  // If a key accepts only the texts of some signed manifests, then a manifest that verifies
  // under it is one of them, apart from the order of members and the signature field.
  lemma VerifiedWasSigned(num: Numerals, scheme: Scheme, publicKey: string, signed: seq<seq<Member>>, manifest: Json)
    requires NumeralLaw(num) && Proper(num, manifest)
    requires forall i :: 0 <= i < |signed| ==> Proper(num, JObj(signed[i]))
    requires forall payload: string, sig: string ::
               scheme.verify(publicKey, payload, sig) == Some(true) ==>
                 exists i :: 0 <= i < |signed| && Payload(num, signed[i]) == payload
    requires VerifyManifestSignature(num, scheme, manifest) == Verified(publicKey)
    ensures exists i :: 0 <= i < |signed| &&
              DenoteMembers(signed[i]) - {"signature"} == DenoteMembers(manifest.members) - {"signature"}
  {
    hide NumeralLaw, Proper, Field, DenoteMembers, Payload, IsHex;
    var sig := Field(manifest.members, "signature").value.members;
    var value := Field(sig, "value").value.s;
    assert scheme.verify(publicKey, Payload(num, manifest.members), value) == Some(true);
    var i :| 0 <= i < |signed| && Payload(num, signed[i]) == Payload(num, manifest.members);
    PayloadIff(num, signed[i], manifest.members);
  }

  // ----- The signature block -----

  ghost predicate HexText(s: string, length: nat) {
    |s| == length && forall i :: 0 <= i < |s| ==> '0' <= s[i] <= '9' || 'a' <= s[i] <= 'f'
  }

  lemma HexIs(s: string, length: nat)
    ensures IsHex(s, length) <==> HexText(s, length)
  {
  }

  ghost predicate HexField(sig: map<string, Value>, key: string, length: nat) {
    key in sig && sig[key].VStr? && HexText(sig[key].s, length)
  }

  // What a verdict on an object with a signature block means.
  ghost function VerdictOn(scheme: Scheme, payload: string, sig: map<string, Value>): VerifyResult {
    if !("alg" in sig && sig["alg"] == VStr("ed25519")) then Rejected(UnsupportedAlg)
    else if !HexField(sig, "publicKey", 64) then Rejected(BadPublicKey)
    else if !HexField(sig, "value", 128) then Rejected(BadValue)
    else
      match scheme.verify(sig["publicKey"].s, payload, sig["value"].s)
      case None => Rejected(VerificationFailed)
      case Some(valid) => if valid then Verified(sig["publicKey"].s) else Rejected(DoesNotVerify)
  }

  lemma BlockVerdict(num: Numerals, scheme: Scheme, ms: seq<Member>, sig: seq<Member>)
    ensures CheckBlock(num, scheme, ms, sig) == VerdictOn(scheme, Payload(num, ms), DenoteMembers(sig))
  {
    FieldIs(sig, "alg");
    FieldIs(sig, "publicKey");
    FieldIs(sig, "value");
    hide Field, DenoteMembers, Payload, IsHex, HexText;
    AlgField(Field(sig, "alg"));
    if Field(sig, "publicKey").Some? && Field(sig, "publicKey").value.JStr? {
      HexIs(Field(sig, "publicKey").value.s, 64);
    }
    if Field(sig, "value").Some? && Field(sig, "value").value.JStr? {
      HexIs(Field(sig, "value").value.s, 128);
    }
  }

  lemma AlgField(f: Option<Json>)
    ensures f == Some(JStr("ed25519")) <==> f.Some? && Denote(f.value) == VStr("ed25519")
  {
  }

  // A manifest is an object with a signature object; the block must name the algorithm and carry a key
  // and a signature in lower-case hexadecimal, and the scheme must accept them for the canonical text.
  lemma VerifyMeans(num: Numerals, scheme: Scheme, manifest: Json)
    ensures VerifyManifestSignature(num, scheme, manifest) ==
            if !manifest.JObj? then Rejected(NotAnObject)
            else
              var fields := DenoteMembers(manifest.members);
              if "signature" in fields && fields["signature"].VObj?
              then VerdictOn(scheme, Payload(num, manifest.members), fields["signature"].members)
              else Rejected(NoSignatureObject)
  {
    if manifest.JObj? {
      FieldIs(manifest.members, "signature");
      hide Field, DenoteMembers, Payload, CheckBlock, VerdictOn;
      match Field(manifest.members, "signature")
      case Some(JObj(sig)) => BlockVerdict(num, scheme, manifest.members, sig);
      case _ =>
    }
  }

  // The block that is made for a manifest.
  lemma SignedBlockIs(num: Numerals, scheme: Scheme, ms: seq<Member>, privateKey: string)
    ensures Denote(SignManifest(num, scheme, ms, privateKey)) == VObj(map[
              "alg" := VStr("ed25519"), "publicKey" := VStr(scheme.publicOf(privateKey)),
              "value" := VStr(scheme.sign(privateKey, Payload(num, ms)))])
  {
    hide Payload;
    var a, b, c := JStr(MANIFEST_SIGNATURE_ALG), JStr(scheme.publicOf(privateKey)), JStr(scheme.sign(privateKey, Payload(num, ms)));
    ThreeMembers(Member("alg", a), Member("publicKey", b), Member("value", c));
  }

  lemma ThreeMembers(a: Member, b: Member, c: Member)
    requires a.key != b.key && a.key != c.key && b.key != c.key
    ensures DenoteMembers([a, b, c]) == map[a.key := Denote(a.value), b.key := Denote(b.value), c.key := Denote(c.value)]
  {
    hide Denote;
    var ms := [a, b, c];
    assert ms[1..] == [b, c] && [b, c][1..] == [c] && [c][1..] == [];
    assert DenoteMembers([c]) == map[c.key := Denote(c.value)];
    assert DenoteMembers([b, c]) == map[b.key := Denote(b.value), c.key := Denote(c.value)];
  }
}
