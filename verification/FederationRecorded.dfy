/** What a created package holds, field by field and file by file. */
module FederationRecorded {
  import opened Wrappers
  import opened Sequences
  import opened Records
  import opened FederationPackage

  // ----- Visibility -------------------------------------------------------------------------------

  /** Visibilities from the narrowest to the broadest. */
  lemma RankOrder()
    ensures Rank(Private) < Rank(Trusted) < Rank(Visibility.Project) < Rank(Organization)
            < Rank(Community) < Rank(Federated) < Rank(Public)
  {
  }

  /** What a mapping says of its record beside the recommendation. */
  lemma MappingSays(r: PackageRecord)
    ensures var m := MappingFor(r);
            m.recordId == r.recordId && m.layer == r.layer
            && m.sourceVisibility == match r.visibilityHint { case Some(hint) => hint case None => "unknown" }
  {
  }

  /** The rationale names the rule that decided. */
  lemma MappingRationale(r: PackageRecord)
    ensures var m := MappingFor(r);
            (m.rationale == "restricted_secret_records_stay_private" <==> r.layer.Some? && r.layer.value >= 4)
            && (m.rationale == "sensitive_context_requires_trusted_sharing" <==> r.layer == Some(3))
            && (m.rationale == "internal_context_maps_to_organization_scope" <==> r.layer == Some(2))
            && (m.rationale == "shareable_context_maps_to_federated_scope" <==> r.layer == Some(1))
  {
    assert |"restricted_secret_records_stay_private"| == 38;
  }

  /** Without a layer that counts it names the hint. */
  lemma HintRationale(r: PackageRecord)
    requires r.layer.None? || r.layer.value < 1
    ensures r.visibilityHint == Some("private") ==> MappingFor(r).rationale == "private_visibility_hint_stays_private"
    ensures r.visibilityHint == Some("sensitive") ==>
              MappingFor(r).rationale == "sensitive_visibility_hint_limits_sharing"
    ensures r.visibilityHint == Some("public") ==>
              MappingFor(r).rationale == "public_visibility_hint_can_remain_public"
  {
    assert |"private"| == 7 && |"sensitive"| == 9 && |"public"| == 6;
  }

  /** With another hint, or none, the default decides. */
  lemma DefaultRationale(r: PackageRecord)
    requires r.layer.None? || r.layer.value < 1
    requires r.visibilityHint.Some? ==> r.visibilityHint.value !in {"private", "sensitive", "public"}
    ensures MappingFor(r).rationale == "default_unknown_visibility_maps_to_reviewable_federated_scope"
  {
    assert |"private"| == 7 && |"sensitive"| == 9 && |"public"| == 6 && |"unknown"| == 7;
    assert "unknown"[0] == 'u' && "private"[0] == 'p';
  }

  // ----- Files ------------------------------------------------------------------------------------

  /** The report counts the records, lists the reference-only ones and maps each record's visibility. */
  ghost predicate ReportsOn(report: Report, records: seq<PackageRecord>) {
    && report.recordCount == |records| == |report.mappings|
    && (forall i :: 0 <= i < |records| ==> report.mappings[i] == MappingFor(records[i]))
    && (forall id :: id in report.referenceOnly <==> exists r :: r in records && r.referenceOnly && r.recordId == id)
  }

  /** Some record should be shared less broadly than this. */
  ghost predicate TooBroad(v: Visibility, records: seq<PackageRecord>) {
    exists r :: r in records && Rank(MappingFor(r).recommended) < Rank(v)
  }

  ghost predicate Warns(code: string, v: Visibility, source: ContextPackage) {
    || code in source.warnings
    || (exists r :: r in source.records && code in r.warnings)
    || (code == "package_visibility_broader_than_recommended" && TooBroad(v, source.records))
  }

  /** The redaction report of a package. */
  lemma ReportAsCreated(v: Visibility, source: ContextPackage)
    ensures ReportsOn(ReportFor(v, source), source.records)
    ensures forall code :: code in ReportFor(v, source).warningCodes <==> Warns(code, v, source)
  {
    ReferenceOnlyIds(source.records);
    BroaderIsTooBroad(v, source.records);
  }

  lemma {:induction false} ReferenceOnlyIds(records: seq<PackageRecord>)
    ensures forall id :: id in FlatMap(ReferenceId(), records) <==>
              exists r :: r in records && r.referenceOnly && r.recordId == id
  {
    forall id | true
      ensures id in FlatMap(ReferenceId(), records) <==> exists r :: r in records && r.referenceOnly && r.recordId == id
    {
      FlatMapMember(ReferenceId(), records, id);
    }
  }

  lemma BroaderIsTooBroad(v: Visibility, records: seq<PackageRecord>)
    ensures Broader(v, Mappings(records)) <==> TooBroad(v, records)
  {
    var mappings := Mappings(records);
    if Broader(v, mappings) {
      var i :| 0 <= i < |mappings| && Rank(v) > Rank(mappings[i].recommended);
      assert records[i] in records && mappings[i] == MappingFor(records[i]);
    }
    if TooBroad(v, records) {
      var i :| 0 <= i < |records| && Rank(MappingFor(records[i]).recommended) < Rank(v);
      assert mappings[i] in mappings;
    }
  }

  ghost predicate PayloadWritten(dir: Directory, a: CreateArgs, source: ContextPackage) {
    && "records.jsonl" in dir && dir["records.jsonl"] == RecordsFile(source.records)
    && "redaction-report.json" in dir && dir["redaction-report.json"] == ReportFile(ReportFor(a.visibility, source))
    && "README.md" in dir
    && dir["README.md"] == ReadmeFile(a.purpose, a.targetNode, a.visibility, |source.referencedRecords|)
  }

  predicate Holds(dir: Directory, path: string, content: Content) {
    path in dir && dir[path] == content
  }

  ghost predicate SameAt(before: Directory, dir: Directory, path: string) {
    (path in before <==> path in dir) && (path in before ==> dir[path] == before[path])
  }

  /**
   * A creation writes the three payload files and, if it succeeds, the manifest it returns. It touches
   * no other file. An unknown key stops it before the manifest is written.
   */
  lemma FilesAsCreated(c: Codec, before: Directory, a: CreateArgs, source: ContextPackage, now: nat)
    ensures var (dir, r) := Created(c, before, a, source, now);
            PayloadWritten(dir, a, source)
            && (r.Success? ==> Holds(dir, "manifest.json", ManifestFile(r.value)))
            && (r.Failure? ==> SameAt(before, dir, "manifest.json") && r == Failure(SignatureKeyUnknown(a.keyId)))
            && (forall path :: path !in {"records.jsonl", "redaction-report.json", "README.md", "manifest.json"} ==>
                  SameAt(before, dir, path))
            && (r.Success? <==> !a.signed || a.keyId == "local-dev-key" || a.keyId == "local-dev-rotated")
  {
    NamesDiffer();
  }

  // ----- The manifest -----------------------------------------------------------------------------

  /** The manifest's terms are those of the request and of the wrapped package. */
  lemma TermsAsAsked(c: Codec, before: Directory, a: CreateArgs, source: ContextPackage, now: nat)
    requires Created(c, before, a, source, now).1.Success?
    ensures var t := Created(c, before, a, source, now).1.value.terms;
            t.purpose == a.purpose && t.targetNode == a.targetNode && t.createdByNode == a.createdByNode
            && t.visibility == a.visibility && t.createdAt == now && t.packageId == source.packageId
            && t.chronicleId == source.chronicleId && t.sourceRoot == source.sourceRoot
            && t.toolVersion == source.toolVersion && t.referencedRecords == source.referencedRecords
            && t.warnings == source.warnings && t.schemaVersion == "federation-manifest/v0.1"
            && t.retention == Retention(None, true)
  {
  }

  /** The metadata are the wrapped package's, with its kind and classification under their own keys. */
  lemma MetadataAsAsked(source: ContextPackage, key: string)
    ensures var m := PackageMetadata(source);
            HasEntry(m, "integration_package_kind", source.kind)
            && HasEntry(m, "output_classification", source.outputClassification)
            && (key != "integration_package_kind" && key != "output_classification" ==>
                  (key in m <==> key in source.metadata) && (key in m ==> m[key] == source.metadata[key]))
  {
    assert |"integration_package_kind"| == 24 && |"output_classification"| == 21;
  }

  predicate HasEntry(m: map<string, string>, key: string, value: string) {
    key in m && m[key] == value
  }

  /** Consent is recorded exactly when somebody granted it. */
  lemma ConsentAsAsked(c: Codec, before: Directory, a: CreateArgs, source: ContextPackage, now: nat)
    requires Created(c, before, a, source, now).1.Success?
    ensures var consent := Created(c, before, a, source, now).1.value.consent;
            (consent.status == "recorded" <==> a.consentGrantedBy != "")
            && (consent.status == "not_recorded" <==> a.consentGrantedBy == "")
            && consent.grantedBy == a.consentGrantedBy && consent.recordedAt == a.consentRecordedAt
            && consent.purpose == a.purpose && consent.scope == a.consentScope
            && consent.thirdPartyAllowed == a.thirdPartyAllowed && consent.thirdPartyReason == a.thirdPartyReason
  {
    assert |"recorded"| == 8 && |"not_recorded"| == 12;
  }

  /** The key that signs under an id. */
  ghost predicate SignsUnder(keyId: string, key: string) {
    || (keyId == "local-dev-key" && key == "chronicle-local-dev-signing-key")
    || (keyId == "local-dev-rotated" && key == "chronicle-local-dev-signing-key-rotated")
  }

  lemma SigningKeyMeans(keyId: string, key: string)
    ensures SigningKey(keyId) == Some(key) <==> SignsUnder(keyId, key)
  {
    assert |"local-dev-key"| == 13 && |"local-dev-rotated"| == 17;
  }

  /** The block of a signed package, and what its value is the digest of. */
  lemma SignedAsAsked(c: Codec, before: Directory, a: CreateArgs, source: ContextPackage, now: nat, key: string)
    requires a.signed && SignsUnder(a.keyId, key)
    ensures var r := Created(c, before, a, source, now).1;
            r.Success? && var s, t := r.value.signature, r.value.terms;
            s.algorithm == "local-dev-sha256" && s.keyId == a.keyId && s.signedAt == Some(now)
            && s.expiresAt == a.expiresAt && s.status == (if a.revoked then Revoked else Signed)
            && s.revokedAt == (if a.revoked then Some(now) else None)
            && s.revocationReason == (if a.revoked then a.revocationReason else None)
            && s.value == c.digest(key + c.encode(Payload(t, s.(value := ""))))
  {
    SigningKeyMeans(a.keyId, key);
  }

  lemma UnsignedAsAsked(c: Codec, before: Directory, a: CreateArgs, source: ContextPackage, now: nat)
    requires !a.signed
    ensures var r := Created(c, before, a, source, now).1;
            r.Success?
            && r.value.signature == Signature("placeholder", a.keyId, "", Unsigned, None, a.expiresAt, None, None)
  {
  }

  // ----- Verification -----------------------------------------------------------------------------

  /** A signature block that is neither unsigned nor revoked nor past its expiry. */
  predicate InForce(s: Signature, now: nat) {
    s.status != Unsigned && s.status != Revoked && (s.expiresAt.Some? ==> now <= s.expiresAt.value)
  }

  /** A manifest verifies as signed exactly when its value is the digest of its terms under its key. */
  lemma SignedMeans(c: Codec, m: Manifest, now: nat)
    ensures VerifySignature(c, m, now).0 == Signed <==>
              InForce(m.signature, now) && m.signature.algorithm == "local-dev-sha256"
              && exists key :: SignsUnder(m.signature.keyId, key)
                   && m.signature.value == c.digest(key + c.encode(Payload(m.terms, m.signature.(value := ""))))
  {
    var s := m.signature;
    forall key | true ensures SigningKey(s.keyId) == Some(key) <==> SignsUnder(s.keyId, key) {
      SigningKeyMeans(s.keyId, key);
    }
    if SigningKey(s.keyId).Some? {
      assert SignsUnder(s.keyId, SigningKey(s.keyId).value);
    }
  }

  /** What the verification reports of a listed file. */
  lemma CheckedAsListed(c: Codec, dir: Directory, entry: FileEntry)
    ensures var checked := CheckFile(c, dir)(entry);
            checked.path == entry.path && checked.expected == entry.sha256
            && (checked.present <==> entry.path in dir)
            && (checked.actual.Some? <==> entry.path in dir)
            && (entry.path in dir ==> checked.actual == Some(c.fileDigest(dir[entry.path])))
            && (checked.matches <==> checked.actual.Some? && checked.actual.value == checked.expected)
  {
    assert CheckFile(c, dir)(entry).matches <==> Intact(c, dir, entry);
  }

  /** Each verdict but the good one comes with one warning. */
  lemma VerdictWarnings(c: Codec, m: Manifest, now: nat)
    ensures var (status, warnings) := VerifySignature(c, m, now);
            match status
            case Signed => warnings == []
            case Unsigned => warnings == ["signature_unsigned"] && m.signature.status == Unsigned
            case Revoked => warnings == ["signature_revoked"] && m.signature.status == Revoked
            case Expired => warnings == ["signature_expired"] && !InForce(m.signature, now)
            case Mismatch =>
              if m.signature.keyId !in {"local-dev-key", "local-dev-rotated"} then warnings == ["signature_key_unknown"]
              else if m.signature.algorithm != "local-dev-sha256" then warnings == ["signature_algorithm_unsupported"]
              else warnings == ["signature_mismatch"]
  {
  }
}
