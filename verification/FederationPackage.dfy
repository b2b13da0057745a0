/** Federation packages: creation, signature, verification and preview. */
module FederationPackage {
  import opened Wrappers
  import opened Sequences
  import opened Records

  // ----- Visibility -------------------------------------------------------------------------

  datatype Visibility = Private | Trusted | Project | Organization | Community | Federated | Public

  function Rank(v: Visibility): nat {
    match v
    case Private => 0
    case Trusted => 1
    case Project => 2
    case Organization => 3
    case Community => 4
    case Federated => 5
    case Public => 6
  }

  datatype PackageRecord = PackageRecord(
    recordId: string, visibilityHint: Option<string>, layer: Option<int>, referenceOnly: bool,
    warnings: seq<string>, body: Json)

  datatype Mapping = Mapping(
    recordId: string, sourceVisibility: string, layer: Option<int>, recommended: Visibility, rationale: string)

  /** The classification layer decides first, then the visibility hint. */
  function MappingFor(r: PackageRecord): Mapping {
    var source := if r.visibilityHint.Some? then r.visibilityHint.value else "unknown";
    if r.layer.Some? && r.layer.value >= 4 then
      Mapping(r.recordId, source, r.layer, Private, "restricted_secret_records_stay_private")
    else if r.layer.Some? && r.layer.value >= 3 then
      Mapping(r.recordId, source, r.layer, Trusted, "sensitive_context_requires_trusted_sharing")
    else if r.layer == Some(2) then
      Mapping(r.recordId, source, r.layer, Organization, "internal_context_maps_to_organization_scope")
    else if r.layer == Some(1) then
      Mapping(r.recordId, source, r.layer, Federated, "shareable_context_maps_to_federated_scope")
    else if source == "private" then
      Mapping(r.recordId, source, r.layer, Private, "private_visibility_hint_stays_private")
    else if source == "sensitive" then
      Mapping(r.recordId, source, r.layer, Trusted, "sensitive_visibility_hint_limits_sharing")
    else if source == "public" then
      Mapping(r.recordId, source, r.layer, Public, "public_visibility_hint_can_remain_public")
    else
      Mapping(r.recordId, source, r.layer, Federated, "default_unknown_visibility_maps_to_reviewable_federated_scope")
  }

  /** A layer of at least 1 overrides the hint; public needs a public hint and no such layer. */
  lemma MappingMeans(r: PackageRecord)
    ensures var v := MappingFor(r).recommended;
            var classified := r.layer.Some? && r.layer.value >= 1;
            (v == Public <==> !classified && r.visibilityHint == Some("public"))
            && (v == Private <==>
                  (classified && r.layer.value >= 4) || (!classified && r.visibilityHint == Some("private")))
            && (v == Trusted <==>
                  (classified && r.layer.value == 3) || (!classified && r.visibilityHint == Some("sensitive")))
            && (v == Organization <==> classified && r.layer.value == 2)
            && v != Project && v != Community
            && MappingFor(r).recordId == r.recordId
  {
    assert |"private"| == 7 && |"sensitive"| == 9 && |"public"| == 6 && "unknown"[0] == 'u' && "private"[0] == 'p';
    assert |"unknown"| == 7;
  }

  lemma ClassifiedRank(r: PackageRecord, layer: int)
    requires layer >= 1
    ensures Rank(MappingFor(r.(layer := Some(layer))).recommended) ==
              if layer >= 4 then 0 else if layer == 3 then 1 else if layer == 2 then 3 else 5
  {
  }

  /** The hint alone recommends less than the layer does. */
  predicate HintNarrower(hint: Option<string>, layer: int) {
    (hint == Some("private") && layer <= 3) || (hint == Some("sensitive") && layer <= 2)
  }

  lemma UnclassifiedRank(r: PackageRecord)
    requires r.layer.None? || r.layer.value < 1
    ensures Rank(MappingFor(r).recommended) ==
              if r.visibilityHint == Some("private") then 0
              else if r.visibilityHint == Some("sensitive") then 1
              else if r.visibilityHint == Some("public") then 6 else 5
  {
    MappingMeans(r);
    assert |"private"| == 7 && |"sensitive"| == 9 && |"public"| == 6;
  }

  /**
   * Raising a record's layer widens its recommendation in one case only: it had no layer, or layer
   * 0, and the first layer that counts takes the place of a private or sensitive hint.
   */
  lemma RaisedLayerWidens(r: PackageRecord, low: Option<int>, high: int)
    requires low.Some? ==> low.value <= high
    ensures var before, after := MappingFor(r.(layer := low)).recommended,
              MappingFor(r.(layer := Some(high))).recommended;
            Rank(after) > Rank(before) <==>
            (low.None? || low.value < 1) && 1 <= high && HintNarrower(r.visibilityHint, high)
  {
    if high >= 1 {
      ClassifiedRank(r, high);
    } else {
      UnclassifiedRank(r.(layer := Some(high)));
    }
    if low.Some? && low.value >= 1 {
      ClassifiedRank(r, low.value);
    } else {
      UnclassifiedRank(r.(layer := low));
    }
    assert |"private"| == 7 && |"sensitive"| == 9;
  }

  /** Some record's recommendation ranks below `v`: the check made when a package is created. */
  ghost predicate Broader(v: Visibility, mappings: seq<Mapping>) {
    exists m :: m in mappings && Rank(v) > Rank(m.recommended)
  }

  /** The recommendation for a whole package: the first lowest one, or federated for no records. */
  method RecommendedVisibility(mappings: seq<Mapping>) returns (v: Visibility)
    ensures mappings == [] ==> v == Federated
    ensures mappings != [] ==> (exists m :: m in mappings && m.recommended == v)
    ensures forall m :: m in mappings ==> Rank(v) <= Rank(m.recommended)
  {
    if mappings == [] {
      return Federated;
    }
    v := mappings[0].recommended;
    for i := 1 to |mappings|
      invariant exists m :: m in mappings && m.recommended == v
      invariant forall j :: 0 <= j < i ==> Rank(v) <= Rank(mappings[j].recommended)
    {
      if Rank(mappings[i].recommended) < Rank(v) {
        v := mappings[i].recommended;
        assert mappings[i] in mappings;
      }
    }
  }

  /** The boundary check's test against the package recommendation. */
  method BroaderThanRecommended(v: Visibility, mappings: seq<Mapping>) returns (warn: bool)
    ensures mappings != [] ==> (warn <==> Broader(v, mappings))
    ensures mappings == [] ==> (warn <==> v == Public)
  {
    var recommended := RecommendedVisibility(mappings);
    warn := Rank(v) > Rank(recommended);
  }

  /** On an empty record list creation never warns, the boundary check does for public only. */
  lemma EmptyListDisagreement(v: Visibility)
    ensures !Broader(v, [])
    ensures Rank(v) > Rank(Federated) <==> v == Public
  {
  }

  /** Lowering the visibility never brings the warning back. */
  lemma WarningFreeIsDownwardClosed(v: Visibility, w: Visibility, mappings: seq<Mapping>)
    requires !Broader(v, mappings) && Rank(w) <= Rank(v)
    ensures !Broader(w, mappings)
  {
    forall m | m in mappings ensures Rank(w) <= Rank(m.recommended) {
      assert !(Rank(v) > Rank(m.recommended));
    }
  }

  // ----- Manifests ----------------------------------------------------------------------------

  datatype SignatureStatus = Unsigned | Signed | Mismatch | Expired | Revoked

  datatype Signature = Signature(
    algorithm: string, keyId: string, value: string, status: SignatureStatus, signedAt: Option<nat>,
    expiresAt: Option<nat>, revokedAt: Option<nat>, revocationReason: Option<string>)

  datatype Consent = Consent(
    status: string, grantedBy: string, recordedAt: Option<nat>, purpose: string, scope: string,
    thirdPartyAllowed: bool, thirdPartyReason: Option<string>)

  datatype Retention = Retention(expiresAt: Option<string>, revocable: bool)

  datatype FileEntry = FileEntry(path: string, sha256: string)

  /** Every manifest field the signature covers, but for the signature's own. */
  datatype Terms = Terms(
    schemaVersion: string, packageId: string, chronicleId: string, createdAt: nat, createdByNode: string,
    targetNode: string, purpose: string, visibility: Visibility, sourceRoot: string, toolVersion: string,
    referencedRecords: seq<string>, warnings: set<string>, files: seq<FileEntry>, retention: Retention,
    notes: seq<string>, metadata: map<string, string>)

  datatype Manifest = Manifest(terms: Terms, consent: Consent, signature: Signature)

  /** What is signed: the terms, and the signature block without its value. */
  datatype Payload = Payload(terms: Terms, signatureMeta: Signature)

  function PayloadOf(terms: Terms, s: Signature): Payload {
    Payload(terms, s.(value := ""))
  }

  datatype Report = Report(
    recordCount: nat, referenceOnly: seq<string>, mappings: seq<Mapping>, warningCodes: set<string>)

  // ----- Digests and encodings ------------------------------------------------------------------

  datatype Content =
    | RecordsFile(records: seq<PackageRecord>)
    | ReportFile(report: Report)
    | ReadmeFile(purpose: string, targetNode: string, visibility: Visibility, referenced: nat)
    | ManifestFile(manifest: Manifest)
    | OtherFile(text: string)

  /** SHA-256 of files, SHA-256 of text, and the canonical JSON encoding of a signed payload. */
  datatype Codec = Codec(fileDigest: Content -> string, digest: string -> string, encode: Payload -> string)

  ghost predicate Injective<A(!new), B>(f: A -> B) {
    forall x, y :: f(x) == f(y) ==> x == y
  }

  /** Collision-free digests, and an unambiguous encoding that is a JSON object. */
  ghost predicate Sound(c: Codec) {
    Injective(c.fileDigest) && Injective(c.digest) && Injective(c.encode)
    && forall p :: |c.encode(p)| > 0 && c.encode(p)[0] == '{'
  }

  const DEV_KEY := "chronicle-local-dev-signing-key"
  const ROTATED_KEY := "chronicle-local-dev-signing-key-rotated"

  function SigningKey(keyId: string): Option<string> {
    if keyId == "local-dev-key" then Some(DEV_KEY)
    else if keyId == "local-dev-rotated" then Some(ROTATED_KEY)
    else None
  }

  const ALGORITHM := "local-dev-sha256"

  function SignatureValue(c: Codec, terms: Terms, s: Signature, key: string): string {
    c.digest(key + c.encode(PayloadOf(terms, s)))
  }

  /**
   * Key and payload can be told apart in their concatenation, although one key is a prefix of
   * the other.
   */
  lemma ConcatenationUnambiguous(c: Codec, k1: string, p1: Payload, k2: string, p2: Payload)
    requires Sound(c) && k1 in {DEV_KEY, ROTATED_KEY} && k2 in {DEV_KEY, ROTATED_KEY}
    requires k1 + c.encode(p1) == k2 + c.encode(p2)
    ensures k1 == k2 && p1 == p2
  {
    assert |DEV_KEY| == 31 && |ROTATED_KEY| == 39 && ROTATED_KEY[31] == '-';
    assert (k1 + c.encode(p1))[31] == (k2 + c.encode(p2))[31];
    assert k1 == DEV_KEY ==> (k1 + c.encode(p1))[31] == '{';
    assert k2 == DEV_KEY ==> (k2 + c.encode(p2))[31] == '{';
    assert (k1 + c.encode(p1))[|k1|..] == c.encode(p1);
    assert (k2 + c.encode(p2))[|k2|..] == c.encode(p2);
  }

  lemma SignatureValueDecides(c: Codec, t1: Terms, s1: Signature, k1: string, t2: Terms, s2: Signature, k2: string)
    requires Sound(c) && k1 in {DEV_KEY, ROTATED_KEY} && k2 in {DEV_KEY, ROTATED_KEY}
    ensures SignatureValue(c, t1, s1, k1) == SignatureValue(c, t2, s2, k2)
            <==> k1 == k2 && PayloadOf(t1, s1) == PayloadOf(t2, s2)
  {
    if SignatureValue(c, t1, s1, k1) == SignatureValue(c, t2, s2, k2) {
      ConcatenationUnambiguous(c, k1, PayloadOf(t1, s1), k2, PayloadOf(t2, s2));
    }
  }

  // ----- Creating ---------------------------------------------------------------------------------

  datatype PackageError =
    | DirNotFound | ManifestNotFound | ManifestInvalid | ReportUnreadable | SignatureKeyUnknown(keyId: string)

  /** The context package that is wrapped, as `build_context_package` hands it over. */
  datatype ContextPackage = ContextPackage(
    packageId: string, chronicleId: string, sourceRoot: string, toolVersion: string, records: seq<PackageRecord>,
    referencedRecords: seq<string>, warnings: set<string>, kind: string, outputClassification: string,
    metadata: map<string, string>)

  datatype CreateArgs = CreateArgs(
    purpose: string, targetNode: string, createdByNode: string, visibility: Visibility, signed: bool,
    keyId: string, expiresAt: Option<nat>, revoked: bool, revocationReason: Option<string>,
    consentGrantedBy: string, consentRecordedAt: Option<nat>, consentScope: string,
    thirdPartyAllowed: bool, thirdPartyReason: Option<string>)

  const BROADER := "package_visibility_broader_than_recommended"

  function Mappings(records: seq<PackageRecord>): seq<Mapping> {
    Map(MappingFor, records)
  }

  function RecordWarnings(records: seq<PackageRecord>): set<string> {
    set r, w | r in records && w in r.warnings :: w
  }

  function ReferenceId(): PackageRecord -> seq<string> {
    (r: PackageRecord) => if r.referenceOnly then [r.recordId] else []
  }

  ghost function ReportFor(v: Visibility, source: ContextPackage): Report {
    var mappings := Mappings(source.records);
    Report(|source.records|, FlatMap(ReferenceId(), source.records), mappings,
           source.warnings + RecordWarnings(source.records) + (if Broader(v, mappings) then {BROADER} else {}))
  }

  type Directory = map<string, Content>

  const RECORDS := "records.jsonl"
  const REPORT := "redaction-report.json"
  const README := "README.md"
  const MANIFEST := "manifest.json"

  ghost function PayloadFiles(a: CreateArgs, source: ContextPackage): Directory {
    map[RECORDS := RecordsFile(source.records), REPORT := ReportFile(ReportFor(a.visibility, source)),
        README := ReadmeFile(a.purpose, a.targetNode, a.visibility, |source.referencedRecords|)]
  }

  function EntryFor(c: Codec, path: string, content: Content): FileEntry {
    FileEntry(path, c.fileDigest(content))
  }

  /** The wrapped package's metadata with its kind and classification. */
  function PackageMetadata(source: ContextPackage): map<string, string> {
    source.metadata["integration_package_kind" := source.kind]["output_classification" := source.outputClassification]
  }

  ghost function NewTerms(c: Codec, a: CreateArgs, source: ContextPackage, now: nat): Terms {
    var files := PayloadFiles(a, source);
    Terms("federation-manifest/v0.1", source.packageId, source.chronicleId, now, a.createdByNode, a.targetNode,
          a.purpose, a.visibility, source.sourceRoot, source.toolVersion, source.referencedRecords, source.warnings,
          [EntryFor(c, RECORDS, files[RECORDS]), EntryFor(c, REPORT, files[REPORT]),
           EntryFor(c, README, files[README])],
          Retention(None, true),
          ["Package stays local-first and reviewable before any transport decision.",
           "Signature is a placeholder until a later signed-manifest phase."],
          PackageMetadata(source))
  }

  function NewConsent(a: CreateArgs): Consent {
    Consent(if a.consentGrantedBy != "" then "recorded" else "not_recorded", a.consentGrantedBy, a.consentRecordedAt,
            a.purpose, a.consentScope, a.thirdPartyAllowed, a.thirdPartyReason)
  }

  /** The signature block, or the reason it cannot be made. */
  function BuildSignature(c: Codec, a: CreateArgs, terms: Terms, now: nat): Result<Signature, PackageError> {
    if !a.signed then Success(Signature("placeholder", a.keyId, "", Unsigned, None, a.expiresAt, None, None))
    else if SigningKey(a.keyId).None? then Failure(SignatureKeyUnknown(a.keyId))
    else
      var block := Signature(ALGORITHM, a.keyId, "", if a.revoked then Revoked else Signed, Some(now), a.expiresAt,
                             if a.revoked then Some(now) else None, if a.revoked then a.revocationReason else None);
      Success(block.(value := SignatureValue(c, terms, block, SigningKey(a.keyId).value)))
  }

  /** The directory a creation leaves: an unknown key stops it after the payload files. */
  ghost function Created(c: Codec, before: Directory, a: CreateArgs, source: ContextPackage, now: nat)
    : (Directory, Result<Manifest, PackageError>)
  {
    var written := before + PayloadFiles(a, source);
    var terms := NewTerms(c, a, source, now);
    var signature := BuildSignature(c, a, terms, now);
    if signature.Failure? then (written, Failure(signature.error))
    else
      var manifest := Manifest(terms, NewConsent(a), signature.value);
      (written[MANIFEST := ManifestFile(manifest)], Success(manifest))
  }

  // ----- Verifying --------------------------------------------------------------------------------

  datatype Checked = Checked(path: string, expected: string, actual: Option<string>, present: bool, matches: bool)

  datatype Verification = Verification(status: SignatureStatus, valid: bool, files: seq<Checked>, warnings: seq<string>)

  function Load(dir: Option<Directory>): Result<Manifest, PackageError> {
    if dir.None? then Failure(DirNotFound)
    else if MANIFEST !in dir.value then Failure(ManifestNotFound)
    else if !dir.value[MANIFEST].ManifestFile? then Failure(ManifestInvalid)
    else Success(dir.value[MANIFEST].manifest)
  }

  /** Status and warning, in the order of the tests: unsigned, revoked, expired, key, algorithm, value. */
  function VerifySignature(c: Codec, m: Manifest, now: nat): (SignatureStatus, seq<string>) {
    var s := m.signature;
    if s.status == Unsigned then (Unsigned, ["signature_unsigned"])
    else if s.status == Revoked then (Revoked, ["signature_revoked"])
    else if s.expiresAt.Some? && s.expiresAt.value < now then (Expired, ["signature_expired"])
    else if SigningKey(s.keyId).None? then (Mismatch, ["signature_key_unknown"])
    else if s.algorithm != ALGORITHM then (Mismatch, ["signature_algorithm_unsupported"])
    else if SignatureValue(c, m.terms, s, SigningKey(s.keyId).value) != s.value then (Mismatch, ["signature_mismatch"])
    else (Signed, [])
  }

  /** The listed file is there with the listed digest. */
  predicate Intact(c: Codec, dir: Directory, entry: FileEntry) {
    entry.path in dir && c.fileDigest(dir[entry.path]) == entry.sha256
  }

  function CheckFile(c: Codec, dir: Directory): FileEntry -> Checked {
    (entry: FileEntry) =>
      Checked(entry.path, entry.sha256, if entry.path in dir then Some(c.fileDigest(dir[entry.path])) else None,
              entry.path in dir, Intact(c, dir, entry))
  }

  /** The verdict: every listed file intact and the signature absent or good. */
  ghost predicate Valid(c: Codec, dir: Directory, m: Manifest, now: nat) {
    && (forall entry :: entry in m.terms.files ==> Intact(c, dir, entry))
    && (VerifySignature(c, m, now).0 == Unsigned || VerifySignature(c, m, now).0 == Signed)
  }

  method VerifyPackage(c: Codec, dir: Option<Directory>, now: nat) returns (r: Result<Verification, PackageError>)
    ensures Load(dir).Failure? ==> r == Failure(Load(dir).error)
    ensures Load(dir).Success? ==>
              r.Success? && var m := Load(dir).value;
              r.value.valid == Valid(c, dir.value, m, now)
              && (r.value.status, r.value.warnings) == VerifySignature(c, m, now)
              && r.value.files == Map(CheckFile(c, dir.value), m.terms.files)
  {
    var loaded := Load(dir);
    if loaded.Failure? {
      return Failure(loaded.error);
    }
    var m := loaded.value;
    var checked: seq<Checked> := [];
    var allMatch := true;
    for i := 0 to |m.terms.files|
      invariant checked == Map(CheckFile(c, dir.value), m.terms.files[..i])
      invariant allMatch <==> forall j :: 0 <= j < i ==> Intact(c, dir.value, m.terms.files[j])
    {
      var entry := m.terms.files[i];
      checked := checked + [CheckFile(c, dir.value)(entry)];
      allMatch := allMatch && Intact(c, dir.value, entry);
    }
    assert m.terms.files[..|m.terms.files|] == m.terms.files;
    var signature := VerifySignature(c, m, now);
    var valid := allMatch && (signature.0 == Unsigned || signature.0 == Signed);
    r := Success(Verification(signature.0, valid, checked, signature.1));
  }

  lemma NamesDiffer()
    ensures RECORDS != REPORT && RECORDS != README && RECORDS != MANIFEST
    ensures REPORT != README && REPORT != MANIFEST && README != MANIFEST
  {
    assert |RECORDS| == 13 && |REPORT| == 21 && |README| == 9 && |MANIFEST| == 13;
    assert RECORDS[0] == 'r' && MANIFEST[0] == 'm';
  }

  // ----- The service that writes ---------------------------------------------------------------------

  class PackageDirectory {
    var files: Directory

    /** Steps in the order of the code: payload files, digests, signature, manifest. */
    method CreatePackage(c: Codec, a: CreateArgs, source: ContextPackage, now: nat)
        returns (r: Result<Manifest, PackageError>)
      modifies this
      ensures (files, r) == Created(c, old(files), a, source, now)
    {
      WritePayload(a, source);
      NamesDiffer();
      var terms := Terms("federation-manifest/v0.1", source.packageId, source.chronicleId, now, a.createdByNode,
        a.targetNode, a.purpose, a.visibility, source.sourceRoot, source.toolVersion, source.referencedRecords,
        source.warnings,
        [EntryFor(c, RECORDS, files[RECORDS]), EntryFor(c, REPORT, files[REPORT]), EntryFor(c, README, files[README])],
        Retention(None, true),
        ["Package stays local-first and reviewable before any transport decision.",
         "Signature is a placeholder until a later signed-manifest phase."],
        PackageMetadata(source));
      assert terms == NewTerms(c, a, source, now);
      var signature := BuildSignature(c, a, terms, now);
      if signature.Failure? {
        return Failure(signature.error);
      }
      var manifest := Manifest(terms, NewConsent(a), signature.value);
      files := files[MANIFEST := ManifestFile(manifest)];
      r := Success(manifest);
    }

    method WritePayload(a: CreateArgs, source: ContextPackage)
      modifies this
      ensures files == old(files) + PayloadFiles(a, source)
    {
      var mappings := Mappings(source.records);
      var broader := exists m :: m in mappings && Rank(a.visibility) > Rank(m.recommended);
      var referenceOnly := ReferenceOnly(source.records);
      var report := Report(|source.records|, referenceOnly, mappings,
        source.warnings + RecordWarnings(source.records) + (if broader then {BROADER} else {}));
      NamesDiffer();
      files := files[RECORDS := RecordsFile(source.records)];
      files := files[REPORT := ReportFile(report)];
      files := files[README := ReadmeFile(a.purpose, a.targetNode, a.visibility, |source.referencedRecords|)];
    }

    method ReferenceOnly(records: seq<PackageRecord>) returns (ids: seq<string>)
      ensures ids == FlatMap(ReferenceId(), records)
    {
      ids := [];
      for i := 0 to |records|
        invariant ids == FlatMap(ReferenceId(), records[..i])
      {
        FlatMapStep(ReferenceId(), records, i);
        if records[i].referenceOnly {
          ids := ids + [records[i].recordId];
        }
      }
      assert records[..|records|] == records;
    }
  }
}
