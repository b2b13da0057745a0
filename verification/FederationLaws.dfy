/** Round trips over time, tamper detection and previews of federation packages. */
module FederationLaws {
  import opened Wrappers
  import opened Sequences
  import opened FederationPackage

  /** What `verify_package` says of a directory at a time. */
  ghost predicate ValidAt(c: Codec, dir: Directory, now: nat) {
    Load(Some(dir)).Success? && Valid(c, dir, Load(Some(dir)).value, now)
  }

  ghost function StatusAt(c: Codec, dir: Directory, now: nat): SignatureStatus
    requires Load(Some(dir)).Success?
  {
    VerifySignature(c, Load(Some(dir)).value, now).0
  }

  // ----- The boundary check ----------------------------------------------------------------------

  const CONSENT_REQUIRED := "consent_required_for_external_handoff"

  /**
   * The preflight check, on the records a creation would use. With records it gives the warnings of
   * the creation's report and asks for consent; without any it warns about public visibility only.
   */
  method BoundaryCheck(v: Visibility, source: ContextPackage)
      returns (codes: set<string>, recommended: Visibility, pass: bool)
    ensures source.records != [] ==>
              codes == ReportFor(v, source).warningCodes + {"consent_required_for_external_handoff"}
    ensures source.records == [] ==>
              codes == ReportFor(v, source).warningCodes + (if v == Public then {BROADER} else {})
    ensures pass <==> source.records == [] && v != Public && ReportFor(v, source).warningCodes == {}
    ensures source.records != [] ==> !Broader(recommended, Mappings(source.records))
  {
    var mappings := Mappings(source.records);
    recommended := RecommendedVisibility(mappings);
    var broader := BroaderThanRecommended(v, mappings);
    codes := source.warnings + RecordWarnings(source.records) + (if broader then {BROADER} else {})
             + (if source.records != [] then {CONSENT_REQUIRED} else {});
    pass := codes == {};
  }

  // ----- Round trip -----------------------------------------------------------------------------

  lemma CreatedLoads(c: Codec, before: Directory, a: CreateArgs, source: ContextPackage, now: nat)
    requires Created(c, before, a, source, now).1.Success?
    ensures var (dir, r) := Created(c, before, a, source, now);
            Load(Some(dir)) == Success(r.value)
            && forall entry :: entry in r.value.terms.files ==> Intact(c, dir, entry)
  {
    NamesDiffer();
  }

  /**
   * An untouched package verifies at time `t` exactly when it is unsigned, or signed, not
   * revoked and not past its expiry. No assumption about the digests is needed.
   */
  lemma RoundTrip(c: Codec, before: Directory, a: CreateArgs, source: ContextPackage, now: nat, t: nat)
    requires Created(c, before, a, source, now).1.Success?
    ensures ValidAt(c, Created(c, before, a, source, now).0, t) <==>
              !a.signed || (!a.revoked && (a.expiresAt.Some? ==> t <= a.expiresAt.value))
  {
    CreatedLoads(c, before, a, source, now);
    var m := Created(c, before, a, source, now).1.value;
    if a.signed {
      SignedBlock(c, a, m.terms, now);
    }
  }

  lemma SignedBlock(c: Codec, a: CreateArgs, terms: Terms, now: nat)
    requires a.signed && SigningKey(a.keyId).Some?
    ensures var s := BuildSignature(c, a, terms, now).value;
            s.keyId == a.keyId && s.algorithm == ALGORITHM && s.expiresAt == a.expiresAt
            && s.status == (if a.revoked then Revoked else Signed)
            && SignatureValue(c, terms, s, SigningKey(a.keyId).value) == s.value
  {
    var s := BuildSignature(c, a, terms, now).value;
    var block := Signature(ALGORITHM, a.keyId, "", if a.revoked then Revoked else Signed, Some(now), a.expiresAt,
                           if a.revoked then Some(now) else None, if a.revoked then a.revocationReason else None);
    assert s == block.(value := s.value);
    assert PayloadOf(terms, s) == PayloadOf(terms, block);
  }

  /** Creation fails only for an unknown signing key. */
  lemma CreationSucceeds(c: Codec, before: Directory, a: CreateArgs, source: ContextPackage, now: nat)
    ensures Created(c, before, a, source, now).1.Success? <==> (!a.signed || SigningKey(a.keyId).Some?)
  {
  }

  /** For any package, untouched or not: once invalid, it stays invalid as time passes. */
  lemma ValidityNeverReturns(c: Codec, dir: Directory, t: nat, later: nat)
    requires t <= later && ValidAt(c, dir, later)
    ensures ValidAt(c, dir, t)
  {
    var m := Load(Some(dir)).value;
    assert VerifySignature(c, m, later).0 == Unsigned || VerifySignature(c, m, later).0 == Signed;
    assert VerifySignature(c, m, t).0 == VerifySignature(c, m, later).0;
  }

  /** A package created as revoked is valid at no time, whatever happens to its other files. */
  lemma RevokedIsNeverValid(c: Codec, before: Directory, a: CreateArgs, source: ContextPackage, now: nat,
                            other: Directory, t: nat)
    requires a.signed && a.revoked && Created(c, before, a, source, now).1.Success?
    requires Load(Some(other)) == Load(Some(Created(c, before, a, source, now).0))
    ensures !ValidAt(c, other, t)
  {
    CreatedLoads(c, before, a, source, now);
  }

  // ----- Tampering ---------------------------------------------------------------------------------

  /**
   * With the manifest kept, a changed directory verifies exactly when the original does and every
   * listed file is still there with its original content.
   */
  lemma FileTamperingIsDetected(c: Codec, before: Directory, a: CreateArgs, source: ContextPackage, now: nat,
                                other: Directory, t: nat)
    requires Sound(c) && Created(c, before, a, source, now).1.Success?
    requires Load(Some(other)) == Load(Some(Created(c, before, a, source, now).0))
    ensures var dir := Created(c, before, a, source, now).0;
            ValidAt(c, other, t) <==>
            ValidAt(c, dir, t)
            && forall path :: path in {RECORDS, REPORT, README} ==> path in other && other[path] == dir[path]
  {
    CreatedLoads(c, before, a, source, now);
    var (dir, r) := Created(c, before, a, source, now);
    var files := r.value.terms.files;
    CreatedFiles(c, before, a, source, now);
    SameFiles(c, dir, other, files);
    assert files[0] in files && files[1] in files && files[2] in files;
  }

  lemma CreatedFiles(c: Codec, before: Directory, a: CreateArgs, source: ContextPackage, now: nat)
    requires Created(c, before, a, source, now).1.Success?
    ensures var (dir, r) := Created(c, before, a, source, now);
            RECORDS in dir && REPORT in dir && README in dir
            && r.value.terms.files == [EntryFor(c, RECORDS, dir[RECORDS]), EntryFor(c, REPORT, dir[REPORT]),
                                       EntryFor(c, README, dir[README])]
  {
    NamesDiffer();
  }

  lemma SameFiles(c: Codec, dir: Directory, other: Directory, files: seq<FileEntry>)
    requires Sound(c) && forall entry :: entry in files ==> Intact(c, dir, entry)
    ensures forall entry :: entry in files ==>
              entry.path in dir
              && (Intact(c, other, entry) <==> entry.path in other && other[entry.path] == dir[entry.path])
  {
    forall entry | entry in files ensures entry.path in dir {
      assert Intact(c, dir, entry);
    }
  }

  /** Not past the expiry of its signature block. */
  predicate Live(s: Signature, now: nat) {
    s.expiresAt.Some? ==> now <= s.expiresAt.value
  }

  /**
   * Take a manifest that verifies as signed, and any other one that keeps the signature value. The
   * verdict on the other, from the tests in the code's order: a block marked unsigned is never
   * looked into; otherwise the block must not be revoked or past its expiry, and then it verifies
   * as signed exactly when every signed field, of the terms and of the block, is unchanged.
   */
  lemma ManifestTamperingIsDetected(c: Codec, m: Manifest, t: nat, other: Manifest, u: nat)
    requires Sound(c) && VerifySignature(c, m, t).0 == Signed
    requires other.signature.value == m.signature.value
    ensures VerifySignature(c, other, u).0 ==
              if other.signature.status == Unsigned then Unsigned
              else if other.signature.status == Revoked then Revoked
              else if !Live(other.signature, u) then Expired
              else if PayloadOf(other.terms, other.signature) == PayloadOf(m.terms, m.signature) then Signed
              else Mismatch
    ensures Accepted(c, other, u) <==>
              other.signature.status == Unsigned
              || (other.signature.status != Revoked && Live(other.signature, u)
                  && PayloadOf(other.terms, other.signature) == PayloadOf(m.terms, m.signature))
  {
    var s, o := m.signature, other.signature;
    if SigningKey(o.keyId).Some? && o.algorithm == ALGORITHM {
      SignatureValueDecides(c, other.terms, o, SigningKey(o.keyId).value, m.terms, s, SigningKey(s.keyId).value);
      assert PayloadOf(other.terms, o) == PayloadOf(m.terms, s) ==> o.(value := "").keyId == s.(value := "").keyId;
    }
    if PayloadOf(other.terms, o) == PayloadOf(m.terms, s) {
      assert o == o.(value := "").(value := o.value);
      assert s == s.(value := "").(value := s.value);
      assert o == s;
    }
  }

  /** The signature does not stand in the way of accepting the package. */
  predicate Accepted(c: Codec, m: Manifest, now: nat) {
    VerifySignature(c, m, now).0 == Unsigned || VerifySignature(c, m, now).0 == Signed
  }

  /**
   * The status field can undo a signature: marked unsigned, any created package is valid at all
   * times, revoked or expired as it may be, and its signature accepts any terms whatever.
   */
  lemma UnsignedStatusIsAccepted(c: Codec, before: Directory, a: CreateArgs, source: ContextPackage, now: nat,
                                 terms: Terms, t: nat)
    requires Created(c, before, a, source, now).1.Success?
    ensures var (dir, r) := Created(c, before, a, source, now);
            var unmarked := r.value.(signature := r.value.signature.(status := Unsigned));
            ValidAt(c, dir[MANIFEST := ManifestFile(unmarked)], t) && Accepted(c, unmarked.(terms := terms), t)
  {
    CreatedLoads(c, before, a, source, now);
    var (dir, r) := Created(c, before, a, source, now);
    NamesDiffer();
    var unmarked := r.value.(signature := r.value.signature.(status := Unsigned));
    var edited := dir[MANIFEST := ManifestFile(unmarked)];
    forall entry | entry in unmarked.terms.files ensures Intact(c, edited, entry) {
      assert Intact(c, dir, entry);
    }
  }

  /** Changing any signed field while keeping the signature block is a mismatch. */
  lemma TermsAreSigned(c: Codec, m: Manifest, t: nat, terms: Terms)
    requires Sound(c) && VerifySignature(c, m, t).0 == Signed && terms != m.terms
    ensures VerifySignature(c, m.(terms := terms), t).0 == Mismatch
  {
    ManifestTamperingIsDetected(c, m, t, m.(terms := terms), t);
  }

  lemma EditedStatusMismatch(c: Codec, a: CreateArgs, terms: Terms, now: nat, status: SignatureStatus)
    requires Sound(c) && a.signed && SigningKey(a.keyId).Some?
    ensures var s := BuildSignature(c, a, terms, now).value;
            SignatureValue(c, terms, s.(status := status), SigningKey(a.keyId).value) == s.value <==> status == s.status
  {
    SignedBlock(c, a, terms, now);
    var s, key := BuildSignature(c, a, terms, now).value, SigningKey(a.keyId).value;
    SignatureValueDecides(c, terms, s.(status := status), key, terms, s, key);
    assert PayloadOf(terms, s.(status := status)).signatureMeta.status == status;
    assert PayloadOf(terms, s).signatureMeta.status == s.status;
  }

  /**
   * Editing the status of a signed package, revoked or not, and nothing else: it is accepted exactly
   * when it is marked unsigned, or when it was not revoked, is still marked signed and has not
   * expired. So a revocation is undone by marking the package unsigned, and in no other way.
   */
  lemma EditedStatus(c: Codec, before: Directory, a: CreateArgs, source: ContextPackage, now: nat,
                     status: SignatureStatus, t: nat)
    requires Sound(c) && a.signed && Created(c, before, a, source, now).1.Success?
    ensures var m := Created(c, before, a, source, now).1.value;
            Accepted(c, m.(signature := m.signature.(status := status)), t) <==>
            status == Unsigned || (status == Signed && !a.revoked && (a.expiresAt.Some? ==> t <= a.expiresAt.value))
  {
    var m := Created(c, before, a, source, now).1.value;
    SignedBlock(c, a, m.terms, now);
    EditedStatusMismatch(c, a, m.terms, now, status);
  }

  /**
   * No edit of the manifest undoes a revocation but the mark: whatever else is changed while the
   * signature value is kept, a package created as revoked is accepted exactly when marked unsigned.
   */
  lemma EditedRevocation(c: Codec, before: Directory, a: CreateArgs, source: ContextPackage, now: nat,
                         other: Manifest, u: nat)
    requires Sound(c) && a.signed && a.revoked && Created(c, before, a, source, now).1.Success?
    requires other.signature.value == Created(c, before, a, source, now).1.value.signature.value
    ensures Accepted(c, other, u) <==> other.signature.status == Unsigned
  {
    var m, o := Created(c, before, a, source, now).1.value, other.signature;
    SignedBlock(c, a, m.terms, now);
    if SigningKey(o.keyId).Some? {
      var s := m.signature;
      SignatureValueDecides(c, other.terms, o, SigningKey(o.keyId).value, m.terms, s, SigningKey(a.keyId).value);
      assert PayloadOf(other.terms, o).signatureMeta.status == o.status;
      assert PayloadOf(m.terms, s).signatureMeta.status == Revoked;
    }
  }

  /** The consent block is not among the signed fields: any change to it goes unnoticed. */
  lemma ConsentIsNotSigned(c: Codec, m: Manifest, consent: Consent, t: nat)
    ensures VerifySignature(c, m.(consent := consent), t) == VerifySignature(c, m, t)
  {
  }

  // ----- Previews -------------------------------------------------------------------------------------

  datatype Severity = Pass | Warning | Blocked

  datatype Finding = Finding(severity: Severity, code: string)

  datatype Preview = Preview(status: Severity, importCandidate: bool, findings: seq<Finding>, warnings: seq<string>)

  function StatusName(s: SignatureStatus): string {
    match s
    case Unsigned => "unsigned"
    case Signed => "signed"
    case Mismatch => "mismatch"
    case Expired => "expired"
    case Revoked => "revoked"
  }

  ghost predicate Any(findings: seq<Finding>, s: Severity) {
    exists f :: f in findings && f.severity == s
  }

  method PreviewStatus(findings: seq<Finding>) returns (s: Severity)
    ensures s == Blocked <==> Any(findings, Blocked)
    ensures s == Warning <==> Any(findings, Warning) && !Any(findings, Blocked)
  {
    if exists f :: f in findings && f.severity == Blocked {
      return Blocked;
    }
    if exists f :: f in findings && f.severity == Warning {
      return Warning;
    }
    s := Pass;
  }

  /** A reviewable concern that does not block. */
  predicate NeedsReview(m: Manifest, report: Report, v: Verification) {
    v.status == Unsigned || m.consent.status != "recorded" || !m.consent.thirdPartyAllowed
        || BROADER in report.warningCodes
  }

  /** The finding belongs to a preview of this manifest and report with this verdict. */
  ghost predicate Due(f: Finding, m: Manifest, report: Report, status: SignatureStatus, valid: bool) {
    || DueForSignature(f, status)
    || (f == Finding(Blocked, "payload_verification_failed") && !valid)
    || DueForReview(f, m, report)
  }

  ghost predicate DueForSignature(f: Finding, status: SignatureStatus) {
    match status
    case Unsigned => f == Finding(Warning, "signature_unsigned")
    case Signed => false
    case Mismatch => f == Finding(Blocked, "signature_mismatch")
    case Expired => f == Finding(Blocked, "signature_expired")
    case Revoked => f == Finding(Blocked, "signature_revoked")
  }

  ghost predicate DueForReview(f: Finding, m: Manifest, report: Report) {
    || (f == Finding(Warning, "consent_not_recorded") && m.consent.status != "recorded")
    || (f == Finding(Warning, "third_party_sharing_restricted") && !m.consent.thirdPartyAllowed)
    || (f == Finding(Warning, "package_visibility_broader_than_recommended")
        && "package_visibility_broader_than_recommended" in report.warningCodes)
  }

  method PreviewFindings(m: Manifest, report: Report, v: Verification) returns (findings: seq<Finding>)
    ensures forall f :: f in findings <==> Due(f, m, report, v.status, v.valid)
    ensures Any(findings, Blocked) <==> v.status in {Mismatch, Expired, Revoked} || !v.valid
    ensures Any(findings, Warning) <==> NeedsReview(m, report, v)
    ensures !Any(findings, Pass)
  {
    findings := SignatureFindings(v);
    if !v.valid {
      findings := Added(findings, Finding(Blocked, "payload_verification_failed"));
    }
    findings := WithReviewFindings(m, report, findings);
    DueSeverities(findings, m, report, v);
  }

  method WithReviewFindings(m: Manifest, report: Report, earlier: seq<Finding>) returns (findings: seq<Finding>)
    ensures forall f :: f in findings <==> f in earlier || DueForReview(f, m, report)
  {
    findings := earlier;
    if m.consent.status != "recorded" {
      findings := Added(findings, Finding(Warning, "consent_not_recorded"));
    }
    if !m.consent.thirdPartyAllowed {
      findings := Added(findings, Finding(Warning, "third_party_sharing_restricted"));
    }
    if BROADER in report.warningCodes {
      findings := Added(findings, Finding(Warning, BROADER));
    }
  }

  lemma DueSeverities(findings: seq<Finding>, m: Manifest, report: Report, v: Verification)
    requires forall f :: f in findings <==> Due(f, m, report, v.status, v.valid)
    ensures Any(findings, Blocked) <==> v.status in {Mismatch, Expired, Revoked} || !v.valid
    ensures Any(findings, Warning) <==> NeedsReview(m, report, v)
    ensures !Any(findings, Pass)
  {
    BlockedDue(findings, v);
    ReviewSeverities(findings, m, report, v);
    if v.status == Unsigned {
      assert DueForSignature(Finding(Warning, "signature_unsigned"), v.status);
    }
  }

  lemma BlockedDue(findings: seq<Finding>, v: Verification)
    requires forall f :: DueForSignature(f, v.status) ==> f in findings
    requires !v.valid ==> Finding(Blocked, "payload_verification_failed") in findings
    ensures v.status in {Mismatch, Expired, Revoked} || !v.valid ==> Any(findings, Blocked)
  {
    match v.status
    case Mismatch => assert DueForSignature(Finding(Blocked, "signature_mismatch"), v.status);
    case Expired => assert DueForSignature(Finding(Blocked, "signature_expired"), v.status);
    case Revoked => assert DueForSignature(Finding(Blocked, "signature_revoked"), v.status);
    case _ =>
  }

  lemma ReviewSeverities(findings: seq<Finding>, m: Manifest, report: Report, v: Verification)
    requires forall f :: DueForReview(f, m, report) ==> f in findings
    ensures m.consent.status != "recorded" || !m.consent.thirdPartyAllowed || BROADER in report.warningCodes
            ==> Any(findings, Warning)
  {
    if m.consent.status != "recorded" {
      assert DueForReview(Finding(Warning, "consent_not_recorded"), m, report);
    }
    if !m.consent.thirdPartyAllowed {
      assert DueForReview(Finding(Warning, "third_party_sharing_restricted"), m, report);
    }
    if BROADER in report.warningCodes {
      assert DueForReview(Finding(Warning, BROADER), m, report);
    }
  }

  /** The findings on the signature alone. */
  method SignatureFindings(v: Verification) returns (findings: seq<Finding>)
    ensures forall f :: f in findings <==> DueForSignature(f, v.status)
  {
    findings := [];
    if v.status == Unsigned {
      findings := Added(findings, Finding(Warning, "signature_unsigned"));
    }
    if v.status in {Mismatch, Expired, Revoked} {
      StatusNames();
      findings := Added(findings, Finding(Blocked, "signature_" + StatusName(v.status)));
    }
  }

  lemma StatusNames()
    ensures "signature_" + StatusName(Mismatch) == "signature_mismatch"
    ensures "signature_" + StatusName(Expired) == "signature_expired"
    ensures "signature_" + StatusName(Revoked) == "signature_revoked"
  {
  }

  function Added(findings: seq<Finding>, f: Finding): (r: seq<Finding>)
    ensures forall g :: g in r <==> g in findings || g == f
    ensures forall s :: Any(r, s) <==> Any(findings, s) || f.severity == s
  {
    assert (findings + [f])[|findings|] == f;
    assert forall g :: g in findings + [f] <==> g in findings || g == f;
    findings + [f]
  }

  /** Without a passing finding, the warnings are the codes of all findings. */
  ghost predicate CodesOf(findings: seq<Finding>, codes: seq<string>) {
    |codes| == |findings| && forall i :: 0 <= i < |findings| ==> codes[i] == findings[i].code
  }

  lemma {:induction false} FlaggedAreAll(findings: seq<Finding>)
    requires !Any(findings, Pass)
    ensures CodesOf(findings, FlaggedCodes(findings))
  {
    for i := 0 to |findings|
      invariant CodesOf(findings[..i], FlaggedCodes(findings[..i]))
    {
      FlatMapStep(FlaggedCode(), findings, i);
      assert findings[i] in findings;
    }
    assert findings[..|findings|] == findings;
  }

  function FlaggedCodes(findings: seq<Finding>): seq<string> {
    FlatMap(FlaggedCode(), findings)
  }

  function FlaggedCode(): Finding -> seq<string> {
    (f: Finding) => if f.severity != Pass then [f.code] else []
  }

  function LoadReport(dir: Directory): Result<Report, PackageError> {
    if REPORT in dir && dir[REPORT].ReportFile? then Success(dir[REPORT].report) else Failure(ReportUnreadable)
  }

  /** Blocked exactly when verification fails; an import candidate exactly when it succeeds. */
  method PreviewPackage(c: Codec, dir: Option<Directory>, now: nat) returns (r: Result<Preview, PackageError>)
    ensures r.Success? <==> Load(dir).Success? && LoadReport(dir.value).Success?
    ensures r.Success? ==>
              var p := r.value;
              (p.status == Blocked <==> !ValidAt(c, dir.value, now))
              && (p.importCandidate <==> ValidAt(c, dir.value, now))
              && (p.status == Blocked <==> Any(p.findings, Blocked))
              && (p.status == Warning <==> Any(p.findings, Warning) && !Any(p.findings, Blocked))
              && (p.status == Pass ==> ValidAt(c, dir.value, now) && Load(dir).value.consent.status == "recorded"
                                       && StatusAt(c, dir.value, now) == Signed)
              && CodesOf(p.findings, p.warnings) && !Any(p.findings, Pass)
              && forall f :: f in p.findings <==>
                   Due(f, Load(dir).value, LoadReport(dir.value).value, StatusAt(c, dir.value, now),
                       ValidAt(c, dir.value, now))
  {
    var loaded := Load(dir);
    if loaded.Failure? {
      return Failure(loaded.error);
    }
    var report := LoadReport(dir.value);
    if report.Failure? {
      return Failure(report.error);
    }
    var verified := VerifyPackage(c, dir, now);
    var v := verified.value;
    assert v.status in {Mismatch, Expired, Revoked} ==> !v.valid;
    var findings := PreviewFindings(loaded.value, report.value, v);
    var status := PreviewStatus(findings);
    FlaggedAreAll(findings);
    r := Success(Preview(status, v.valid && status != Blocked, findings, FlaggedCodes(findings)));
  }

  /** The import preview adds a finding to a blocked preview and never changes its status. */
  method ImportPreview(c: Codec, dir: Option<Directory>, now: nat)
      returns (r: Result<Preview, PackageError>, preview: Result<Preview, PackageError>)
    ensures r.Success? <==> preview.Success?
    ensures preview.Success? <==> Load(dir).Success? && LoadReport(dir.value).Success?
    ensures r.Success? ==>
              r.value.status == preview.value.status && r.value.importCandidate == preview.value.importCandidate
              && r.value.findings == preview.value.findings
                 + (if ValidAt(c, dir.value, now) then [] else [Finding(Blocked, "import_candidate_not_ready")])
              && (r.value.status == Blocked <==> !ValidAt(c, dir.value, now))
              && CodesOf(r.value.findings, r.value.warnings)
  {
    preview := PreviewPackage(c, dir, now);
    if preview.Failure? {
      return Failure(preview.error), preview;
    }
    var findings := preview.value.findings;
    if !preview.value.importCandidate {
      findings := Added(findings, Finding(Blocked, "import_candidate_not_ready"));
    }
    var status := PreviewStatus(findings);
    FlaggedAreAll(findings);
    r := Success(Preview(status, preview.value.importCandidate, findings, FlaggedCodes(findings)));
  }
}
