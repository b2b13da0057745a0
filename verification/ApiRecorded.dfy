/** What a commit makes of its request: which writes are refused, and every field that is recorded. */
module ApiRecorded {
  import opened Wrappers
  import opened Records
  import opened Ids
  import opened IndexProjection
  import opened ChronicleStore
  import opened ApiAdapter
  import opened ApiRuns

  /** No event of the log was written for this endpoint and key. */
  ghost predicate Unused(log: seq<ChronicleEvent>, endpoint: string, key: string) {
    forall i :: 0 <= i < |log| ==> !Carries(log[i], (endpoint, key))
  }

  lemma UnusedIsNew(s: Store, r: Request, endpoint: string)
    requires Unused(s.log, endpoint, r.meta.idempotencyKey) && endpoint == Endpoint(r)
    ensures FirstWith(s.log, WriteKey(r)).None?
  {
    FirstWithMeans(s.log, WriteKey(r));
  }

  /** The metadata a write leaves in its event's payload. */
  ghost predicate Describes(api: Json, r: Request, endpoint: string) {
    api.Dict? && var m := api.fields;
    && {KSchemaVersion, KEndpoint, KIdempotencyKey, KOrigin, KDryRun, KAuditReason} <= m.Keys
    && m[KSchemaVersion] == Str(r.meta.schemaVersion) && m[KEndpoint] == Str(endpoint)
    && m[KIdempotencyKey] == Str(r.meta.idempotencyKey) && m[KDryRun] == Bool(false)
    && m[KAuditReason] == Str(r.meta.auditReason)
    && m[KOrigin] == Dict(map[KSourceTool := Str(r.meta.origin.sourceTool), KActorId := Str(r.meta.origin.actorId),
                              KActorKind := Str(r.meta.origin.actorKind)])
  }

  /** A new write's audit entry: who wrote, why, through what, and which records it refers to. */
  ghost predicate Audits(a: AuditEntry, r: Request, endpoint: string, eventId: string, purpose: string,
                         referenced: seq<string>, summary: string, now: nat) {
    && a.createdAt == now && a.actor == r.meta.origin.actorId
    && a.purpose == (if r.meta.auditReason != "" then r.meta.auditReason else purpose)
    && a.referencedRecords == referenced && a.sourceEventId == Some(eventId) && a.summary == summary
    && a.endpoint == endpoint && a.idempotencyKey == r.meta.idempotencyKey
    && a.sourceTool == r.meta.origin.sourceTool && a.actorKind == r.meta.origin.actorKind
    && a.reviewStatus == r.meta.reviewStatus
  }

  /** An accepted response to a new write, with one notice. */
  ghost predicate Answers(outcome: Outcome, r: Request, eventId: string, rdeId: Option<string>,
                          assertionId: Option<string>, notice: Notice) {
    outcome == Responded(Response(true, false, false, r.meta.idempotencyKey, Some(eventId), rdeId, assertionId,
                                  [notice], []))
  }

  // ----- POST /diffs ------------------------------------------------------------------------------

  /**
   * A new diff is refused when its artifact is not indexed, or one of its versions has no file, the
   * first missing thing being the one reported, and then nothing changes. Otherwise it is accepted.
   */
  lemma DiffOutcome(s: ApiState, r: Request, now: nat)
    requires s.store.chronicleId.Some? && r.body.DiffBody?
    requires Unused(s.store.log, "POST /diffs", r.meta.idempotencyKey)
    ensures var b, files, c := r.body, s.store.versionFiles, Commit(s, r, now);
            if b.artifactId !in s.store.index.artifacts then c == (s, Raised(ArtifactNotFound(b.artifactId)))
            else if (b.artifactId, b.fromVersionId) !in files then c == (s, Raised(RdeVersionNotFound(b.fromVersionId)))
            else if (b.artifactId, b.toVersionId) !in files then c == (s, Raised(RdeVersionNotFound(b.toVersionId)))
            else c.1.Responded? && c.1.response.accepted && !c.1.response.duplicate
  {
    UnusedIsNew(s.store, r, "POST /diffs");
  }

  ghost predicate DiffAdmitted(s: Store, b: Body)
    requires b.DiffBody?
  {
    b.artifactId in s.index.artifacts && (b.artifactId, b.fromVersionId) in s.versionFiles
    && (b.artifactId, b.toVersionId) in s.versionFiles
  }

  /** The event of a diff: the record, in full, and the metadata. */
  ghost predicate DiffEvent(e: ChronicleEvent, chronicleId: string, n: nat, r: Request, now: nat)
    requires r.body.DiffBody?
  {
    var b, rdeId := r.body, FreshId(RdeId, n);
    && e.eventId == FreshId(EventId, n + 1) && e.chronicleId == chronicleId && e.timestamp == now
    && e.parentEventId == None && e.contextIds == [] && e.decisionId == None && e.source == None
    && e.reviewStatus == None && e.tags == []
    && e.eventType == RdeDiffRecorded && e.rdeRecordId == Some(rdeId) && e.artifactId == Some(b.artifactId)
    && e.summary == "RDE diff recorded: " + (if b.diffSummary != "" then b.diffSummary else rdeId)
    && (b.createdBy == "user" ==> e.actor == User) && (b.createdBy == "tool" ==> e.actor == Tool)
    && (b.createdBy == "system" ==> e.actor == System) && (b.createdBy == "reviewer" ==> e.actor == Reviewer)
    && (b.createdBy == "importer" ==> e.actor == Importer)
    && (b.createdBy !in {"user", "tool", "system", "reviewer", "importer"} ==> e.actor == Assistant)
    && e.payload.Keys == {KRde, KApi} && Describes(e.payload[KApi], r, "POST /diffs")
    && e.payload[KRde] ==
         Dict(map[KRdeRecordId := Str(rdeId), KArtifactId := Str(b.artifactId), KFromVersionId := Str(b.fromVersionId),
                  KToVersionId := Str(b.toVersionId), KCreatedAt := Num(now), KCreatedBy := Str(b.createdBy),
                  KSummary := Str(b.diffSummary)])
  }

  /** One more event in the log and one more entry in the audit log, both at their ends. */
  ghost predicate OneWrite(s: ApiState, t: ApiState) {
    && |t.store.log| == |s.store.log| + 1 && s.store.log <= t.store.log
    && |t.audit| == |s.audit| + 1 && s.audit <= t.audit
  }

  /** An admitted diff: one event, one audit entry, and the ids of both in the answer. */
  lemma DiffRecordedInFull(s: ApiState, r: Request, now: nat)
    requires s.store.chronicleId.Some? && r.body.DiffBody? && DiffAdmitted(s.store, r.body)
    requires Unused(s.store.log, "POST /diffs", r.meta.idempotencyKey)
    ensures var (t, outcome) := Commit(s, r, now);
            OneWrite(s, t) && t.store.index == s.store.index
            && var e, rdeId := t.store.log[|s.store.log|], FreshId(RdeId, s.store.nextId);
               DiffEvent(e, s.store.chronicleId.value, s.store.nextId, r, now)
               && DiffAudit(t.audit[|s.audit|], r, e, rdeId, now)
               && Answers(outcome, r, e.eventId, Some(rdeId), None, DiffRecorded)
  {
    UnusedIsNew(s.store, r, "POST /diffs");
    NewDiffEvent(s.store, r, now);
    PlainCommit(s, r, now);
    var e, rdeId := NewEvent(s.store, r, now).value.0, FreshId(RdeId, s.store.nextId);
    DiffAudited(r, e, rdeId, s.store.nextId + 2, now);
  }

  ghost predicate DiffAudit(a: AuditEntry, r: Request, e: ChronicleEvent, rdeId: string, now: nat)
    requires r.body.DiffBody?
  {
    Audits(a, r, "POST /diffs", e.eventId, r.body.diffSummary, [e.eventId, rdeId, r.body.artifactId],
           "API RDE diff recorded: " + (if r.body.diffSummary != "" then r.body.diffSummary else rdeId), now)
  }

  lemma DiffAudited(r: Request, e: ChronicleEvent, rdeId: string, n: nat, now: nat)
    requires r.body.DiffBody? && e.rdeRecordId == Some(rdeId)
    ensures DiffAudit(AuditOf(r, e, n, now), r, e, rdeId, now)
    ensures Answers(Accept(r, e, false), r, e.eventId, Some(rdeId), None, DiffRecorded)
  {
    assert ReferencedRecords(r, e) == [e.eventId] + [rdeId] + [r.body.artifactId];
  }

  lemma NewDiffEvent(s: Store, r: Request, now: nat)
    requires s.chronicleId.Some? && r.body.DiffBody? && DiffAdmitted(s, r.body)
    ensures NewEvent(s, r, now).Success? && NewEvent(s, r, now).value.1 == 2
    ensures DiffEvent(NewEvent(s, r, now).value.0, s.chronicleId.value, s.nextId, r, now)
  {
    var rde := NewRde(r.body, s.nextId, now);
    assert NewEvent(s, r, now) ==
             Success((Stamp(DiffDraft(r, rde), FreshId(EventId, s.nextId + 1), s.chronicleId.value, now), 2));
    StampedDiff(r, s.chronicleId.value, s.nextId, now);
  }

  lemma StampedDiff(r: Request, chronicleId: string, n: nat, now: nat)
    requires r.body.DiffBody?
    ensures DiffEvent(Stamp(DiffDraft(r, NewRde(r.body, n, now)), FreshId(EventId, n + 1), chronicleId, now),
                      chronicleId, n, r, now)
  {
    ActorLiterals(r.body.createdBy);
  }

  /** A new write without a rebuild: its event and its audit entry are appended, and it is accepted. */
  lemma PlainCommit(s: ApiState, r: Request, now: nat)
    requires s.store.chronicleId.Some? && FirstWith(s.store.log, WriteKey(r)).None?
    requires !r.body.EventBody? && NewEvent(s.store, r, now).Success?
    ensures var (e, ids), (t, outcome) := NewEvent(s.store, r, now).value, Commit(s, r, now);
            t.store.log == s.store.log + [e] && t.store.index == s.store.index
            && t.audit == s.audit + [AuditOf(r, e, s.store.nextId + ids, now)] && outcome == Accept(r, e, false)
  {
    CommitNew(s, r, now);
    var (e, ids) := NewEvent(s.store, r, now).value;
    PlainCompletion(s.(store := Logged(s.store, e, ids)), r, e, now);
  }

  /** A new write goes on from its appended event. */
  lemma CommitNew(s: ApiState, r: Request, now: nat)
    requires s.store.chronicleId.Some? && FirstWith(s.store.log, WriteKey(r)).None?
    requires NewEvent(s.store, r, now).Success?
    ensures var (e, ids) := NewEvent(s.store, r, now).value;
            Commit(s, r, now) == Complete(s.(store := Logged(s.store, e, ids)), r, e, now)
  {
  }

  lemma PlainCompletion(s: ApiState, r: Request, e: ChronicleEvent, now: nat)
    requires !r.body.EventBody?
    ensures var (t, outcome) := Complete(s, r, e, now);
            t.store.log == s.store.log && t.store.index == s.store.index
            && t.audit == s.audit + [AuditOf(r, e, s.store.nextId, now)] && outcome == Accept(r, e, false)
  {
  }

  lemma ActorLiterals(name: string)
    ensures name == "user" ==> ActorNamed(name) == User
    ensures name == "tool" ==> ActorNamed(name) == Tool
    ensures name == "system" ==> ActorNamed(name) == System
    ensures name == "reviewer" ==> ActorNamed(name) == Reviewer
    ensures name == "importer" ==> ActorNamed(name) == Importer
    ensures name !in {"user", "tool", "system", "reviewer", "importer"} ==> ActorNamed(name) == Assistant
  {
    assert "user"[0] == 'u' && "tool"[0] == 't' && "system"[0] == 's' && "reviewer"[0] == 'r' && "importer"[0] == 'i';
  }

  // ----- POST /events -----------------------------------------------------------------------------

  /** The event of a `POST /events`: everything as sent, with the metadata in place of any `api` entry. */
  ghost predicate SentEvent(e: ChronicleEvent, chronicleId: string, n: nat, r: Request, now: nat)
    requires r.body.EventBody?
  {
    var b := r.body;
    && KApi in e.payload && Describes(e.payload[KApi], r, "POST /events") && e.payload - {KApi} == b.payload - {KApi}
    && e == ChronicleEvent(FreshId(EventId, n), chronicleId, now, b.eventType, b.actor, b.summary,
                           e.payload, b.parentEventId, b.eventArtifactId, b.eventContextIds, b.decisionId,
                           b.rdeRecordId, b.source, Some(r.meta.reviewStatus), b.tags)
  }

  /** A new event is appended in any case, and audited and accepted unless the rebuild raises. */
  lemma EventRecordedInFull(s: ApiState, r: Request, now: nat)
    requires s.store.chronicleId.Some? && r.body.EventBody?
    requires Unused(s.store.log, "POST /events", r.meta.idempotencyKey)
    ensures var (t, outcome) := Commit(s, r, now);
            |t.store.log| == |s.store.log| + 1 && s.store.log <= t.store.log
            && var e := t.store.log[|s.store.log|];
               SentEvent(e, s.store.chronicleId.value, s.store.nextId, r, now)
               && if Project(t.store.log).None? then outcome == Raised(ProjectionFailed) && t.audit == s.audit
                  else OneWrite(s, t) && t.store.index == Project(t.store.log).value
                       && EventAudit(t.audit[|s.audit|], r, e, now)
                       && Answers(outcome, r, e.eventId, None, None, EventRecorded)
  {
    UnusedIsNew(s.store, r, "POST /events");
    NewSentEvent(s.store, r, now);
    CommitNew(s, r, now);
    var e := NewEvent(s.store, r, now).value.0;
    EventCompletion(s.(store := Logged(s.store, e, 1)), r, e, now);
    EventAudited(r, e, s.store.nextId + 1, now);
  }

  ghost predicate EventAudit(a: AuditEntry, r: Request, e: ChronicleEvent, now: nat)
    requires r.body.EventBody?
  {
    Audits(a, r, "POST /events", e.eventId, r.body.summary, [e.eventId] + r.body.eventContextIds,
           "API write accepted for " + EventTypeName(r.body.eventType) + ": " + r.body.summary, now)
  }

  lemma EventAudited(r: Request, e: ChronicleEvent, n: nat, now: nat)
    requires r.body.EventBody?
    ensures EventAudit(AuditOf(r, e, n, now), r, e, now)
    ensures Answers(Accept(r, e, false), r, e.eventId, None, None, EventRecorded)
  {
  }

  lemma NewSentEvent(s: Store, r: Request, now: nat)
    requires s.chronicleId.Some? && r.body.EventBody?
    ensures NewEvent(s, r, now).Success? && NewEvent(s, r, now).value.1 == 1
    ensures SentEvent(NewEvent(s, r, now).value.0, s.chronicleId.value, s.nextId, r, now)
  {
  }

  lemma EventCompletion(s: ApiState, r: Request, e: ChronicleEvent, now: nat)
    requires r.body.EventBody?
    ensures var (t, outcome) := Complete(s, r, e, now);
            t.store.log == s.store.log
            && if Project(s.store.log).None? then outcome == Raised(ProjectionFailed) && t.audit == s.audit
               else
                 t.store.index == Project(s.store.log).value
                 && t.audit == s.audit + [AuditOf(r, e, s.store.nextId, now)] && outcome == Accept(r, e, false)
  {
  }

  // ----- POST /assertions -------------------------------------------------------------------------

  /** The detail text of an assertion: its kind and status, then what it is about and its caveats, if given. */
  ghost predicate Details(detail: string, b: Body)
    requires b.AssertionBody?
  {
    var head := "assertion_kind=" + b.assertionKind + "\n" + "verification_status=" + b.verificationStatus;
    var about := if Given(b.subjectRef) then "\n" + "subject_ref=" + b.subjectRef.value else "";
    var but := if b.caveats != [] then "\n" + "caveats=" + Join(" | ", b.caveats) else "";
    detail == head + about + but
  }

  /** The recorded object of an assertion. */
  ghost predicate ObjectOf(m: Fields, r: Request, objectId: string, eventId: string, chronicleId: string, now: nat)
    requires r.body.AssertionBody?
  {
    var b := r.body;
    && m.Keys == {KObjectId, KObjectType, KChronicleId, KCreatedAt, KCreatedBy, KSummary, KDetail, KVisibilityHint,
                  KSourceEventId, KArtifactId, KContextId, KEvidence}
    && m[KObjectId] == Str(objectId) && m[KSourceEventId] == Str(eventId) && m[KChronicleId] == Str(chronicleId)
    && m[KCreatedAt] == Num(now) && m[KCreatedBy] == Str(r.meta.origin.actorId) && m[KSummary] == Str(b.statement)
    && m[KVisibilityHint] == Str("unknown") && m[KEvidence] == DumpStrings(b.evidenceRefs)
    && m[KArtifactId] == (if b.assertedArtifactId.Some? then Str(b.assertedArtifactId.value) else Null)
    && m[KContextId] == (if b.contextIds != [] then Str(b.contextIds[0]) else Null)
    && m[KObjectType] == Str(if b.assertionKind == "caveat" then "objection"
                             else if b.assertionKind == "unknown" then "question" else "hypothesis")
    && m[KDetail].Str? && Details(m[KDetail].s, b)
  }

  ghost predicate AssertedEvent(e: ChronicleEvent, chronicleId: string, n: nat, r: Request, now: nat)
    requires r.body.AssertionBody?
  {
    var b := r.body;
    && e.payload.Keys == {KChronicleObject, KApi} && Describes(e.payload[KApi], r, "POST /assertions")
    && KAssertionKind in e.payload[KApi].fields && KVerificationStatus in e.payload[KApi].fields
    && e.payload[KApi].fields[KAssertionKind] == Str(b.assertionKind)
    && e.payload[KApi].fields[KVerificationStatus] == Str(b.verificationStatus)
    && e.payload[KChronicleObject].Dict?
    && ObjectOf(e.payload[KChronicleObject].fields, r, FreshId(ObjectId, n + 1), e.eventId, chronicleId, now)
    && e == ChronicleEvent(FreshId(EventId, n), chronicleId, now, ChronicleObjectRecorded, Tool,
                           "API assertion recorded: " + b.statement, e.payload, None, b.assertedArtifactId,
                           b.contextIds, None, None, b.assertionSource, Some(r.meta.reviewStatus),
                           ["api_assertion", b.assertionKind])
  }

  lemma DetailsMean(b: Body)
    requires b.AssertionBody?
    ensures Details(AssertionDetail(b), b)
  {
    var kind, status := "assertion_kind=" + b.assertionKind, "verification_status=" + b.verificationStatus;
    var about := if Given(b.subjectRef) then ["subject_ref=" + b.subjectRef.value] else [];
    var but := if b.caveats != [] then ["caveats=" + Join(" | ", b.caveats)] else [];
    JoinLines([kind, status] + about, but);
    JoinLines([kind, status], about);
    JoinLines([kind], [status]);
    assert [kind] + [status] == [kind, status];
  }

  lemma {:induction false} JoinLines(front: seq<string>, last: seq<string>)
    requires front != [] && |last| <= 1
    ensures Join("\n", front + last) == Join("\n", front) + (if last == [] then "" else "\n" + last[0])
  {
    if last == [] {
      assert front + last == front;
    } else if |front| > 1 {
      assert (front + last)[1..] == front[1..] + last && (front + last)[0] == front[0];
      JoinLines(front[1..], last);
    } else {
      assert (front + last)[1..] == last && (front + last)[0] == front[0];
    }
  }

  /** A new assertion is always accepted: one event with its object, one audit entry, no rebuild. */
  lemma AssertionRecordedInFull(s: ApiState, r: Request, now: nat)
    requires s.store.chronicleId.Some? && r.body.AssertionBody?
    requires Unused(s.store.log, "POST /assertions", r.meta.idempotencyKey)
    ensures var (t, outcome) := Commit(s, r, now);
            OneWrite(s, t) && t.store.index == s.store.index
            && var e, objectId := t.store.log[|s.store.log|], FreshId(ObjectId, s.store.nextId + 1);
               AssertedEvent(e, s.store.chronicleId.value, s.store.nextId, r, now)
               && AssertionAudit(t.audit[|s.audit|], r, e, objectId, now)
               && Answers(outcome, r, e.eventId, None, Some(objectId), AssertionRecorded)
  {
    UnusedIsNew(s.store, r, "POST /assertions");
    var e := AssertionEvent(r, s.store.chronicleId.value, s.store.nextId, now);
    assert NewEvent(s.store, r, now) == Success((e, 2));
    NewAssertedEvent(r, s.store.chronicleId.value, s.store.nextId, now);
    PlainCommit(s, r, now);
    AssertionAudited(r, e, FreshId(ObjectId, s.store.nextId + 1), s.store.nextId + 2, now);
  }

  ghost predicate AssertionAudit(a: AuditEntry, r: Request, e: ChronicleEvent, objectId: string, now: nat)
    requires r.body.AssertionBody?
  {
    Audits(a, r, "POST /assertions", e.eventId, r.body.statement, [e.eventId, objectId] + r.body.contextIds,
           "API assertion recorded: " + r.body.statement, now)
  }

  lemma AssertionAudited(r: Request, e: ChronicleEvent, objectId: string, n: nat, now: nat)
    requires r.body.AssertionBody? && AssertionIdOf(e) == Some(objectId)
    ensures AssertionAudit(AuditOf(r, e, n, now), r, e, objectId, now)
    ensures Answers(Accept(r, e, false), r, e.eventId, None, Some(objectId), AssertionRecorded)
  {
    assert ReferencedRecords(r, e) == [e.eventId] + [objectId] + r.body.contextIds;
    assert [e.eventId] + [objectId] == [e.eventId, objectId];
  }

  lemma NewAssertedEvent(r: Request, chronicleId: string, n: nat, now: nat)
    requires r.body.AssertionBody?
    ensures AssertedEvent(AssertionEvent(r, chronicleId, n, now), chronicleId, n, r, now)
    ensures AssertionIdOf(AssertionEvent(r, chronicleId, n, now)) == Some(FreshId(ObjectId, n + 1))
  {
    var e, objectId := AssertionEvent(r, chronicleId, n, now), FreshId(ObjectId, n + 1);
    AssertedObject(r, objectId, FreshId(EventId, n), chronicleId, now);
    AssertedMetadata(r);
    var recorded := AssertionObject(r, objectId, chronicleId, FreshId(EventId, n), now);
    assert e.payload == map[KChronicleObject := Dict(recorded), KApi := Dict(ApiFields(r))];
  }

  lemma AssertedMetadata(r: Request)
    requires r.body.AssertionBody?
    ensures Describes(Dict(ApiFields(r)), r, "POST /assertions")
    ensures KAssertionKind in ApiFields(r) && ApiFields(r)[KAssertionKind] == Str(r.body.assertionKind)
    ensures KVerificationStatus in ApiFields(r) && ApiFields(r)[KVerificationStatus] == Str(r.body.verificationStatus)
  {
  }

  lemma AssertedObject(r: Request, objectId: string, eventId: string, chronicleId: string, now: nat)
    requires r.body.AssertionBody?
    ensures ObjectOf(AssertionObject(r, objectId, chronicleId, eventId, now), r, objectId, eventId, chronicleId, now)
  {
    DetailsMean(r.body);
  }

  // ----- Previews -----------------------------------------------------------------------------------

  /** A dry run is answered with what it would call, and a reminder unless it was reviewed; others are refused. */
  lemma PreviewAnswers(r: Request)
    ensures var noticed := if r.meta.reviewStatus == Reviewed then [] else [ReviewRequired];
            var endpoint := if r.body.EventBody? then "POST /events"
                            else if r.body.DiffBody? then "POST /diffs" else "POST /assertions";
            Preview(r) == Responded(
              if r.meta.dryRun
              then Response(true, true, false, r.meta.idempotencyKey, None, None, None,
                            [PreviewOnly(endpoint)] + noticed, [])
              else Response(false, false, false, r.meta.idempotencyKey, None, None, None, [], [PersistenceBlocked]))
  {
  }
}
