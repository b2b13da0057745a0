/** The three idempotent API writes: look up, append, audit. */
module ApiAdapter {
  import opened Wrappers
  import opened Records
  import opened Ids
  import opened IndexProjection
  import opened ChronicleStore
  import opened ArtifactServices

  // ----- Requests and responses --------------------------------------------------------------

  datatype Origin = Origin(sourceTool: string, actorId: string, actorKind: string)

  /** What every write request carries. */
  datatype WriteMeta = WriteMeta(
    schemaVersion: string, idempotencyKey: string, origin: Origin, dryRun: bool,
    reviewStatus: ReviewStatus, auditReason: string)

  datatype Body =
    | EventBody(eventType: EventType, actor: Actor, summary: string, payload: Fields,
                parentEventId: Option<string>, eventArtifactId: Option<string>, eventContextIds: seq<string>,
                decisionId: Option<string>, rdeRecordId: Option<string>, source: Option<Source>, tags: seq<string>)
    | DiffBody(artifactId: string, fromVersionId: string, toVersionId: string, createdBy: string, diffSummary: string)
    | AssertionBody(assertionKind: string, statement: string, verificationStatus: string,
                    subjectRef: Option<string>, caveats: seq<string>, evidenceRefs: seq<string>,
                    contextIds: seq<string>, assertedArtifactId: Option<string>, assertionSource: Option<Source>)

  datatype Request = Request(meta: WriteMeta, body: Body)

  function Endpoint(r: Request): string {
    match r.body
    case EventBody(_, _, _, _, _, _, _, _, _, _, _) => "POST /events"
    case DiffBody(_, _, _, _, _) => "POST /diffs"
    case AssertionBody(_, _, _, _, _, _, _, _, _) => "POST /assertions"
  }

  /** Endpoint and idempotency key: what makes two requests the same write. */
  function WriteKey(r: Request): (string, string) {
    (Endpoint(r), r.meta.idempotencyKey)
  }

  datatype Notice =
    | DuplicateKey | EventRecorded | DiffRecorded | AssertionRecorded
    | PreviewOnly(endpoint: string) | ReviewRequired | PersistenceBlocked

  datatype Response = Response(
    accepted: bool, dryRun: bool, duplicate: bool, idempotencyKey: string, eventId: Option<string>,
    rdeRecordId: Option<string>, assertionId: Option<string>, warnings: seq<Notice>, errors: seq<Notice>)

  datatype Outcome = Responded(response: Response) | Raised(error: ServiceError)

  datatype AuditEntry = AuditEntry(
    auditId: string, createdAt: nat, actor: string, purpose: string, referencedRecords: seq<string>,
    sourceEventId: Option<string>, summary: string, endpoint: string, idempotencyKey: string,
    sourceTool: string, actorKind: string, reviewStatus: ReviewStatus)

  /** The chronicle and the audit log beside it. */
  datatype ApiState = ApiState(store: Store, audit: seq<AuditEntry>)

  // ----- API metadata inside payloads ----------------------------------------------------------

  function DumpOrigin(o: Origin): Fields {
    map[KSourceTool := Str(o.sourceTool), KActorId := Str(o.actorId), KActorKind := Str(o.actorKind)]
  }

  /** The `api` entry of the payload. It always replaces the one the client sent. */
  function ApiFields(r: Request): Fields {
    var common := map[KSchemaVersion := Str(r.meta.schemaVersion), KEndpoint := Str(Endpoint(r)),
                      KIdempotencyKey := Str(r.meta.idempotencyKey), KOrigin := Dict(DumpOrigin(r.meta.origin)),
                      KDryRun := Bool(false), KAuditReason := Str(r.meta.auditReason)];
    if r.body.AssertionBody?
    then common[KAssertionKind := Str(r.body.assertionKind)][KVerificationStatus := Str(r.body.verificationStatus)]
    else common
  }

  /** The event's payload names this endpoint and this idempotency key. */
  predicate Carries(e: ChronicleEvent, key: (string, string)) {
    && KApi in e.payload && e.payload[KApi].Dict?
    && var api := e.payload[KApi].fields;
       KEndpoint in api && api[KEndpoint] == Str(key.0) && KIdempotencyKey in api && api[KIdempotencyKey] == Str(key.1)
  }

  /** The first event of the log that carries the key. */
  function FirstWith(log: seq<ChronicleEvent>, key: (string, string)): Option<ChronicleEvent> {
    if log == [] then None
    else if Carries(log[0], key) then Some(log[0])
    else FirstWith(log[1..], key)
  }

  /** The assertion an event recorded, read back from its payload. */
  function AssertionIdOf(e: ChronicleEvent): Option<string> {
    if KChronicleObject in e.payload && e.payload[KChronicleObject].Dict?
    then NeedString(e.payload[KChronicleObject].fields, KObjectId)
    else None
  }

  // ----- The events the endpoints write ----------------------------------------------------------

  function EventDraft(r: Request): Draft
    requires r.body.EventBody?
  {
    var b := r.body;
    Draft(b.eventType, b.actor, b.summary, b.payload[KApi := Dict(ApiFields(r))], b.parentEventId, b.eventArtifactId,
          b.eventContextIds, b.decisionId, b.rdeRecordId, b.source, Some(r.meta.reviewStatus), b.tags)
  }

  function ActorNamed(name: string): Actor {
    if name == "user" then User
    else if name == "system" then System
    else if name == "tool" then Tool
    else if name == "reviewer" then Reviewer
    else if name == "importer" then Importer
    else Assistant
  }

  function NewRde(b: Body, n: nat, now: nat): RdeRecord
    requires b.DiffBody?
  {
    RdeRecord(FreshId(RdeId, n), b.artifactId, b.fromVersionId, b.toVersionId, now, b.createdBy, b.diffSummary)
  }

  function DiffDraft(r: Request, rde: RdeRecord): Draft
    requires r.body.DiffBody?
  {
    var b := r.body;
    PlainDraft(RdeDiffRecorded, ActorNamed(b.createdBy), "RDE diff recorded: " + OrElse(b.diffSummary, rde.rdeRecordId),
               map[KRde := Dict(DumpRde(rde)), KApi := Dict(ApiFields(r))])
      .(artifactId := Some(b.artifactId), rdeRecordId := Some(rde.rdeRecordId))
  }

  function AssertionObjectType(kind: string): string {
    if kind == "caveat" then "objection" else if kind == "unknown" then "question" else "hypothesis"
  }

  function AssertionDetail(b: Body): string
    requires b.AssertionBody?
  {
    Join("\n",
      ["assertion_kind=" + b.assertionKind, "verification_status=" + b.verificationStatus]
      + (if Given(b.subjectRef) then ["subject_ref=" + b.subjectRef.value] else [])
      + (if b.caveats != [] then ["caveats=" + Join(" | ", b.caveats)] else []))
  }

  function AssertionObject(r: Request, objectId: string, chronicleId: string, eventId: string, now: nat): Fields
    requires r.body.AssertionBody?
  {
    var b := r.body;
    map[KObjectId := Str(objectId), KObjectType := Str(AssertionObjectType(b.assertionKind)),
        KChronicleId := Str(chronicleId), KCreatedAt := Num(now), KCreatedBy := Str(r.meta.origin.actorId),
        KSummary := Str(b.statement), KDetail := Str(AssertionDetail(b)), KVisibilityHint := Str("unknown"),
        KSourceEventId := Str(eventId), KArtifactId := DumpOption(b.assertedArtifactId),
        KContextId := if b.contextIds != [] then Str(b.contextIds[0]) else Null,
        KEvidence := DumpStrings(b.evidenceRefs)]
  }

  function AssertionEvent(r: Request, chronicleId: string, n: nat, now: nat): ChronicleEvent
    requires r.body.AssertionBody?
  {
    var b, eventId, objectId := r.body, FreshId(EventId, n), FreshId(ObjectId, n + 1);
    var payload := map[KChronicleObject := Dict(AssertionObject(r, objectId, chronicleId, eventId, now)),
                       KApi := Dict(ApiFields(r))];
    var d := PlainDraft(ChronicleObjectRecorded, Tool, "API assertion recorded: " + b.statement, payload)
               .(contextIds := b.contextIds, artifactId := b.assertedArtifactId, source := b.assertionSource,
                 reviewStatus := Some(r.meta.reviewStatus), tags := ["api_assertion", b.assertionKind]);
    Stamp(d, eventId, chronicleId, now)
  }

  // ----- Logging: everything a commit does up to and including the append ------------------------

  /** What `RdeService.record` checks before it writes. */
  function RdeRefusal(s: Store, b: Body): Option<ServiceError>
    requires b.DiffBody?
  {
    if b.artifactId !in s.index.artifacts then Some(ArtifactNotFound(b.artifactId))
    else if (b.artifactId, b.fromVersionId) !in s.versionFiles then Some(RdeVersionNotFound(b.fromVersionId))
    else if (b.artifactId, b.toVersionId) !in s.versionFiles then Some(RdeVersionNotFound(b.toVersionId))
    else None
  }

  /** The event a new write appends, with the number of ids it uses, or why it is refused. */
  function NewEvent(s: Store, r: Request, now: nat): Result<(ChronicleEvent, nat), ServiceError>
    requires s.chronicleId.Some?
  {
    match r.body
    case EventBody(_, _, _, _, _, _, _, _, _, _, _) =>
      Success((Stamp(EventDraft(r), FreshId(EventId, s.nextId), s.chronicleId.value, now), 1))
    case DiffBody(_, _, _, _, _) =>
      if RdeRefusal(s, r.body).Some? then Failure(RdeRefusal(s, r.body).value)
      else
        var d := DiffDraft(r, NewRde(r.body, s.nextId, now));
        Success((Stamp(d, FreshId(EventId, s.nextId + 1), s.chronicleId.value, now), 2))
    case AssertionBody(_, _, _, _, _, _, _, _, _) =>
      Success((AssertionEvent(r, s.chronicleId.value, s.nextId, now), 2))
  }

  function Logged(s: Store, e: ChronicleEvent, ids: nat): Store {
    Appended(s, e).(nextId := s.nextId + ids)
  }

  // ----- The audit entry and the response ----------------------------------------------------------

  function ReferencedRecords(r: Request, e: ChronicleEvent): seq<string> {
    match r.body
    case EventBody(_, _, _, _, _, _, contextIds, _, _, _, _) => [e.eventId] + contextIds
    case DiffBody(artifactId, _, _, _, _) =>
      [e.eventId] + (if e.rdeRecordId.Some? then [e.rdeRecordId.value] else []) + [artifactId]
    case AssertionBody(_, _, _, _, _, _, contextIds, _, _) =>
      [e.eventId] + (if AssertionIdOf(e).Some? then [AssertionIdOf(e).value] else []) + contextIds
  }

  function AuditSummary(r: Request, e: ChronicleEvent): string {
    match r.body
    case EventBody(eventType, _, summary, _, _, _, _, _, _, _, _) =>
      "API write accepted for " + EventTypeName(eventType) + ": " + summary
    case DiffBody(_, _, _, _, summary) =>
      "API RDE diff recorded: " + OrElse(summary, if e.rdeRecordId.Some? then e.rdeRecordId.value else "")
    case AssertionBody(_, statement, _, _, _, _, _, _, _) => "API assertion recorded: " + statement
  }

  function Purpose(r: Request): string {
    OrElse(r.meta.auditReason,
           match r.body
           case EventBody(_, _, summary, _, _, _, _, _, _, _, _) => summary
           case DiffBody(_, _, _, _, summary) => summary
           case AssertionBody(_, statement, _, _, _, _, _, _, _) => statement)
  }

  function AuditOf(r: Request, e: ChronicleEvent, n: nat, now: nat): AuditEntry {
    AuditEntry(FreshId(AuditId, n), now, r.meta.origin.actorId, Purpose(r), ReferencedRecords(r, e), Some(e.eventId),
               AuditSummary(r, e), Endpoint(r), r.meta.idempotencyKey, r.meta.origin.sourceTool,
               r.meta.origin.actorKind, r.meta.reviewStatus)
  }

  function Audited(s: ApiState, r: Request, e: ChronicleEvent, now: nat): ApiState {
    ApiState(s.store.(nextId := s.store.nextId + 1), s.audit + [AuditOf(r, e, s.store.nextId, now)])
  }

  /** The ids a response gives for the event of a write. */
  function IdsFor(r: Request, e: ChronicleEvent): (Option<string>, Option<string>, Option<string>) {
    (Some(e.eventId), if r.body.DiffBody? then e.rdeRecordId else None,
     if r.body.AssertionBody? then AssertionIdOf(e) else None)
  }

  function RecordedNotice(r: Request): Notice {
    match r.body
    case EventBody(_, _, _, _, _, _, _, _, _, _, _) => EventRecorded
    case DiffBody(_, _, _, _, _) => DiffRecorded
    case AssertionBody(_, _, _, _, _, _, _, _, _) => AssertionRecorded
  }

  function Accept(r: Request, e: ChronicleEvent, duplicate: bool): Outcome {
    var ids := IdsFor(r, e);
    Responded(Response(true, false, duplicate, r.meta.idempotencyKey, ids.0, ids.1, ids.2,
                       [if duplicate then DuplicateKey else RecordedNotice(r)], []))
  }

  // ----- Whole calls ---------------------------------------------------------------------------------

  /** Only `POST /events` rebuilds the index before it audits; a failing rebuild raises. */
  function RebuildsFirst(r: Request): bool {
    r.body.EventBody?
  }

  function Commit(s: ApiState, r: Request, now: nat): (ApiState, Outcome) {
    if s.store.chronicleId.None? then (s, Raised(NotInitialized))
    else
      var duplicate := FirstWith(s.store.log, WriteKey(r));
      if duplicate.Some? then (s, Accept(r, duplicate.value, true))
      else
        var written := NewEvent(s.store, r, now);
        if written.Failure? then (s, Raised(written.error))
        else Complete(s.(store := Logged(s.store, written.value.0, written.value.1)), r, written.value.0, now)
  }

  /** What a commit does once its event is in the log. */
  function Complete(s: ApiState, r: Request, e: ChronicleEvent, now: nat): (ApiState, Outcome) {
    if !RebuildsFirst(r) then (Audited(s, r, e, now), Accept(r, e, false))
    else if Project(s.store.log).None? then (s, Raised(ProjectionFailed))
    else (Audited(s.(store := Rebuilt(s.store)), r, e, now), Accept(r, e, false))
  }

  function Preview(r: Request): Outcome {
    if !r.meta.dryRun then
      Responded(Response(false, false, false, r.meta.idempotencyKey, None, None, None, [], [PersistenceBlocked]))
    else
      Responded(Response(true, true, false, r.meta.idempotencyKey, None, None, None,
                         [PreviewOnly(Endpoint(r))]
                         + (if r.meta.reviewStatus != Reviewed then [ReviewRequired] else []), []))
  }

  // ----- The service ----------------------------------------------------------------------------------

  class ApiAdapterService {
    const chronicle: ChronicleService
    var audit: seq<AuditEntry>

    ghost function State(): ApiState
      reads this, chronicle
    {
      ApiState(chronicle.State(), audit)
    }

    constructor (chronicle: ChronicleService)
      ensures this.chronicle == chronicle && audit == []
    {
      this.chronicle := chronicle;
      audit := [];
    }

    /** Scan the log for the key, stopping at the first match. */
    method FindDuplicateApiEvent(key: (string, string)) returns (found: Option<ChronicleEvent>)
      ensures found == FirstWith(chronicle.log, key)
    {
      var i := 0;
      while i < |chronicle.log|
        invariant 0 <= i <= |chronicle.log|
        invariant FirstWith(chronicle.log, key) == FirstWith(chronicle.log[i..], key)
      {
        if Carries(chronicle.log[i], key) {
          return Some(chronicle.log[i]);
        }
        i := i + 1;
      }
      found := None;
    }

    method RecordAudit(r: Request, e: ChronicleEvent, now: nat)
      modifies this, chronicle`nextId
      ensures State() == Audited(old(State()), r, e, now)
    {
      var n := chronicle.nextId;
      var auditId := chronicle.GenerateId(AuditId);
      audit := audit + [AuditOf(r, e, n, now)];
    }

    /** A preview appends to its warnings and to nothing else. */
    method PreviewWrite(r: Request) returns (outcome: Outcome)
      ensures outcome == Preview(r)
      ensures outcome.Responded? && outcome.response.eventId == None && !outcome.response.duplicate
      ensures outcome.response.accepted <==> r.meta.dryRun
    {
      if !r.meta.dryRun {
        return Responded(Response(false, false, false, r.meta.idempotencyKey, None, None, None, [],
                                  [PersistenceBlocked]));
      }
      var warnings := [PreviewOnly(Endpoint(r))];
      if r.meta.reviewStatus != Reviewed {
        warnings := warnings + [ReviewRequired];
      }
      outcome := Responded(Response(true, true, false, r.meta.idempotencyKey, None, None, None, warnings, []));
    }

    method CommitEventWrite(r: Request, now: nat) returns (outcome: Outcome)
      requires r.body.EventBody?
      modifies this, chronicle
      ensures (State(), outcome) == Commit(old(State()), r, now)
    {
      if chronicle.chronicleId.None? {
        return Raised(NotInitialized);
      }
      var duplicate := FindDuplicateApiEvent(WriteKey(r));
      if duplicate.Some? {
        return Accept(r, duplicate.value, true);
      }
      var recorded := chronicle.RecordEvent(EventDraft(r), now);
      var e := recorded.value;
      var ok := chronicle.RebuildIndexes();
      if !ok {
        return Raised(ProjectionFailed);
      }
      RecordAudit(r, e, now);
      outcome := Accept(r, e, false);
    }

    /** `RdeService.record`. */
    method RecordRde(r: Request, now: nat) returns (recorded: Result<RdeRecord, ServiceError>)
      requires r.body.DiffBody? && chronicle.chronicleId.Some?
      modifies chronicle`log, chronicle`nextId
      ensures var s := old(chronicle.State());
              var written := NewEvent(s, r, now);
              (written.Failure? ==> recorded == Failure(written.error) && chronicle.State() == s)
              && (written.Success? ==> recorded == Success(NewRde(r.body, s.nextId, now))
                                       && chronicle.State() == Logged(s, written.value.0, written.value.1))
    {
      var refusal := RdeRefusal(Store(chronicle.chronicleId, chronicle.log, chronicle.index, chronicle.nextId,
                                      chronicle.versionFiles, chronicle.currentFiles), r.body);
      if refusal.Some? {
        return Failure(refusal.value);
      }
      var rde := NewRde(r.body, chronicle.nextId, now);
      var rdeId := chronicle.GenerateId(RdeId);
      var e := chronicle.RecordEvent(DiffDraft(r, rde), now);
      recorded := Success(rde);
    }

    /** After recording, the new event is found again by its key. */
    method CommitDiffWrite(r: Request, now: nat) returns (outcome: Outcome)
      requires r.body.DiffBody?
      modifies this, chronicle
      ensures (State(), outcome) == Commit(old(State()), r, now)
    {
      if chronicle.chronicleId.None? {
        return Raised(NotInitialized);
      }
      var duplicate := FindDuplicateApiEvent(WriteKey(r));
      if duplicate.Some? {
        return Accept(r, duplicate.value, true);
      }
      ghost var before := chronicle.State();
      var rde := RecordRde(r, now);
      if rde.Failure? {
        return Raised(rde.error);
      }
      ghost var e := NewEvent(before, r, now).value.0;
      NewEventCarries(before, r, now);
      FirstWithAppend(before.log, e, WriteKey(r));
      var event := FindDuplicateApiEvent(WriteKey(r));
      RecordAudit(r, event.value, now);
      outcome := Accept(r, event.value, false);
    }

    method CommitAssertionWrite(r: Request, now: nat) returns (outcome: Outcome)
      requires r.body.AssertionBody?
      modifies this, chronicle
      ensures (State(), outcome) == Commit(old(State()), r, now)
    {
      if chronicle.chronicleId.None? {
        return Raised(NotInitialized);
      }
      var duplicate := FindDuplicateApiEvent(WriteKey(r));
      if duplicate.Some? {
        return Accept(r, duplicate.value, true);
      }
      var e := AssertionEvent(r, chronicle.chronicleId.value, chronicle.nextId, now);
      var eventId := chronicle.GenerateId(EventId);
      var assertionId := chronicle.GenerateId(ObjectId);
      chronicle.AppendEvent(e);
      RecordAudit(r, e, now);
      outcome := Accept(r, e, false);
    }
  }

  // ----- The key of a new event ---------------------------------------------------------------------

  /** A new event carries its own key and no other, whatever payload the client sent. */
  lemma NewEventCarries(s: Store, r: Request, now: nat)
    requires s.chronicleId.Some? && NewEvent(s, r, now).Success?
    ensures forall key :: Carries(NewEvent(s, r, now).value.0, key) <==> key == WriteKey(r)
  {
    var e := NewEvent(s, r, now).value.0;
    assert e.payload[KApi] == Dict(ApiFields(r));
  }

  /** `POST /events` records the request as sent, but for the `api` entry of the payload. */
  lemma EventWriteKeepsRequest(s: Store, r: Request, now: nat)
    requires s.chronicleId.Some? && r.body.EventBody?
    ensures NewEvent(s, r, now).Success?
    ensures var e, b := NewEvent(s, r, now).value.0, r.body;
            e.payload - {KApi} == b.payload - {KApi} && KApi in e.payload
            && e.eventType == b.eventType && e.actor == b.actor && e.summary == b.summary
            && e.parentEventId == b.parentEventId && e.artifactId == b.eventArtifactId
            && e.contextIds == b.eventContextIds
            && e.decisionId == b.decisionId && e.rdeRecordId == b.rdeRecordId && e.source == b.source
            && e.tags == b.tags
            && e.reviewStatus == Some(r.meta.reviewStatus) && e.timestamp == now && e.chronicleId == s.chronicleId.value
  {
  }

  lemma RdeRoundTrip(rde: RdeRecord)
    ensures ValidateRde(DumpRde(rde)) == Some(rde)
  {
  }

  /** A recorded diff can be read back from its event. */
  lemma DiffReadsBack(s: Store, r: Request, now: nat)
    requires s.chronicleId.Some? && r.body.DiffBody? && NewEvent(s, r, now).Success?
    ensures var e := NewEvent(s, r, now).value.0;
            e.eventType == RdeDiffRecorded && e.rdeRecordId == Some(FreshId(RdeId, s.nextId))
            && e.artifactId == Some(r.body.artifactId) && KRde in e.payload && e.payload[KRde].Dict?
            && ValidateRde(e.payload[KRde].fields) ==
                 Some(RdeRecord(e.rdeRecordId.value, r.body.artifactId, r.body.fromVersionId, r.body.toVersionId, now,
                                r.body.createdBy, r.body.diffSummary))
  {
    RdeRoundTrip(NewRde(r.body, s.nextId, now));
  }

  /** A recorded assertion's id can be read back from its event. */
  lemma AssertionReadsBack(s: Store, r: Request, now: nat)
    requires s.chronicleId.Some? && r.body.AssertionBody?
    ensures NewEvent(s, r, now).Success?
    ensures var e := NewEvent(s, r, now).value.0;
            AssertionIdOf(e) == Some(FreshId(ObjectId, s.nextId + 1)) && e.contextIds == r.body.contextIds
            && e.artifactId == r.body.assertedArtifactId
            && e.payload[KChronicleObject].fields[KSourceEventId] == Str(e.eventId)
            && e.payload[KChronicleObject].fields[KSummary] == Str(r.body.statement)
  {
    var e := NewEvent(s, r, now).value.0;
    var assertion := AssertionObject(r, FreshId(ObjectId, s.nextId + 1), s.chronicleId.value, e.eventId, now);
    assert e.payload[KChronicleObject] == Dict(assertion);
  }

  lemma {:induction false} FirstWithAppend(log: seq<ChronicleEvent>, e: ChronicleEvent, key: (string, string))
    ensures FirstWith(log + [e], key) ==
              if FirstWith(log, key).Some? then FirstWith(log, key) else if Carries(e, key) then Some(e) else None
  {
    if log == [] {
      assert log + [e] == [e] && [e][1..] == [];
    } else {
      assert (log + [e])[1..] == log[1..] + [e];
      FirstWithAppend(log[1..], e, key);
    }
  }
}
