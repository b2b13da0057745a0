/**
 * The stored records: JSON values, Chronicle events, and the typed records that event
 * payloads carry. `Dump*` is a model's JSON dump; `Validate*` reads a record back and
 * fails on what the model class refuses.
 */
module Records {
  import opened Wrappers

  // ----- JSON --------------------------------------------------------------------------

  /** Dictionary keys: those the code mentions by name, and every other one. */
  datatype Key =
    // payload containers
    | KApi | KContext | KArtifact | KVersion | KDecision | KBoundaryRule | KRde | KInjectionPlan | KChronicleObject
    // record ids
    | KContextId | KArtifactId | KDecisionId | KRuleId | KTargetId | KVersionId | KRdeRecordId | KEventId
    | KObjectId | KPlanId | KChronicleId
    // record fields
    | KTitle | KSummary | KSource | KSourceRef | KSourceType | KSourceTool | KSourceSession | KPath | KTags
    | KVisibilityHint | KVisibility | KScope | KScopeHint | KClassification | KConfidence | KCreatedAt | KUpdatedAt
    | KLayer | KSensitivity | KOwner | KSourceRefs
    | KArtifactType | KCurrentVersionId | KStatus | KCreatedBy | KSourceEventId | KParentVersionId | KChangeSummary
    | KFromVersionId | KToVersionId | KDecisionType | KDecidedBy | KDecidedAt | KReason
    | KRuleType | KField | KOperator | KValue | KEnabled
    | KTask | KSelected | KWarned | KExcluded | KWarnings | KLifecycleWarning | KTool | KSession
    // API metadata
    | KSchemaVersion | KEndpoint | KIdempotencyKey | KOrigin | KDryRun | KAuditReason | KActorKind
    | KAssertionKind | KVerificationStatus | KReviewStatus | KActorId | KObjectType | KDetail | KEvidence
    | Other(name: string)

  datatype Json =
    | Null
    | Bool(b: bool)
    | Num(n: int)
    | Str(s: string)
    | List(items: seq<Json>)
    | Dict(fields: map<Key, Json>)

  type Fields = map<Key, Json>

  /** Python truthiness. */
  predicate Truthy(j: Json) {
    match j
    case Null => false
    case Bool(b) => b
    case Num(n) => n != 0
    case Str(s) => s != ""
    case List(items) => items != []
    case Dict(fields) => fields != map[]
  }

  /** Truthiness of an optional string field: neither `None` nor empty. */
  predicate Given(field: Option<string>) {
    field.Some? && field.value != ""
  }

  /** `s or t` on strings. */
  function OrElse(s: string, t: string): string {
    if s != "" then s else t
  }

  /** `separator.join(parts)`. */
  function Join(separator: string, parts: seq<string>): string {
    if parts == [] then "" else if |parts| == 1 then parts[0] else parts[0] + separator + Join(separator, parts[1..])
  }

  function DumpOption(o: Option<string>): Json {
    if o.Some? then Str(o.value) else Null
  }

  function DumpStrings(ss: seq<string>): Json {
    List(seq(|ss|, i requires 0 <= i < |ss| => Str(ss[i])))
  }

  // ----- Reading one field of a dictionary --------------------------------------------

  function NeedString(m: Fields, k: Key): Option<string> {
    if k in m && m[k].Str? then Some(m[k].s) else None
  }

  function StringOr(m: Fields, k: Key, default: string): Option<string> {
    if k !in m then Some(default) else if m[k].Str? then Some(m[k].s) else None
  }

  function OptionalString(m: Fields, k: Key): Option<Option<string>> {
    if k !in m || m[k].Null? then Some(None) else if m[k].Str? then Some(Some(m[k].s)) else None
  }

  function NeedTime(m: Fields, k: Key): Option<nat> {
    if k in m && m[k].Num? && m[k].n >= 0 then Some(m[k].n) else None
  }

  function StringsOf(j: Json): Option<seq<string>> {
    if j.List? && forall i :: 0 <= i < |j.items| ==> j.items[i].Str?
    then Some(seq(|j.items|, i requires 0 <= i < |j.items| => j.items[i].s))
    else None
  }

  function Strings(m: Fields, k: Key): Option<seq<string>> {
    if k !in m then Some([]) else StringsOf(m[k])
  }

  lemma StringsRoundTrip(ss: seq<string>)
    ensures StringsOf(DumpStrings(ss)) == Some(ss)
  {
    var items := DumpStrings(ss).items;
    assert seq(|items|, i requires 0 <= i < |items| => items[i].s) == ss;
  }

  // ----- Nested records ----------------------------------------------------------------

  datatype Source = Source(
    sourceType: string, sourceRef: string, sourceTool: Option<string>, sourceSession: Option<string>)

  /** Public, shareable, internal, sensitive or restricted. */
  type Layer = n: nat | n <= 4

  datatype Classification = Classification(
    layer: Layer, sensitivity: string, owner: string, createdAt: Option<nat>, sourceType: string,
    sourceRefs: seq<string>)

  function DumpSource(s: Source): Fields {
    map[KSourceType := Str(s.sourceType), KSourceRef := Str(s.sourceRef),
        KSourceTool := DumpOption(s.sourceTool), KSourceSession := DumpOption(s.sourceSession)]
  }

  function ValidateSource(m: Fields): Option<Source> {
    var sourceType :- StringOr(m, KSourceType, "unknown");
    var sourceRef :- StringOr(m, KSourceRef, "");
    var sourceTool :- OptionalString(m, KSourceTool);
    var sourceSession :- OptionalString(m, KSourceSession);
    Some(Source(sourceType, sourceRef, sourceTool, sourceSession))
  }

  function DumpClassification(c: Classification): Fields {
    map[KLayer := Num(c.layer), KSensitivity := Str(c.sensitivity), KOwner := Str(c.owner),
        KCreatedAt := DumpOptionalTime(c.createdAt), KSourceType := Str(c.sourceType),
        KSourceRefs := DumpStrings(c.sourceRefs)]
  }

  function ValidateClassification(m: Fields): Option<Classification> {
    var layer :- LayerOr(m, KLayer, 2);
    var sensitivity :- StringOr(m, KSensitivity, "internal");
    var owner :- StringOr(m, KOwner, "");
    var createdAt :- OptionalTime(m, KCreatedAt);
    var sourceType :- StringOr(m, KSourceType, "");
    var sourceRefs :- Strings(m, KSourceRefs);
    Some(Classification(layer, sensitivity, owner, createdAt, sourceType, sourceRefs))
  }

  function DumpOptionalTime(t: Option<nat>): Json {
    if t.Some? then Num(t.value) else Null
  }

  function OptionalTime(m: Fields, k: Key): Option<Option<nat>> {
    if k !in m || m[k].Null? then Some(None)
    else
      var time :- NeedTime(m, k);
      Some(Some(time))
  }

  function LayerOr(m: Fields, k: Key, default: Layer): Option<Layer> {
    if k !in m then Some(default) else if m[k].Num? && 0 <= m[k].n <= 4 then Some(m[k].n) else None
  }

  function DumpOptionalSource(s: Option<Source>): Json {
    if s.Some? then Dict(DumpSource(s.value)) else Null
  }

  function OptionalSource(m: Fields, k: Key): Option<Option<Source>> {
    if k !in m || m[k].Null? then Some(None)
    else if m[k].Dict? then
      var source :- ValidateSource(m[k].fields);
      Some(Some(source))
    else None
  }

  function DumpOptionalClassification(c: Option<Classification>): Json {
    if c.Some? then Dict(DumpClassification(c.value)) else Null
  }

  function OptionalClassification(m: Fields, k: Key): Option<Option<Classification>> {
    if k !in m || m[k].Null? then Some(None)
    else if m[k].Dict? then
      var classification :- ValidateClassification(m[k].fields);
      Some(Some(classification))
    else None
  }

  lemma SourceField(m: Fields, k: Key, s: Option<Source>)
    requires k in m && m[k] == DumpOptionalSource(s)
    ensures OptionalSource(m, k) == Some(s)
  {
    if s.Some? {
      assert ValidateSource(DumpSource(s.value)) == s;
    }
  }

  lemma ClassificationField(m: Fields, k: Key, c: Option<Classification>)
    requires k in m && m[k] == DumpOptionalClassification(c)
    ensures OptionalClassification(m, k) == Some(c)
  {
    if c.Some? {
      StringsRoundTrip(c.value.sourceRefs);
      assert ValidateClassification(DumpClassification(c.value)) == c;
    }
  }

  // ----- Contexts ------------------------------------------------------------------------

  datatype Context = Context(
    contextId: string, title: string, summary: string, sourceType: string, sourceRef: string,
    scope: string, scopeHint: Option<string>, visibilityHint: string,
    classification: Option<Classification>, source: Option<Source>, confidence: string,
    createdAt: nat, tags: seq<string>)

  function DumpContext(c: Context): Fields {
    map[KContextId := Str(c.contextId), KTitle := Str(c.title), KSummary := Str(c.summary),
        KSourceType := Str(c.sourceType), KSourceRef := Str(c.sourceRef), KScope := Str(c.scope),
        KScopeHint := DumpOption(c.scopeHint), KVisibilityHint := Str(c.visibilityHint),
        KClassification := DumpOptionalClassification(c.classification),
        KSource := DumpOptionalSource(c.source), KConfidence := Str(c.confidence),
        KCreatedAt := Num(c.createdAt), KTags := DumpStrings(c.tags)]
  }

  /** A payload without `scope` takes its scope from the older `scope_hint`. */
  function ValidateContext(m: Fields): (r: Option<Context>)
    ensures r.Some? ==> KContextId in m && m[KContextId] == Str(r.value.contextId)
  {
    var contextId :- NeedString(m, KContextId);
    var title :- NeedString(m, KTitle);
    var summary :- StringOr(m, KSummary, "");
    var sourceType :- StringOr(m, KSourceType, "conversation");
    var sourceRef :- StringOr(m, KSourceRef, "");
    var scope :- if KScope !in m && KScopeHint in m then NeedString(m, KScopeHint)
                 else StringOr(m, KScope, "unknown");
    var scopeHint :- OptionalString(m, KScopeHint);
    var visibilityHint :- StringOr(m, KVisibilityHint, "unknown");
    var classification :- OptionalClassification(m, KClassification);
    var source :- OptionalSource(m, KSource);
    var confidence :- StringOr(m, KConfidence, "medium");
    var createdAt :- NeedTime(m, KCreatedAt);
    var tags :- Strings(m, KTags);
    Some(Context(contextId, title, summary, sourceType, sourceRef, scope, scopeHint, visibilityHint,
                 classification, source, confidence, createdAt, tags))
  }

  lemma ContextRoundTrip(c: Context)
    ensures ValidateContext(DumpContext(c)) == Some(c)
  {
    var m := DumpContext(c);
    assert NeedString(m, KContextId) == Some(c.contextId) && NeedString(m, KTitle) == Some(c.title);
    assert StringOr(m, KSummary, "") == Some(c.summary);
    assert StringOr(m, KSourceType, "conversation") == Some(c.sourceType);
    assert StringOr(m, KSourceRef, "") == Some(c.sourceRef);
    assert KScope in m && StringOr(m, KScope, "unknown") == Some(c.scope);
    assert OptionalString(m, KScopeHint) == Some(c.scopeHint);
    assert StringOr(m, KVisibilityHint, "unknown") == Some(c.visibilityHint);
    assert OptionalClassification(m, KClassification) == Some(c.classification) by {
      ClassificationField(m, KClassification, c.classification);
    }
    assert OptionalSource(m, KSource) == Some(c.source) by {
      SourceField(m, KSource, c.source);
    }
    assert StringOr(m, KConfidence, "medium") == Some(c.confidence);
    assert NeedTime(m, KCreatedAt) == Some(c.createdAt);
    assert Strings(m, KTags) == Some(c.tags) by {
      StringsRoundTrip(c.tags);
    }
  }

  // ----- Artifacts and versions --------------------------------------------------------

  datatype Artifact = Artifact(
    artifactId: string, chronicleId: string, title: string, artifactType: string,
    currentVersionId: string, createdAt: nat, updatedAt: nat, status: string, path: string,
    visibilityHint: string, classification: Option<Classification>, source: Option<Source>,
    tags: seq<string>)

  datatype Version = Version(
    versionId: string, artifactId: string, createdAt: nat, createdBy: string, sourceEventId: string,
    parentVersionId: Option<string>, path: string, changeSummary: string)

  function DumpArtifact(a: Artifact): Fields {
    map[KArtifactId := Str(a.artifactId), KChronicleId := Str(a.chronicleId), KTitle := Str(a.title),
        KArtifactType := Str(a.artifactType), KCurrentVersionId := Str(a.currentVersionId),
        KCreatedAt := Num(a.createdAt), KUpdatedAt := Num(a.updatedAt), KStatus := Str(a.status),
        KPath := Str(a.path), KVisibilityHint := Str(a.visibilityHint),
        KClassification := DumpOptionalClassification(a.classification),
        KSource := DumpOptionalSource(a.source), KTags := DumpStrings(a.tags)]
  }

  function ValidateArtifact(m: Fields): (r: Option<Artifact>)
    ensures r.Some? ==> KArtifactId in m && m[KArtifactId] == Str(r.value.artifactId)
  {
    var artifactId :- NeedString(m, KArtifactId);
    var chronicleId :- NeedString(m, KChronicleId);
    var title :- NeedString(m, KTitle);
    var artifactType :- NeedString(m, KArtifactType);
    var currentVersionId :- NeedString(m, KCurrentVersionId);
    var createdAt :- NeedTime(m, KCreatedAt);
    var updatedAt :- NeedTime(m, KUpdatedAt);
    var status :- StringOr(m, KStatus, "draft");
    var path :- NeedString(m, KPath);
    var visibilityHint :- StringOr(m, KVisibilityHint, "unknown");
    var classification :- OptionalClassification(m, KClassification);
    var source :- OptionalSource(m, KSource);
    var tags :- Strings(m, KTags);
    Some(Artifact(artifactId, chronicleId, title, artifactType, currentVersionId, createdAt, updatedAt,
                  status, path, visibilityHint, classification, source, tags))
  }

  lemma ArtifactRoundTrip(a: Artifact)
    ensures ValidateArtifact(DumpArtifact(a)) == Some(a)
  {
    var m := DumpArtifact(a);
    assert NeedString(m, KArtifactId) == Some(a.artifactId);
    assert NeedString(m, KChronicleId) == Some(a.chronicleId) && NeedString(m, KTitle) == Some(a.title);
    assert NeedString(m, KArtifactType) == Some(a.artifactType);
    assert NeedString(m, KCurrentVersionId) == Some(a.currentVersionId);
    assert NeedTime(m, KCreatedAt) == Some(a.createdAt) && NeedTime(m, KUpdatedAt) == Some(a.updatedAt);
    assert StringOr(m, KStatus, "draft") == Some(a.status) && NeedString(m, KPath) == Some(a.path);
    assert StringOr(m, KVisibilityHint, "unknown") == Some(a.visibilityHint);
    assert OptionalClassification(m, KClassification) == Some(a.classification) by {
      ClassificationField(m, KClassification, a.classification);
    }
    assert OptionalSource(m, KSource) == Some(a.source) by {
      SourceField(m, KSource, a.source);
    }
    assert Strings(m, KTags) == Some(a.tags) by {
      StringsRoundTrip(a.tags);
    }
  }

  function DumpVersion(v: Version): Fields {
    map[KVersionId := Str(v.versionId), KArtifactId := Str(v.artifactId), KCreatedAt := Num(v.createdAt),
        KCreatedBy := Str(v.createdBy), KSourceEventId := Str(v.sourceEventId),
        KParentVersionId := DumpOption(v.parentVersionId), KPath := Str(v.path),
        KChangeSummary := Str(v.changeSummary)]
  }

  function ValidateVersion(m: Fields): (r: Option<Version>)
    ensures r.Some? ==> KArtifactId in m && m[KArtifactId] == Str(r.value.artifactId)
  {
    var versionId :- NeedString(m, KVersionId);
    var artifactId :- NeedString(m, KArtifactId);
    var createdAt :- NeedTime(m, KCreatedAt);
    var createdBy :- NeedString(m, KCreatedBy);
    var sourceEventId :- NeedString(m, KSourceEventId);
    var parentVersionId :- OptionalString(m, KParentVersionId);
    var path :- NeedString(m, KPath);
    var changeSummary :- StringOr(m, KChangeSummary, "");
    Some(Version(versionId, artifactId, createdAt, createdBy, sourceEventId, parentVersionId, path, changeSummary))
  }

  lemma VersionRoundTrip(v: Version)
    ensures ValidateVersion(DumpVersion(v)) == Some(v)
  {
  }

  // ----- Decisions, boundary rules, RDE diff records --------------------------------------

  datatype Decision = Decision(
    decisionId: string, chronicleId: string, artifactId: Option<string>, eventId: Option<string>,
    decisionType: string, decidedBy: string, decidedAt: nat, reason: string)

  function ValidateDecision(m: Fields): (r: Option<Decision>)
    ensures r.Some? ==> KDecisionId in m && m[KDecisionId] == Str(r.value.decisionId)
  {
    var decisionId :- NeedString(m, KDecisionId);
    var chronicleId :- NeedString(m, KChronicleId);
    var artifactId :- OptionalString(m, KArtifactId);
    var eventId :- OptionalString(m, KEventId);
    var decisionType :- NeedString(m, KDecisionType);
    var decidedBy :- NeedString(m, KDecidedBy);
    var decidedAt :- NeedTime(m, KDecidedAt);
    var reason :- StringOr(m, KReason, "");
    Some(Decision(decisionId, chronicleId, artifactId, eventId, decisionType, decidedBy, decidedAt, reason))
  }

  datatype RuleValue = OneValue(value: string) | ManyValues(values: seq<string>)

  datatype BoundaryRule = BoundaryRule(
    ruleId: string, ruleType: string, field: string, operator: string, value: RuleValue, reason: string,
    createdAt: nat)

  function NeedRuleValue(m: Fields, k: Key): Option<RuleValue> {
    if k !in m then None
    else if m[k].Str? then Some(OneValue(m[k].s))
    else
      var values :- StringsOf(m[k]);
      Some(ManyValues(values))
  }

  function ValidateBoundaryRule(m: Fields): (r: Option<BoundaryRule>)
    ensures r.Some? ==> KRuleId in m && m[KRuleId] == Str(r.value.ruleId)
  {
    var ruleId :- NeedString(m, KRuleId);
    var ruleType :- NeedString(m, KRuleType);
    var field :- NeedString(m, KField);
    var operator :- NeedString(m, KOperator);
    var value :- NeedRuleValue(m, KValue);
    var reason :- StringOr(m, KReason, "");
    var createdAt :- NeedTime(m, KCreatedAt);
    Some(BoundaryRule(ruleId, ruleType, field, operator, value, reason, createdAt))
  }

  datatype RdeRecord = RdeRecord(
    rdeRecordId: string, artifactId: string, fromVersionId: string, toVersionId: string,
    createdAt: nat, createdBy: string, summary: string)

  function DumpRde(r: RdeRecord): Fields {
    map[KRdeRecordId := Str(r.rdeRecordId), KArtifactId := Str(r.artifactId),
        KFromVersionId := Str(r.fromVersionId), KToVersionId := Str(r.toVersionId),
        KCreatedAt := Num(r.createdAt), KCreatedBy := Str(r.createdBy), KSummary := Str(r.summary)]
  }

  function ValidateRde(m: Fields): (r: Option<RdeRecord>)
    ensures r.Some? ==> KRdeRecordId in m && m[KRdeRecordId] == Str(r.value.rdeRecordId)
  {
    var rdeRecordId :- NeedString(m, KRdeRecordId);
    var artifactId :- NeedString(m, KArtifactId);
    var fromVersionId :- NeedString(m, KFromVersionId);
    var toVersionId :- NeedString(m, KToVersionId);
    var createdAt :- NeedTime(m, KCreatedAt);
    var createdBy :- NeedString(m, KCreatedBy);
    var summary :- StringOr(m, KSummary, "");
    Some(RdeRecord(rdeRecordId, artifactId, fromVersionId, toVersionId, createdAt, createdBy, summary))
  }

  function DumpRuleValue(v: RuleValue): Json {
    match v
    case OneValue(value) => Str(value)
    case ManyValues(values) => DumpStrings(values)
  }

  /** A decision is read from the fields of the same names. */
  lemma DecisionRoundTrip(d: Decision)
    ensures ValidateDecision(
              map[KDecisionId := Str(d.decisionId), KChronicleId := Str(d.chronicleId),
                  KArtifactId := DumpOption(d.artifactId), KEventId := DumpOption(d.eventId),
                  KDecisionType := Str(d.decisionType), KDecidedBy := Str(d.decidedBy),
                  KDecidedAt := Num(d.decidedAt), KReason := Str(d.reason)]) == Some(d)
  {
  }

  /** A boundary rule is read from the fields of the same names; its value is a string or a list of strings. */
  lemma BoundaryRuleRoundTrip(r: BoundaryRule)
    ensures ValidateBoundaryRule(
              map[KRuleId := Str(r.ruleId), KRuleType := Str(r.ruleType), KField := Str(r.field),
                  KOperator := Str(r.operator), KValue := DumpRuleValue(r.value), KReason := Str(r.reason),
                  KCreatedAt := Num(r.createdAt)]) == Some(r)
  {
    if r.value.ManyValues? {
      StringsRoundTrip(r.value.values);
    }
  }

  /** What a context is taken to be when only its required fields are given. */
  lemma ContextDefaults(id: string, title: string, time: nat)
    ensures ValidateContext(map[KContextId := Str(id), KTitle := Str(title), KCreatedAt := Num(time)])
            == Some(Context(id, title, "", "conversation", "", "unknown", None, "unknown", None, None, "medium",
                            time, []))
  {
  }

  /** An older context without a scope takes it from its hint, and only then. */
  lemma ContextScopeFromHint(m: Fields)
    requires ValidateContext(m).Some?
    ensures KScope in m ==> m[KScope] == Str(ValidateContext(m).value.scope)
    ensures KScope !in m && KScopeHint in m ==> m[KScopeHint] == Str(ValidateContext(m).value.scope)
    ensures KScope !in m && KScopeHint !in m ==> ValidateContext(m).value.scope == "unknown"
  {
  }

  /** The same for an artifact. */
  lemma ArtifactDefaults(a: Artifact)
    requires a.status == "draft" && a.visibilityHint == "unknown" && a.classification == None && a.source == None
    requires a.tags == []
    ensures ValidateArtifact(
              map[KArtifactId := Str(a.artifactId), KChronicleId := Str(a.chronicleId), KTitle := Str(a.title),
                  KArtifactType := Str(a.artifactType), KCurrentVersionId := Str(a.currentVersionId),
                  KCreatedAt := Num(a.createdAt), KUpdatedAt := Num(a.updatedAt), KPath := Str(a.path)]) == Some(a)
  {
  }

  /** The nested records with nothing but what they need, which for these two is nothing. */
  lemma NestedDefaults()
    ensures ValidateSource(map[]) == Some(Source("unknown", "", None, None))
    ensures ValidateClassification(map[]) == Some(Classification(2, "internal", "", None, "", []))
  {
  }

  /** The other records with their required fields alone. */
  lemma VersionDefaults(v: Version)
    requires v.parentVersionId == None && v.changeSummary == ""
    ensures ValidateVersion(
              map[KVersionId := Str(v.versionId), KArtifactId := Str(v.artifactId), KCreatedAt := Num(v.createdAt),
                  KCreatedBy := Str(v.createdBy), KSourceEventId := Str(v.sourceEventId), KPath := Str(v.path)])
            == Some(v)
  {
  }

  lemma DecisionDefaults(d: Decision)
    requires d.artifactId == None && d.eventId == None && d.reason == ""
    ensures ValidateDecision(
              map[KDecisionId := Str(d.decisionId), KChronicleId := Str(d.chronicleId),
                  KDecisionType := Str(d.decisionType), KDecidedBy := Str(d.decidedBy),
                  KDecidedAt := Num(d.decidedAt)]) == Some(d)
  {
  }

  lemma BoundaryRuleDefaults(r: BoundaryRule)
    requires r.reason == ""
    ensures ValidateBoundaryRule(
              map[KRuleId := Str(r.ruleId), KRuleType := Str(r.ruleType), KField := Str(r.field),
                  KOperator := Str(r.operator), KValue := DumpRuleValue(r.value), KCreatedAt := Num(r.createdAt)])
            == Some(r)
  {
    if r.value.ManyValues? {
      StringsRoundTrip(r.value.values);
    }
  }

  lemma RdeDefaults(r: RdeRecord)
    requires r.summary == ""
    ensures ValidateRde(
              map[KRdeRecordId := Str(r.rdeRecordId), KArtifactId := Str(r.artifactId),
                  KFromVersionId := Str(r.fromVersionId), KToVersionId := Str(r.toVersionId),
                  KCreatedAt := Num(r.createdAt), KCreatedBy := Str(r.createdBy)]) == Some(r)
  {
  }

  /** The falsy values: null, false, zero, and everything empty. */
  lemma TruthyMeans(j: Json)
    ensures Truthy(j) <==> j !in {Null, Bool(false), Num(0), Str(""), List([]), Dict(map[])}
  {
  }

  // ----- Events ----------------------------------------------------------------------------

  datatype EventType =
    | ChronicleCreated | ContextAdded | UserInput | AssistantOutput | ArtifactCreated | ArtifactUpdated
    | ArtifactVersioned | DecisionRecorded | RdeDiffRecorded | NoteAdded | TagUpdated | MetadataUpdated
    | BoundaryRuleAdded | InjectionPlanRecorded | SummaryJobCreated | ReviewDecisionRecorded
    | ProposalRecorded | ChronicleObjectRecorded | ChronicleReactionRecorded

  function EventTypeName(t: EventType): string {
    match t
    case ChronicleCreated => "chronicle_created"
    case ContextAdded => "context_added"
    case UserInput => "user_input"
    case AssistantOutput => "assistant_output"
    case ArtifactCreated => "artifact_created"
    case ArtifactUpdated => "artifact_updated"
    case ArtifactVersioned => "artifact_versioned"
    case DecisionRecorded => "decision_recorded"
    case RdeDiffRecorded => "rde_diff_recorded"
    case NoteAdded => "note_added"
    case TagUpdated => "tag_updated"
    case MetadataUpdated => "metadata_updated"
    case BoundaryRuleAdded => "boundary_rule_added"
    case InjectionPlanRecorded => "injection_plan_recorded"
    case SummaryJobCreated => "summary_job_created"
    case ReviewDecisionRecorded => "review_decision_recorded"
    case ProposalRecorded => "proposal_recorded"
    case ChronicleObjectRecorded => "chronicle_object_recorded"
    case ChronicleReactionRecorded => "chronicle_reaction_recorded"
  }

  /** The type behind a name, as `EventType(name)` finds it. */
  function EventTypeNamed(name: string): Option<EventType> {
    if name == "chronicle_created" then Some(ChronicleCreated)
    else if name == "context_added" then Some(ContextAdded)
    else if name == "user_input" then Some(UserInput)
    else if name == "assistant_output" then Some(AssistantOutput)
    else if name == "artifact_created" then Some(ArtifactCreated)
    else if name == "artifact_updated" then Some(ArtifactUpdated)
    else if name == "artifact_versioned" then Some(ArtifactVersioned)
    else if name == "decision_recorded" then Some(DecisionRecorded)
    else if name == "rde_diff_recorded" then Some(RdeDiffRecorded)
    else if name == "note_added" then Some(NoteAdded)
    else if name == "tag_updated" then Some(TagUpdated)
    else if name == "metadata_updated" then Some(MetadataUpdated)
    else if name == "boundary_rule_added" then Some(BoundaryRuleAdded)
    else if name == "injection_plan_recorded" then Some(InjectionPlanRecorded)
    else if name == "summary_job_created" then Some(SummaryJobCreated)
    else if name == "review_decision_recorded" then Some(ReviewDecisionRecorded)
    else if name == "proposal_recorded" then Some(ProposalRecorded)
    else if name == "chronicle_object_recorded" then Some(ChronicleObjectRecorded)
    else if name == "chronicle_reaction_recorded" then Some(ChronicleReactionRecorded)
    else None
  }

  /** Names and types correspond. */
  lemma EventTypeRoundTrip(t: EventType)
    ensures EventTypeNamed(EventTypeName(t)) == Some(t)
  {
    if t in MIDDLE_TYPES {
      MiddleTypes(t);
    } else if t in LAST_TYPES {
      LastTypes(t);
    } else {
      FirstTypes(t);
    }
  }

  const MIDDLE_TYPES := {BoundaryRuleAdded, InjectionPlanRecorded, SummaryJobCreated, ReviewDecisionRecorded}
  const LAST_TYPES := {ProposalRecorded, ChronicleObjectRecorded, ChronicleReactionRecorded}

  lemma FirstTypes(t: EventType)
    requires t !in MIDDLE_TYPES && t !in LAST_TYPES
    ensures EventTypeNamed(EventTypeName(t)) == Some(t)
  {
  }

  lemma MiddleTypes(t: EventType)
    requires t in MIDDLE_TYPES
    ensures EventTypeNamed(EventTypeName(t)) == Some(t)
  {
  }

  lemma LastTypes(t: EventType)
    requires t in LAST_TYPES
    ensures EventTypeNamed(EventTypeName(t)) == Some(t)
  {
  }

  datatype Actor = User | Assistant | System | Tool | Reviewer | Importer

  datatype ReviewStatus = Unreviewed | Reviewed | NeedsReview

  datatype ChronicleEvent = ChronicleEvent(
    eventId: string, chronicleId: string, timestamp: nat, eventType: EventType, actor: Actor,
    summary: string, payload: Fields, parentEventId: Option<string>, artifactId: Option<string>,
    contextIds: seq<string>, decisionId: Option<string>, rdeRecordId: Option<string>,
    source: Option<Source>, reviewStatus: Option<ReviewStatus>, tags: seq<string>)
}
