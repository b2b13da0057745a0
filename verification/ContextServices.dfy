/** Adding, classifying, updating and reading contexts: each change is a new snapshot in the log. */
module ContextServices {
  import opened Wrappers
  import opened Records
  import opened Ids
  import opened IndexProjection
  import opened ChronicleStore
  import opened ArtifactServices

  datatype AddArgs = AddArgs(
    title: string, summary: string, sourceType: string, sourceRef: string, scope: string,
    visibilityHint: string, confidence: string, tags: seq<string>, source: Option<Source>)

  datatype ClassifyArgs = ClassifyArgs(
    contextId: string, layer: Layer, sensitivity: string, owner: string, reason: string)

  datatype EditArgs = EditArgs(
    contextId: string, title: Option<string>, summary: Option<string>, scope: Option<string>,
    tags: Option<seq<string>>, actor: Actor, eventSummary: string, extraPayload: Fields, source: Option<Source>)

  function ContextDraft(actor: Actor, summary: string, payload: Fields, contextId: string, source: Option<Source>)
    : Draft
  {
    PlainDraft(ContextAdded, actor, summary, payload).(contextIds := [contextId], source := source)
  }

  function AddDraft(c: Context): Draft {
    ContextDraft(User, "Context added: " + c.title, map[KContext := Dict(DumpContext(c))], c.contextId, None)
  }

  function ClassifyDraft(c: Context): Draft {
    ContextDraft(User, "Context classified: " + c.title, map[KContext := Dict(DumpContext(c))], c.contextId, None)
  }

  /** Record a context event, rebuild, return or raise. */
  function Snapshotted(s: Store, d: Draft, now: nat, c: Context): (Store, Result<Context, ServiceError>) {
    var recorded := Recorded(s, d, now);
    if recorded.1.Failure? then (recorded.0, Failure(recorded.1.error))
    else
      (Rebuilt(recorded.0), if Project(recorded.0.log).Some? then Success(c) else Failure(ProjectionFailed))
  }

  /** Rebuild, then look a context up. */
  function GetContext(s: Store, contextId: string): (Store, Result<Context, ServiceError>) {
    if s.chronicleId.None? then (s, Failure(NotInitialized))
    else if Project(s.log).None? then (s, Failure(ProjectionFailed))
    else
      var rebuilt := Rebuilt(s);
      (rebuilt, if contextId in rebuilt.index.contexts then Success(rebuilt.index.contexts[contextId])
              else Failure(ContextNotFound(contextId)))
  }

  function NewContext(a: AddArgs, n: nat, now: nat): Context {
    Context(FreshId(ContextId, n), a.title, a.summary, a.sourceType, a.sourceRef, a.scope, Some(a.scope),
            a.visibilityHint, None, a.source, a.confidence, now, a.tags)
  }

  function AddContext(s: Store, a: AddArgs, now: nat): (Store, Result<Context, ServiceError>) {
    if s.chronicleId.None? then (s, Failure(NotInitialized))
    else
      var c := NewContext(a, s.nextId, now);
      Snapshotted(s.(nextId := s.nextId + 1), AddDraft(c), now, c)
  }

  /** The tag `classified` is added when a reason is given that is no tag yet. */
  function Classified(c: Context, a: ClassifyArgs, now: nat): Context {
    var classification := Classification(a.layer, a.sensitivity, a.owner, Some(now), "manual",
                                         if a.reason != "" then [a.reason] else []);
    c.(classification := Some(classification),
       tags := if a.reason != "" && a.reason !in c.tags then c.tags + ["classified"] else c.tags)
  }

  function ClassifyContext(s: Store, a: ClassifyArgs, now: nat): (Store, Result<Context, ServiceError>) {
    var found := GetContext(s, a.contextId);
    if found.1.Failure? then found
    else
      var c := Classified(found.1.value, a, now);
      Snapshotted(found.0, ClassifyDraft(c), now, c)
  }

  function Edited(c: Context, a: EditArgs): Context {
    var scope := if a.scope.Some? then a.scope.value else c.scope;
    c.(title := if a.title.Some? && !Blank(a.title.value) then a.title.value else c.title,
       summary := if a.summary.Some? then a.summary.value else c.summary,
       scope := scope, scopeHint := Some(scope),
       tags := if a.tags.Some? then a.tags.value else c.tags,
       source := if a.source.Some? then a.source else c.source)
  }

  /** The caller's extra payload is merged last: it may overwrite the snapshot. */
  function EditPayload(c: Context, extra: Fields): Fields {
    map[KContext := Dict(DumpContext(c))] + extra
  }

  function EditDraft(c: Context, a: EditArgs): Draft {
    var summary := if a.eventSummary != "" then a.eventSummary else "Context updated: " + c.title;
    ContextDraft(a.actor, summary, EditPayload(c, a.extraPayload), a.contextId, a.source)
  }

  function UpdateContext(s: Store, a: EditArgs, now: nat): (Store, Result<Context, ServiceError>) {
    var found := GetContext(s, a.contextId);
    if found.1.Failure? then found
    else
      var c := Edited(found.1.value, a);
      Snapshotted(found.0, EditDraft(c, a), now, c)
  }

  // ----- The service ------------------------------------------------------------------------

  class ContextService {
    const chronicle: ChronicleService

    constructor (chronicle: ChronicleService)
      ensures this.chronicle == chronicle
    {
      this.chronicle := chronicle;
    }

    method Record(d: Draft, now: nat, c: Context) returns (r: Result<Context, ServiceError>)
      modifies chronicle
      ensures (chronicle.State(), r) == Snapshotted(old(chronicle.State()), d, now, c)
    {
      var recorded := chronicle.RecordEvent(d, now);
      if recorded.Failure? {
        return Failure(recorded.error);
      }
      var ok := chronicle.RebuildIndexes();
      r := if ok then Success(c) else Failure(ProjectionFailed);
    }

    method Get(contextId: string) returns (r: Result<Context, ServiceError>)
      modifies chronicle`index
      ensures (chronicle.State(), r) == GetContext(old(chronicle.State()), contextId)
    {
      if chronicle.chronicleId.None? {
        return Failure(NotInitialized);
      }
      var ok := chronicle.RebuildIndexes();
      if !ok {
        return Failure(ProjectionFailed);
      }
      r := if contextId in chronicle.index.contexts then Success(chronicle.index.contexts[contextId])
           else Failure(ContextNotFound(contextId));
    }

    method Add(a: AddArgs, now: nat) returns (r: Result<Context, ServiceError>)
      modifies chronicle
      ensures (chronicle.State(), r) == AddContext(old(chronicle.State()), a, now)
    {
      if chronicle.chronicleId.None? {
        return Failure(NotInitialized);
      }
      var c := NewContext(a, chronicle.nextId, now);
      var id := chronicle.GenerateId(ContextId);
      r := Record(AddDraft(c), now, c);
    }

    method Classify(a: ClassifyArgs, now: nat) returns (r: Result<Context, ServiceError>)
      modifies chronicle
      ensures (chronicle.State(), r) == ClassifyContext(old(chronicle.State()), a, now)
    {
      r := Get(a.contextId);
      if r.Failure? {
        return;
      }
      var c := r.value;
      c := c.(classification := Some(Classification(a.layer, a.sensitivity, a.owner, Some(now), "manual",
                                                    if a.reason != "" then [a.reason] else [])));
      if a.reason != "" && a.reason !in c.tags {
        c := c.(tags := c.tags + ["classified"]);
      }
      r := Record(ClassifyDraft(c), now, c);
    }

    method Update(a: EditArgs, now: nat) returns (r: Result<Context, ServiceError>)
      modifies chronicle
      ensures (chronicle.State(), r) == UpdateContext(old(chronicle.State()), a, now)
    {
      r := Get(a.contextId);
      if r.Failure? {
        return;
      }
      var c := Edited(r.value, a);
      r := Record(EditDraft(c, a), now, c);
    }
  }
}
