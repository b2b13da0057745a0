/** Contexts over every run: what updates keep and what a classification outlives. */
module ContextRuns {
  import opened Wrappers
  import opened Records
  import opened Ids
  import opened IndexProjection
  import opened ChronicleStore
  import opened ArtifactServices
  import opened ContextServices
  import opened ServiceRuns

  // ----- What a snapshot writes -------------------------------------------------------------------

  /** What a successful snapshot does: one event, one context entry. */
  ghost predicate Snapped(s: Store, t: Store, e: ChronicleEvent, c: Context) {
    t == s.(log := s.log + [e], nextId := s.nextId + 1,
            index := s.index.(contexts := s.index.contexts[c.contextId := c]))
  }

  /** The draft records exactly this context. */
  ghost predicate Snapshots(d: Draft, c: Context) {
    d.eventType == ContextAdded && KContext in d.payload && d.payload[KContext] == Dict(DumpContext(c))
  }

  lemma SnapshotWrites(s: Store, d: Draft, c: Context, now: nat)
    requires Consistent(s) && Snapshots(d, c)
    ensures var r, e := Snapshotted(s, d, now, c), Stamp(d, FreshId(EventId, s.nextId), s.chronicleId.value, now);
            Snapped(s, r.0, e, c) && r.1 == Success(c) && Consistent(r.0)
  {
    AppendContext(s.log, Stamp(d, FreshId(EventId, s.nextId), s.chronicleId.value, now), c);
  }

  lemma GetMeans(s: Store, id: string)
    requires Consistent(s)
    ensures GetContext(s, id).0 == s
    ensures GetContext(s, id).1 ==
              if id in s.index.contexts then Success(s.index.contexts[id]) else Failure(ContextNotFound(id))
  {
  }

  /** `classify_context` writes one snapshot of a known context, and does nothing for an unknown one. */
  lemma ClassifyMeans(s: Store, a: ClassifyArgs, now: nat)
    requires Consistent(s)
    ensures a.contextId !in s.index.contexts ==>
              ClassifyContext(s, a, now) == (s, Failure(ContextNotFound(a.contextId)))
    ensures a.contextId in s.index.contexts ==>
              var c := Classified(s.index.contexts[a.contextId], a, now);
              c.contextId == a.contextId && ClassifyContext(s, a, now) == Snapshotted(s, ClassifyDraft(c), now, c)
  {
    IndexOwnIds(s.log);
  }

  /** The context in the extra payload of an edit, if it validates. */
  function ExtraContext(extra: Fields): Option<Context> {
    if KContext in extra && extra[KContext].Dict? then ValidateContext(extra[KContext].fields) else None
  }

  /** The context an edit files: the extra payload's, which is merged last, or else the edited one. */
  function Stored(s: Store, a: EditArgs): Context
    requires a.contextId in s.index.contexts
  {
    var extra := ExtraContext(a.extraPayload);
    if extra.Some? then extra.value else Edited(s.index.contexts[a.contextId], a)
  }

  lemma EditWrites(s: Store, a: EditArgs, now: nat)
    requires Consistent(s) && a.contextId in s.index.contexts && EditPayloadFiles(a.extraPayload)
    ensures var r := UpdateContext(s, a, now);
            Snapped(s, r.0, EditEvent(s, a, now), Stored(s, a)) && Consistent(r.0)
            && r.1 == Success(Edited(s.index.contexts[a.contextId], a))
  {
    var e := EditEvent(s, a, now);
    EditMeans(s, a, now);
    if KContext !in a.extraPayload {
      AppendContext(s.log, e, Edited(s.index.contexts[a.contextId], a));
    } else {
      assert e.payload[KContext] == a.extraPayload[KContext];
      AppendSnapshot(s.log, e);
    }
  }

  lemma EditUnknown(s: Store, a: EditArgs, now: nat)
    requires Consistent(s) && a.contextId !in s.index.contexts
    ensures UpdateContext(s, a, now) == (s, Failure(ContextNotFound(a.contextId)))
  {
  }

  lemma AddMeans(s: Store, a: AddArgs, now: nat)
    requires s.chronicleId.Some?
    ensures var c := NewContext(a, s.nextId, now);
            AddContext(s, a, now) == Snapshotted(s.(nextId := s.nextId + 1), AddDraft(c), now, c)
  {
  }

  // ----- One call, then a read ------------------------------------------------------------------

  /** A given value replaces the old one. */
  function Chosen<T>(given: Option<T>, before: T): T {
    if given.Some? then given.value else before
  }

  lemma SnapshotReadsBack(s: Store, d: Draft, c: Context, now: nat)
    requires Consistent(s) && Snapshots(d, c)
    ensures GetContext(Snapshotted(s, d, now, c).0, c.contextId).1 == Success(c)
  {
    SnapshotWrites(s, d, c, now);
    GetMeans(Snapshotted(s, d, now, c).0, c.contextId);
  }

  /**
   * After `update_context`, a read shows each given field and, in every other field, what was there
   * before, as long as the extra payload does not put another snapshot in its place.
   */
  lemma UpdateThenGet(s: Store, a: EditArgs, now: nat)
    requires Consistent(s) && a.contextId in s.index.contexts
    requires KeepsContext(a.extraPayload, s.index.contexts[a.contextId], Edited(s.index.contexts[a.contextId], a))
    ensures var before := s.index.contexts[a.contextId];
            var read := GetContext(UpdateContext(s, a, now).0, a.contextId).1;
            read.Success? && var c := read.value;
            c.title == (if a.title.Some? && !Blank(a.title.value) then a.title.value else before.title)
            && c.summary == Chosen(a.summary, before.summary) && c.scope == Chosen(a.scope, before.scope)
            && c.scopeHint == Some(c.scope) && c.tags == Chosen(a.tags, before.tags)
            && c.source == (if a.source.Some? then a.source else before.source)
            && c.contextId == before.contextId && c.classification == before.classification
            && c.visibilityHint == before.visibilityHint && c.confidence == before.confidence
            && c.sourceType == before.sourceType && c.sourceRef == before.sourceRef && c.createdAt == before.createdAt
  {
    UpdateReadsBack(s, a, now);
    EditMeans(s, a, now);
  }

  /** After `classify_context`, a read shows the new classification and at most one more tag. */
  lemma ClassifyThenGet(s: Store, a: ClassifyArgs, now: nat)
    requires Consistent(s) && a.contextId in s.index.contexts
    ensures var before := s.index.contexts[a.contextId];
            var read := GetContext(ClassifyContext(s, a, now).0, a.contextId).1;
            read.Success? && var c := read.value;
            c == before.(classification := c.classification, tags := c.tags)
            && c.classification.Some? && c.classification.value.layer == a.layer
            && c.classification.value.sensitivity == a.sensitivity && c.classification.value.owner == a.owner
            && c.classification.value.createdAt == Some(now)
            && c.classification.value.sourceType == "manual"
            && c.classification.value.sourceRefs == (if a.reason != "" then [a.reason] else [])
            && (c.tags == before.tags || c.tags == before.tags + ["classified"])
            && (c.tags == before.tags <==> a.reason == "" || a.reason in before.tags)
  {
    var c := Classified(s.index.contexts[a.contextId], a, now);
    ClassifyMeans(s, a, now);
    SnapshotReadsBack(s, ClassifyDraft(c), c, now);
  }

  /** After `add_context`, a read shows the context as asked for, with its scope also as the older hint. */
  lemma AddThenGet(s: Store, a: AddArgs, now: nat)
    requires Consistent(s)
    ensures var (t, r) := AddContext(s, a, now);
            r.Success? && GetContext(t, r.value.contextId).1 == r
            && var c := r.value;
               c.contextId == FreshId(ContextId, s.nextId) && c.title == a.title && c.summary == a.summary
               && c.sourceType == a.sourceType && c.sourceRef == a.sourceRef && c.scope == a.scope
               && c.scopeHint == Some(a.scope) && c.visibilityHint == a.visibilityHint && c.classification == None
               && c.source == a.source && c.confidence == a.confidence && c.createdAt == now && c.tags == a.tags
  {
    var c := NewContext(a, s.nextId, now);
    AddMeans(s, a, now);
    SnapshotReadsBack(s.(nextId := s.nextId + 1), AddDraft(c), c, now);
    AddConsistency(s, a, now);
  }

  /** Only what the three calls set: no parent, no other record, no review, no tags. */
  ghost predicate OnlyOfContext(e: ChronicleEvent) {
    e.parentEventId == None && e.artifactId == None && e.decisionId == None && e.rdeRecordId == None
    && e.reviewStatus == None && e.tags == []
  }

  /** Each of the three calls appends one event about the context: who did what, when. */
  lemma ContextEvents(s: Store, add: AddArgs, classify: ClassifyArgs, edit: EditArgs, now: nat)
    requires s.chronicleId.Some?
    ensures var e := AddEvent(s, add, now);
            e.eventType == ContextAdded && e.actor == User && e.summary == "Context added: " + add.title
            && e.contextIds == [FreshId(ContextId, s.nextId)] && e.timestamp == now && e.source == None
            && OnlyOfContext(e)
    ensures classify.contextId in s.index.contexts ==>
              var c := Classified(s.index.contexts[classify.contextId], classify, now);
              var d := ClassifyDraft(c);
              d.eventType == ContextAdded && d.actor == User && d.summary == "Context classified: " + c.title
              && d.contextIds == [c.contextId] && d.source == None
    ensures edit.contextId in s.index.contexts ==>
              var e := EditEvent(s, edit, now);
              e.eventType == ContextAdded && e.actor == edit.actor && e.timestamp == now && e.source == edit.source
              && OnlyOfContext(e)
              && e.contextIds == [edit.contextId]
              && e.summary == (if edit.eventSummary != "" then edit.eventSummary
                               else "Context updated: " + Edited(s.index.contexts[edit.contextId], edit).title)
  {
  }

  // ----- Classifications survive updates ------------------------------------------------------------

  /** The classification the last successful classify call in a run gave to a context. */
  function LastClassification(calls: seq<Call>, outcomes: seq<Outcome>, id: string, before: Option<Classification>)
    : Option<Classification>
    requires |calls| == |outcomes|
  {
    if calls == [] then before
    else
      var now := if calls[0].ClassifyCall? && calls[0].classifyArgs.contextId == id && outcomes[0].ContextOut?
                 then outcomes[0].context.classification else before;
      LastClassification(calls[1..], outcomes[1..], id, now)
  }

  /** A context that was added is indexed, and its id is never generated again. */
  lemma AddedIsKnown(s: Store, a: AddArgs, now: nat)
    requires Consistent(s)
    ensures var r := AddContext(s, a, now);
            Consistent(r.0) && r.1.Success? && r.1.value.contextId in r.0.index.contexts
            && Past(ContextId, r.1.value.contextId, r.0.nextId)
  {
    AddConsistency(s, a, now);
    PastAfter(ContextId, s.nextId, AddContext(s, a, now).0.nextId);
  }

  /** One call gives a context the classification asked for, or leaves the one it had. */
  ghost predicate Reclassified(s: Store, call: Call, id: string)
    requires id in s.index.contexts
  {
    var r := Step(s, call);
    && id in r.0.index.contexts
    && r.0.index.contexts[id].classification ==
         if call.ClassifyCall? && call.classifyArgs.contextId == id && r.1.ContextOut?
         then r.1.context.classification else s.index.contexts[id].classification
  }

  /** A snapshot of the context in an edit's extra payload carries the classification the context has. */
  predicate KeepsClassification(s: Store, call: Call, id: string) {
    call.EditCall? && call.editArgs.contextId in s.index.contexts && id in s.index.contexts ==>
      var extra := ExtraContext(call.editArgs.extraPayload);
      extra.Some? && extra.value.contextId == id ==>
        extra.value.classification == s.index.contexts[id].classification
  }

  lemma ClassifyIndexes(s: Store, a: ClassifyArgs, now: nat)
    requires Consistent(s) && a.contextId in s.index.contexts
    ensures var r, c := ClassifyContext(s, a, now), Classified(s.index.contexts[a.contextId], a, now);
            r.0.index.contexts == s.index.contexts[a.contextId := c] && r.1 == Success(c)
  {
    var c := Classified(s.index.contexts[a.contextId], a, now);
    ClassifyMeans(s, a, now);
    SnapshotWrites(s, ClassifyDraft(c), c, now);
  }

  lemma EditClassification(s: Store, a: EditArgs, now: nat, id: string)
    requires Consistent(s) && id in s.index.contexts
    ensures Reclassified(s, EditCall(a, now), id) <==> KeepsClassification(s, EditCall(a, now), id)
  {
    SameClassification(s, a, now, id);
    ContextsAfterEdit(s, a, now);
    if a.contextId in s.index.contexts {
      EditedId(s, a);
    }
  }

  lemma SameClassification(s: Store, a: EditArgs, now: nat, id: string)
    requires id in s.index.contexts
    ensures var contexts := UpdateContext(s, a, now).0.index.contexts;
            Reclassified(s, EditCall(a, now), id) <==>
            id in contexts && contexts[id].classification == s.index.contexts[id].classification
  {
  }

  lemma EditedId(s: Store, a: EditArgs)
    requires Consistent(s) && a.contextId in s.index.contexts
    ensures Edited(s.index.contexts[a.contextId], a).contextId == a.contextId
  {
    IndexOwnIds(s.log);
  }

  lemma ContextsAfterEdit(s: Store, a: EditArgs, now: nat)
    requires Consistent(s)
    ensures UpdateContext(s, a, now).0.index.contexts ==
              if a.contextId in s.index.contexts && EditPayloadFiles(a.extraPayload)
              then s.index.contexts[Stored(s, a).contextId := Stored(s, a)] else s.index.contexts
  {
    if a.contextId !in s.index.contexts {
      EditUnknown(s, a, now);
    } else if EditPayloadFiles(a.extraPayload) {
      EditWrites(s, a, now);
    } else {
      EditConsistency(s, a, now);
    }
  }

  lemma ClassifyClassification(s: Store, a: ClassifyArgs, now: nat, id: string)
    requires Consistent(s) && id in s.index.contexts
    ensures Reclassified(s, ClassifyCall(a, now), id)
    ensures a.contextId == id ==>
              ClassifyContext(s, a, now).1 == Success(Classified(s.index.contexts[id], a, now))
  {
    if a.contextId in s.index.contexts {
      ClassifyIndexes(s, a, now);
    } else {
      ClassifyMeans(s, a, now);
    }
  }

  lemma AddClassification(s: Store, a: AddArgs, now: nat, id: string)
    requires Consistent(s) && id in s.index.contexts && Past(ContextId, id, s.nextId)
    ensures Reclassified(s, AddCall(a, now), id)
  {
    AddConsistency(s, a, now);
    AddReclassifies(s, a, now, id);
  }

  lemma AddReclassifies(s: Store, a: AddArgs, now: nat, id: string)
    requires id in s.index.contexts
    ensures var contexts := AddContext(s, a, now).0.index.contexts;
            Reclassified(s, AddCall(a, now), id) <==>
            id in contexts && contexts[id].classification == s.index.contexts[id].classification
  {
  }

  /** One call follows the classify calls exactly when it is no edit that files another classification. */
  lemma StepClassification(s: Store, call: Call, id: string)
    requires Consistent(s) && id in s.index.contexts && Past(ContextId, id, s.nextId)
    ensures Reclassified(s, call, id) <==> KeepsClassification(s, call, id)
  {
    match call
    case CreateCall(a, now) => CreateConsistency(s, a, now);
    case UpdateCall(a, now) =>
      if Appends(s, a) {
        UpdateConsistency(s, a, now);
      }
    case AddCall(a, now) => AddClassification(s, a, now, id);
    case ClassifyCall(a, now) => ClassifyClassification(s, a, now, id);
    case EditCall(a, now) => EditClassification(s, a, now, id);
  }

  lemma StepNumbers(s: Store, call: Call)
    ensures Step(s, call).0.nextId >= s.nextId
  {
    match call
    case CreateCall(a, now) =>
    case UpdateCall(a, now) => UpdateNumbers(s, a, now);
    case AddCall(a, now) =>
    case ClassifyCall(a, now) => ClassifyNumbers(s, a, now);
    case EditCall(a, now) => EditNumbers(s, a, now);
  }

  lemma UpdateNumbers(s: Store, a: UpdateArgs, now: nat)
    ensures UpdateArtifact(s, a, now).0.nextId >= s.nextId
  {
  }

  lemma ClassifyNumbers(s: Store, a: ClassifyArgs, now: nat)
    ensures ClassifyContext(s, a, now).0.nextId >= s.nextId
  {
  }

  lemma EditNumbers(s: Store, a: EditArgs, now: nat)
    ensures UpdateContext(s, a, now).0.nextId >= s.nextId
  {
  }

  /** Each call of the run keeps the classification, in the store it is made in. */
  predicate KeepsThroughout(s: Store, calls: seq<Call>, id: string)
    decreases |calls|
  {
    calls == [] || (KeepsClassification(s, calls[0], id) && KeepsThroughout(Step(s, calls[0]).0, calls[1..], id))
  }

  /** After the run the context has the classification of its last `classify_context`. */
  ghost predicate FollowsClassify(s: Store, calls: seq<Call>, id: string)
    requires id in s.index.contexts
  {
    var r := Run(s, calls);
    && id in r.0.index.contexts
    && r.0.index.contexts[id].classification ==
         LastClassification(calls, r.1, id, s.index.contexts[id].classification)
  }

  lemma FollowsCons(s: Store, call: Call, rest: seq<Call>, id: string)
    requires id in s.index.contexts && Reclassified(s, call, id)
    ensures FollowsClassify(s, [call] + rest, id) <==> FollowsClassify(Step(s, call).0, rest, id)
  {
    var calls := [call] + rest;
    assert calls[1..] == rest;
    assert Run(s, calls).1[1..] == Run(Step(s, call).0, rest).1;
  }

  lemma RunOne(s: Store, call: Call)
    ensures Run(s, [call]) == (Step(s, call).0, [Step(s, call).1])
  {
    var first := Step(s, call);
    assert [call][1..] == [] && Run(first.0, []) == (first.0, []);
    assert [first.1] + [] == [first.1];
  }

  lemma ClassifiedByOne(call: Call, outcome: Outcome, id: string, before: Option<Classification>)
    ensures LastClassification([call], [outcome], id, before) ==
              if call.ClassifyCall? && call.classifyArgs.contextId == id && outcome.ContextOut?
              then outcome.context.classification else before
  {
    assert [call][1..] == [] && [outcome][1..] == [];
  }

  lemma FollowsOne(s: Store, call: Call, id: string)
    requires id in s.index.contexts
    ensures FollowsClassify(s, [call], id) <==> Reclassified(s, call, id)
  {
    RunOne(s, call);
    ClassifiedByOne(call, Step(s, call).1, id, s.index.contexts[id].classification);
  }

  lemma FirstCall(s: Store, call: Call, id: string)
    requires Consistent(s) && id in s.index.contexts && Past(ContextId, id, s.nextId) && PayloadFiles(call)
    ensures var next := Step(s, call).0;
            KeepsClassification(s, call, id) ==>
              Reclassified(s, call, id) && Consistent(next) && id in next.index.contexts
              && Past(ContextId, id, next.nextId)
    ensures !KeepsClassification(s, call, id) ==> !FollowsClassify(s, [call], id)
  {
    StepClassification(s, call, id);
    StepConsistency(s, call);
    StepNumbers(s, call);
    FollowsOne(s, call, id);
  }

  /**
   * Throughout a run, with any clock, a context has the classification of its last
   * `classify_context`, however many updates follow, exactly when no edit files a snapshot of the
   * context with another classification in its extra payload.
   */
  lemma {:induction false} ClassificationSurvives(s: Store, calls: seq<Call>, id: string)
    requires Consistent(s) && id in s.index.contexts && Past(ContextId, id, s.nextId)
    requires forall i :: 0 <= i < |calls| ==> PayloadFiles(calls[i])
    ensures (forall n :: 0 <= n <= |calls| ==> FollowsClassify(s, calls[..n], id)) <==> KeepsThroughout(s, calls, id)
    decreases |calls|
  {
    if calls != [] {
      var call, rest := calls[0], calls[1..];
      assert calls == [call] + rest && calls[..1] == [call];
      FirstCall(s, call, id);
      if KeepsClassification(s, call, id) {
        ClassificationSurvives(Step(s, call).0, rest, id);
        PrefixesFollow(s, call, rest, id);
      }
    } else {
      assert FollowsClassify(s, [], id);
      assert forall n :: 0 <= n <= |calls| ==> calls[..n] == [];
    }
  }

  lemma PrefixesFollow(s: Store, call: Call, rest: seq<Call>, id: string)
    requires id in s.index.contexts && Reclassified(s, call, id)
    ensures var calls, next := [call] + rest, Step(s, call).0;
            (forall n :: 0 <= n <= |calls| ==> FollowsClassify(s, calls[..n], id))
            <==> (forall n :: 0 <= n <= |rest| ==> FollowsClassify(next, rest[..n], id))
  {
    var calls, next := [call] + rest, Step(s, call).0;
    assert calls[..0] == [] && FollowsClassify(s, [], id);
    forall n | 0 <= n <= |rest|
      ensures FollowsClassify(s, calls[..n + 1], id) <==> FollowsClassify(next, rest[..n], id)
    {
      assert calls[..n + 1] == [call] + rest[..n];
      FollowsCons(s, call, rest[..n], id);
    }
    if forall n :: 0 <= n <= |rest| ==> FollowsClassify(next, rest[..n], id) {
      forall n | 0 <= n <= |calls| ensures FollowsClassify(s, calls[..n], id) {
        if n > 0 {
          assert FollowsClassify(next, rest[..n - 1], id);
        }
      }
    }
    if forall n :: 0 <= n <= |calls| ==> FollowsClassify(s, calls[..n], id) {
      forall n | 0 <= n <= |rest| ensures FollowsClassify(next, rest[..n], id) {
        assert FollowsClassify(s, calls[..n + 1], id);
      }
    }
  }

  /**
   * An edit can drop a classification unseen: with the unclassified context itself in the extra
   * payload the call succeeds, the store stays consistent and the context it returns is classified.
   */
  lemma DroppedClassification(s: Store, a: EditArgs, now: nat)
    requires Consistent(s) && a.contextId in s.index.contexts
    requires s.index.contexts[a.contextId].classification.Some?
    requires a.extraPayload ==
               map[KContext := Dict(DumpContext(s.index.contexts[a.contextId].(classification := None)))]
    ensures var (t, r) := UpdateContext(s, a, now);
            r.Success? && r.value.classification == s.index.contexts[a.contextId].classification
            && Consistent(t) && a.contextId in t.index.contexts
            && t.index.contexts[a.contextId].classification == None
  {
    var unclassified := s.index.contexts[a.contextId].(classification := None);
    ContextRoundTrip(unclassified);
    IndexOwnIds(s.log);
    assert ExtraContext(a.extraPayload) == Some(unclassified);
    EditWrites(s, a, now);
  }
}
