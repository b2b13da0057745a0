/** What any run of artifact and context calls keeps. */
module ServiceRuns {
  import opened Wrappers
  import opened Records
  import opened Ids
  import opened IndexProjection
  import opened ChronicleStore
  import opened ArtifactServices
  import opened ContextServices

  datatype Call =
    | CreateCall(createArgs: CreateArgs, now: nat)
    | UpdateCall(updateArgs: UpdateArgs, now: nat)
    | AddCall(addArgs: AddArgs, now: nat)
    | ClassifyCall(classifyArgs: ClassifyArgs, now: nat)
    | EditCall(editArgs: EditArgs, now: nat)

  datatype Outcome =
    | ArtifactOut(artifact: Artifact, version: Version)
    | ContextOut(context: Context)
    | Raised(error: ServiceError)

  function FromArtifactResult(r: Result<(Artifact, Version), ServiceError>): Outcome {
    if r.Success? then ArtifactOut(r.value.0, r.value.1) else Raised(r.error)
  }

  function FromContextResult(r: Result<Context, ServiceError>): Outcome {
    if r.Success? then ContextOut(r.value) else Raised(r.error)
  }

  function Step(s: Store, call: Call): (Store, Outcome) {
    match call
    case CreateCall(a, now) => var r := CreateArtifact(s, a, now); (r.0, FromArtifactResult(r.1))
    case UpdateCall(a, now) => var r := UpdateArtifact(s, a, now); (r.0, FromArtifactResult(r.1))
    case AddCall(a, now) => var r := AddContext(s, a, now); (r.0, FromContextResult(r.1))
    case ClassifyCall(a, now) => var r := ClassifyContext(s, a, now); (r.0, FromContextResult(r.1))
    case EditCall(a, now) => var r := UpdateContext(s, a, now); (r.0, FromContextResult(r.1))
  }

  function Run(s: Store, calls: seq<Call>): (r: (Store, seq<Outcome>))
    ensures |r.1| == |calls|
    decreases |calls|
  {
    if calls == [] then (s, [])
    else
      var first := Step(s, calls[0]);
      var rest := Run(first.0, calls[1..]);
      (rest.0, [first.1] + rest.1)
  }

  // ----- The index after one call, whatever its payload -----------------------------------------

  /** `t` extends `s`'s log; if the operation returned, the stored index is the fold of the log. */
  ghost predicate Refines<T>(s: Store, t: Store, r: Result<T, ServiceError>) {
    s.log <= t.log
    && (r.Success? ==> Consistent(t))
    && (r.Failure? && r.error != ProjectionFailed ==>
       t.log == s.log && (Consistent(s) ==> t.index == s.index && Consistent(t)))
  }

  lemma FinishedRefines<T>(s: Store, e: ChronicleEvent, r: T)
    requires s.chronicleId.Some?
    ensures Refines(s, Finished(s, e, r).0, Finished(s, e, r).1)
  {
  }

  lemma SnapshottedRefines(s: Store, d: Draft, now: nat, c: Context)
    ensures Refines(s, Snapshotted(s, d, now, c).0, Snapshotted(s, d, now, c).1)
  {
  }

  lemma GetContextRefines(s: Store, id: string)
    ensures Refines(s, GetContext(s, id).0, GetContext(s, id).1)
    ensures GetContext(s, id).0.log == s.log
  {
  }

  lemma CreateRefines(s: Store, a: CreateArgs, now: nat)
    ensures Refines(s, CreateArtifact(s, a, now).0, CreateArtifact(s, a, now).1)
  {
    if s.chronicleId.Some? && Body(a.content).Some? {
      var artifact := NewArtifact(a, s.chronicleId.value, s.nextId, now);
      var version := FirstVersion(a, s.nextId, now);
      var t := WithFiles(s.(nextId := s.nextId + 3), artifact.artifactId, version.versionId, Body(a.content).value);
      FinishedRefines(t, CreatedEvent(a, artifact, version, now), (artifact, version));
    }
  }

  lemma UpdateRefines(s: Store, a: UpdateArgs, now: nat)
    ensures Refines(s, UpdateArtifact(s, a, now).0, UpdateArtifact(s, a, now).1)
  {
    if !a.content.NoContent? && s.chronicleId.Some? && a.artifactId in s.index.artifacts && Body(a.content).Some? {
      var current := s.index.artifacts[a.artifactId];
      var artifact, version := UpdatedArtifact(current, a, s.nextId, now), NextVersion(current, a, s.nextId, now);
      var t := WithFiles(s.(nextId := s.nextId + 2), a.artifactId, version.versionId, Body(a.content).value);
      FinishedRefines(t, UpdatedEvent(current, a, artifact, version, s.chronicleId.value, now), (artifact, version));
    }
  }

  lemma AddRefines(s: Store, a: AddArgs, now: nat)
    ensures Refines(s, AddContext(s, a, now).0, AddContext(s, a, now).1)
  {
    if s.chronicleId.Some? {
      var n := NewContext(a, s.nextId, now);
      SnapshottedRefines(s.(nextId := s.nextId + 1),
        AddDraft(n), now, n);
    }
  }

  lemma ClassifyRefines(s: Store, a: ClassifyArgs, now: nat)
    ensures Refines(s, ClassifyContext(s, a, now).0, ClassifyContext(s, a, now).1)
  {
    GetContextRefines(s, a.contextId);
    var found := GetContext(s, a.contextId);
    if found.1.Success? {
      var c := Classified(found.1.value, a, now);
      SnapshottedRefines(found.0,
        ClassifyDraft(c), now, c);
    }
  }

  lemma EditRefines(s: Store, a: EditArgs, now: nat)
    ensures Refines(s, UpdateContext(s, a, now).0, UpdateContext(s, a, now).1)
  {
    GetContextRefines(s, a.contextId);
    var found := GetContext(s, a.contextId);
    if found.1.Success? {
      var c := Edited(found.1.value, a);
      SnapshottedRefines(found.0, EditDraft(c, a), now, c);
    }
  }

  /** The log is append-only, and a call that returns leaves the stored index equal to the fold of the log. */
  lemma StepRefinesLog(s: Store, call: Call)
    ensures var r := Step(s, call);
            s.log <= r.0.log
            && (!r.1.Raised? ==> Consistent(r.0))
            && (r.1.Raised? && r.1.error != ProjectionFailed ==>
               r.0.log == s.log && (Consistent(s) ==> Consistent(r.0)))
  {
    match call
    case CreateCall(a, now) => CreateRefines(s, a, now);
    case UpdateCall(a, now) => UpdateRefines(s, a, now);
    case AddCall(a, now) => AddRefines(s, a, now);
    case ClassifyCall(a, now) => ClassifyRefines(s, a, now);
    case EditCall(a, now) => EditRefines(s, a, now);
  }

  lemma {:induction false} LogOnlyGrows(s: Store, calls: seq<Call>)
    ensures s.log <= Run(s, calls).0.log
    decreases |calls|
  {
    if calls != [] {
      StepRefinesLog(s, calls[0]);
      LogOnlyGrows(Step(s, calls[0]).0, calls[1..]);
    }
  }

  // ----- When a call's return value is what the index holds ---------------------------------------

  /** Reading a context rebuilds the index and returns the last snapshot the log holds of it. */
  lemma GetReturnsLastSnapshot(s: Store, id: string)
    requires s.chronicleId.Some? && Project(s.log).Some?
    ensures GetContext(s, id).1.Success? <==> exists i :: LastFiles(ContextIn(), s.log, i, id)
    ensures forall i :: LastFiles(ContextIn(), s.log, i, id) ==>
              GetContext(s, id).1.Success?
                  && ValidateContext(ContextIn()(s.log[i]).value.1) == Some(GetContext(s, id).1.value)
    ensures GetContext(s, id).1.Failure? ==> GetContext(s, id).1.error == ContextNotFound(id)
  {
    LastSnapshotWins(s.log, id);
  }

  /**
   * The extra payload does not replace the snapshot: it has none, or the same one, or a valid
   * one of another context while the edit itself changes nothing.
   */
  predicate KeepsContext(extra: Fields, current: Context, c: Context) {
    KContext !in extra ||
    (extra[KContext].Dict? && ValidateContext(extra[KContext].fields).Some?
     && (ValidateContext(extra[KContext].fields).value == c
         || (current == c && ValidateContext(extra[KContext].fields).value.contextId != c.contextId)))
  }

  function EditEvent(s: Store, a: EditArgs, now: nat): ChronicleEvent
    requires s.chronicleId.Some? && a.contextId in s.index.contexts
  {
    Stamp(EditDraft(Edited(s.index.contexts[a.contextId], a), a), FreshId(EventId, s.nextId), s.chronicleId.value, now)
  }

  lemma EditMeans(s: Store, a: EditArgs, now: nat)
    requires Consistent(s) && a.contextId in s.index.contexts
    ensures var r, log := UpdateContext(s, a, now), s.log + [EditEvent(s, a, now)];
            r.0.log == log && r.0.chronicleId == s.chronicleId && r.0.nextId == s.nextId + 1
            && r.0.versionFiles == s.versionFiles && r.0.currentFiles == s.currentFiles
            && (Project(log).Some? ==> r.1 == Success(Edited(s.index.contexts[a.contextId], a))
                                       && r.0.index == Project(log).value)
            && (Project(log).None? ==> r.1.Failure?)
  {
  }

  /**
   * `update_context` returns what a later read returns exactly when the extra payload does not
   * replace the snapshot by a different one.
   */
  lemma UpdateReadsBack(s: Store, a: EditArgs, now: nat)
    requires Consistent(s) && a.contextId in s.index.contexts
    ensures var r := UpdateContext(s, a, now);
            KeepsContext(a.extraPayload, s.index.contexts[a.contextId], Edited(s.index.contexts[a.contextId], a)) <==>
            (r.1.Success? && GetContext(r.0, a.contextId).1 == r.1)
  {
    if KContext !in a.extraPayload {
      PlainEditReadsBack(s, a, now);
    } else {
      OverridingEditReadsBack(s, a, now);
    }
  }

  /** A read of an edited context finds what the projection of the longer log holds. */
  lemma ReadAfterEdit(s: Store, a: EditArgs, now: nat)
    requires Consistent(s) && a.contextId in s.index.contexts
    ensures var r, projected := UpdateContext(s, a, now), Project(s.log + [EditEvent(s, a, now)]);
            r.1.Success? && GetContext(r.0, a.contextId).1 == r.1
            <==> projected.Some? && a.contextId in projected.value.contexts
                 && projected.value.contexts[a.contextId] == Edited(s.index.contexts[a.contextId], a)
  {
    EditMeans(s, a, now);
  }

  lemma PlainEditReadsBack(s: Store, a: EditArgs, now: nat)
    requires Consistent(s) && a.contextId in s.index.contexts && KContext !in a.extraPayload
    ensures UpdateContext(s, a, now).1.Success?
    ensures GetContext(UpdateContext(s, a, now).0, a.contextId).1 == UpdateContext(s, a, now).1
  {
    ReadAfterEdit(s, a, now);
    IndexOwnIds(s.log);
    AppendContext(s.log, EditEvent(s, a, now), Edited(s.index.contexts[a.contextId], a));
  }

  lemma OverridingEditReadsBack(s: Store, a: EditArgs, now: nat)
    requires Consistent(s) && a.contextId in s.index.contexts && KContext in a.extraPayload
    ensures var r := UpdateContext(s, a, now);
            KeepsContext(a.extraPayload, s.index.contexts[a.contextId], Edited(s.index.contexts[a.contextId], a)) <==>
            (r.1.Success? && GetContext(r.0, a.contextId).1 == r.1)
  {
    var e := EditEvent(s, a, now);
    ReadAfterEdit(s, a, now);
    IndexOwnIds(s.log);
    assert e.payload[KContext] == a.extraPayload[KContext];
    AppendSnapshot(s.log, e);
  }

  // ----- When the index still equals the fold of the log --------------------------------------------

  /** The extra payload of an edit has no context of its own, or one that validates. */
  predicate EditPayloadFiles(extra: Fields) {
    KContext in extra ==> extra[KContext].Dict? && ValidateContext(extra[KContext].fields).Some?
  }

  /** The same for the artifact and the version in the extra payload of an update. */
  predicate UpdatePayloadFiles(extra: Fields) {
    && (KArtifact in extra ==> extra[KArtifact].Dict? && ValidateArtifact(extra[KArtifact].fields).Some?)
    && (KVersion in extra ==> extra[KVersion].Dict? && ValidateVersion(extra[KVersion].fields).Some?)
  }

  /** The store after an event that was appended but could not be projected. */
  ghost predicate Broken(s: Store, t: Store) {
    t.chronicleId == s.chronicleId && |t.log| == |s.log| + 1 && s.log <= t.log && Project(t.log).None?
    && t.index == s.index
  }

  lemma EditConsistency(s: Store, a: EditArgs, now: nat)
    requires Consistent(s) && a.contextId in s.index.contexts
    ensures var r := UpdateContext(s, a, now);
            if EditPayloadFiles(a.extraPayload) then Consistent(r.0) && r.1.Success?
            else Broken(s, r.0) && r.1 == Failure(ProjectionFailed)
  {
    var e := EditEvent(s, a, now);
    EditMeans(s, a, now);
    if KContext !in a.extraPayload {
      AppendContext(s.log, e, Edited(s.index.contexts[a.contextId], a));
    } else {
      assert e.payload[KContext] == a.extraPayload[KContext];
      AppendSnapshot(s.log, e);
    }
  }

  function UpdateEvent(s: Store, a: UpdateArgs, now: nat): ChronicleEvent
    requires s.chronicleId.Some? && a.artifactId in s.index.artifacts
  {
    var current := s.index.artifacts[a.artifactId];
    UpdatedEvent(current, a, UpdatedArtifact(current, a, s.nextId, now), NextVersion(current, a, s.nextId, now),
                 s.chronicleId.value, now)
  }

  /** The update reaches its append: there is readable content for a known artifact. */
  predicate Appends(s: Store, a: UpdateArgs) {
    a.artifactId in s.index.artifacts && !a.content.NoContent? && Body(a.content).Some?
  }

  lemma UpdateMeans(s: Store, a: UpdateArgs, now: nat)
    requires Consistent(s) && Appends(s, a)
    ensures var r, log := UpdateArtifact(s, a, now), s.log + [UpdateEvent(s, a, now)];
            r.0.log == log && r.0.chronicleId == s.chronicleId && r.0.nextId == s.nextId + 2
            && (Project(log).Some? ==> r.1.Success? && r.0.index == Project(log).value)
            && (Project(log).None? ==> r.1 == Failure(ProjectionFailed) && r.0.index == s.index)
  {
  }

  lemma UpdatePairFiles(s: Store, a: UpdateArgs, now: nat)
    requires s.chronicleId.Some? && a.artifactId in s.index.artifacts
    ensures var e := UpdateEvent(s, a, now);
            e.eventType == ArtifactVersioned && KArtifact in e.payload && KVersion in e.payload
            && (CarriedPair(e).Some? <==> UpdatePayloadFiles(a.extraPayload))
  {
    var current := s.index.artifacts[a.artifactId];
    MergedPairFiles(UpdateEvent(s, a, now), UpdatedArtifact(current, a, s.nextId, now),
                    NextVersion(current, a, s.nextId, now), a.extraPayload);
  }

  lemma MergedPairFiles(e: ChronicleEvent, artifact: Artifact, version: Version, extra: Fields)
    requires e.payload == UpdatePayload(artifact, version, extra)
    ensures KArtifact in e.payload && KVersion in e.payload
    ensures CarriedPair(e).Some? <==> UpdatePayloadFiles(extra)
  {
    ArtifactRoundTrip(artifact);
    VersionRoundTrip(version);
    assert KArtifact in extra ==> e.payload[KArtifact] == extra[KArtifact];
    assert KVersion in extra ==> e.payload[KVersion] == extra[KVersion];
    assert KArtifact !in extra ==> e.payload[KArtifact] == Dict(DumpArtifact(artifact));
    assert KVersion !in extra ==> e.payload[KVersion] == Dict(DumpVersion(version));
  }

  lemma UpdateConsistency(s: Store, a: UpdateArgs, now: nat)
    requires Consistent(s) && Appends(s, a)
    ensures var r := UpdateArtifact(s, a, now);
            if UpdatePayloadFiles(a.extraPayload)
            then Consistent(r.0) && r.1.Success? && r.0.index.contexts == s.index.contexts
            else Broken(s, r.0) && r.1 == Failure(ProjectionFailed)
  {
    UpdateMeans(s, a, now);
    UpdatePairFiles(s, a, now);
    AppendArtifact(s.log, UpdateEvent(s, a, now));
  }

  lemma CreateConsistency(s: Store, a: CreateArgs, now: nat)
    requires Consistent(s)
    ensures var r := CreateArtifact(s, a, now);
            Consistent(r.0) && r.1 != Failure(ProjectionFailed) && r.0.index.contexts == s.index.contexts
  {
    if Body(a.content).Some? {
      var artifact := NewArtifact(a, s.chronicleId.value, s.nextId, now);
      var version := FirstVersion(a, s.nextId, now);
      var e := CreatedEvent(a, artifact, version, now);
      CarriedDumps(e, artifact, version);
      AppendArtifact(s.log, e);
    }
  }

  lemma AddConsistency(s: Store, a: AddArgs, now: nat)
    requires Consistent(s)
    ensures var r, c := AddContext(s, a, now), NewContext(a, s.nextId, now);
            Consistent(r.0) && r.1 == Success(c)
            && r.0.index == s.index.(contexts := s.index.contexts[c.contextId := c])
  {
    AddLogs(s, a, now);
    AppendContext(s.log, AddEvent(s, a, now), NewContext(a, s.nextId, now));
  }

  function AddEvent(s: Store, a: AddArgs, now: nat): ChronicleEvent
    requires s.chronicleId.Some?
  {
    Stamp(AddDraft(NewContext(a, s.nextId, now)), FreshId(EventId, s.nextId + 1), s.chronicleId.value, now)
  }

  lemma AddLogs(s: Store, a: AddArgs, now: nat)
    requires s.chronicleId.Some?
    ensures var r, log := AddContext(s, a, now), s.log + [AddEvent(s, a, now)];
            r.0.log == log && r.0.chronicleId == s.chronicleId
            && (Project(log).Some? ==> r.1 == Success(NewContext(a, s.nextId, now)) && r.0.index == Project(log).value)
  {
  }

  lemma ClassifyConsistency(s: Store, a: ClassifyArgs, now: nat)
    requires Consistent(s)
    ensures Consistent(ClassifyContext(s, a, now).0) && ClassifyContext(s, a, now).1 != Failure(ProjectionFailed)
  {
    if a.contextId in s.index.contexts {
      var c := Classified(s.index.contexts[a.contextId], a, now);
      var d := ClassifyDraft(c);
      AppendContext(s.log, Stamp(d, FreshId(EventId, s.nextId), s.chronicleId.value, now), c);
    }
  }

  /** The call reaches its append with an extra payload that cannot be filed. */
  predicate Fatal(s: Store, call: Call) {
    match call
    case UpdateCall(a, _) => Appends(s, a) && !UpdatePayloadFiles(a.extraPayload)
    case EditCall(a, _) => a.contextId in s.index.contexts && !EditPayloadFiles(a.extraPayload)
    case _ => false
  }

  /**
   * After a call the stored index is the fold of the log exactly when the call was not fatal, which
   * its caller can tell beforehand. A fatal call raises, leaves its event in the log and the index
   * as it was.
   */
  lemma StepConsistency(s: Store, call: Call)
    requires Consistent(s)
    ensures Consistent(Step(s, call).0) <==> !Fatal(s, call)
    ensures Step(s, call).1 == Raised(ProjectionFailed) <==> Fatal(s, call)
    ensures Fatal(s, call) ==> Broken(s, Step(s, call).0)
  {
    match call
    case CreateCall(a, now) => CreateStep(s, a, now);
    case UpdateCall(a, now) => UpdateStep(s, a, now);
    case AddCall(a, now) => AddStep(s, a, now);
    case ClassifyCall(a, now) => ClassifyStep(s, a, now);
    case EditCall(a, now) => EditStep(s, a, now);
  }

  /** What `StepConsistency` states of one call. */
  ghost predicate FatalExactly(s: Store, call: Call) {
    var (t, outcome) := Step(s, call);
    && (Consistent(t) <==> !Fatal(s, call)) && (outcome == Raised(ProjectionFailed) <==> Fatal(s, call))
    && (Fatal(s, call) ==> Broken(s, t))
  }

  lemma CreateStep(s: Store, a: CreateArgs, now: nat)
    requires Consistent(s)
    ensures FatalExactly(s, CreateCall(a, now))
  {
    CreateConsistency(s, a, now);
  }

  lemma UpdateStep(s: Store, a: UpdateArgs, now: nat)
    requires Consistent(s)
    ensures FatalExactly(s, UpdateCall(a, now))
  {
    if Appends(s, a) {
      UpdateConsistency(s, a, now);
    } else {
      UpdateRefused(s, a, now);
    }
  }

  lemma UpdateRefused(s: Store, a: UpdateArgs, now: nat)
    requires Consistent(s) && !Appends(s, a)
    ensures Consistent(UpdateArtifact(s, a, now).0) && UpdateArtifact(s, a, now).1.Failure?
    ensures UpdateArtifact(s, a, now).1.error != ProjectionFailed
  {
  }

  lemma AddStep(s: Store, a: AddArgs, now: nat)
    requires Consistent(s)
    ensures FatalExactly(s, AddCall(a, now))
  {
    AddConsistency(s, a, now);
  }

  lemma ClassifyStep(s: Store, a: ClassifyArgs, now: nat)
    requires Consistent(s)
    ensures FatalExactly(s, ClassifyCall(a, now))
  {
    ClassifyConsistency(s, a, now);
  }

  lemma EditStep(s: Store, a: EditArgs, now: nat)
    requires Consistent(s)
    ensures FatalExactly(s, EditCall(a, now))
  {
    if a.contextId in s.index.contexts {
      EditConsistency(s, a, now);
    }
  }

  /** No extra payload in the call that could ever be fatal. */
  predicate PayloadFiles(call: Call) {
    match call
    case UpdateCall(a, _) => UpdatePayloadFiles(a.extraPayload)
    case EditCall(a, _) => EditPayloadFiles(a.extraPayload)
    case _ => true
  }

  /** Over every run whose extra payloads can be filed, the stored index is the fold of the log. */
  lemma {:induction false} RunsRefineLog(s: Store, calls: seq<Call>)
    requires Consistent(s) && forall i :: 0 <= i < |calls| ==> PayloadFiles(calls[i])
    ensures Consistent(Run(s, calls).0)
    decreases |calls|
  {
    if calls != [] {
      StepConsistency(s, calls[0]);
      RunsRefineLog(Step(s, calls[0]).0, calls[1..]);
    }
  }

  /**
   * A stale index: a context is added, then updated with the extra payload `{"context": "x"}`, and
   * from then on it can be neither read nor classified.
   */
  lemma StaleIndex(title: string, add: AddArgs, a: EditArgs, c: ClassifyArgs, now: nat)
    requires a.contextId == FreshId(ContextId, 2) == c.contextId && a.extraPayload == map[KContext := Str("x")]
    ensures var added := AddContext(Initialized(EMPTY_STORE, title, now), add, now).0;
            var (stale, raised) := UpdateContext(added, a, now);
            Consistent(added) && raised == Failure(ProjectionFailed) && Broken(added, stale) && !Consistent(stale)
            && GetContext(stale, a.contextId).1 == Failure(ProjectionFailed)
            && ClassifyContext(stale, c, now) == (stale, Failure(ProjectionFailed))
  {
    InitializedConsistent(title, now);
    StaleAfterAdding(Initialized(EMPTY_STORE, title, now), add, a, c, now);
  }

  lemma StaleAfterAdding(s: Store, add: AddArgs, a: EditArgs, c: ClassifyArgs, now: nat)
    requires Consistent(s) && a.contextId == FreshId(ContextId, s.nextId) == c.contextId
    requires a.extraPayload == map[KContext := Str("x")]
    ensures var added := AddContext(s, add, now).0;
            var (stale, raised) := UpdateContext(added, a, now);
            Consistent(added) && raised == Failure(ProjectionFailed) && Broken(added, stale) && !Consistent(stale)
            && GetContext(stale, a.contextId).1 == Failure(ProjectionFailed)
            && ClassifyContext(stale, c, now) == (stale, Failure(ProjectionFailed))
  {
    var added := AddContext(s, add, now).0;
    AddConsistency(s, add, now);
    EditConsistency(added, a, now);
    BrokenCannotRead(UpdateContext(added, a, now).0, c, now);
  }

  lemma BrokenCannotRead(s: Store, c: ClassifyArgs, now: nat)
    requires s.chronicleId.Some? && Project(s.log).None?
    ensures GetContext(s, c.contextId).1 == Failure(ProjectionFailed)
    ensures ClassifyContext(s, c, now) == (s, Failure(ProjectionFailed))
  {
  }
}
