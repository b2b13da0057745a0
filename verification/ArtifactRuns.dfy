/** Version chains over every run of service calls. */
module ArtifactRuns {
  import opened Wrappers
  import opened Records
  import opened Ids
  import opened IndexProjection
  import opened ChronicleStore
  import opened ArtifactServices
  import opened ContextServices
  import opened ServiceRuns
  import opened ContextRuns

  // ----- The invariant ----------------------------------------------------------------------

  /** The event is the source event of `v` and carries it. */
  predicate Carries(e: ChronicleEvent, v: Version) {
    e.eventId == v.sourceEventId && KVersion in e.payload && e.payload[KVersion].Dict?
    && ValidateVersion(e.payload[KVersion].fields) == Some(v)
  }

  ghost predicate Carried(log: seq<ChronicleEvent>, v: Version) {
    exists i :: 0 <= i < |log| && Carries(log[i], v)
  }

  /** The first version has no parent, every later one its predecessor, and the artifact points at the last. */
  ghost predicate Linked(a: Artifact, vs: seq<Version>) {
    && |vs| > 0
    && vs[0].parentVersionId == None
    && (forall i :: 0 < i < |vs| ==> vs[i].parentVersionId == Some(vs[i - 1].versionId))
    && a.currentVersionId == vs[|vs| - 1].versionId
    && (forall i :: 0 <= i < |vs| ==> vs[i].artifactId == a.artifactId)
    && (forall i, j :: 0 <= i < j < |vs| ==> vs[i].versionId != vs[j].versionId)
  }

  /** Every version has its file, and the current file is the last version's. */
  ghost predicate HasFiles(s: Store, id: string, vs: seq<Version>) {
    && (forall i :: 0 <= i < |vs| ==> (id, vs[i].versionId) in s.versionFiles)
    && |vs| > 0 && id in s.currentFiles
    && s.currentFiles[id] == s.versionFiles[(id, vs[|vs| - 1].versionId)]
  }

  ghost predicate ChainAt(s: Store, id: string) {
    && id in s.index.artifacts && id in s.index.versions
    && var a, vs := s.index.artifacts[id], s.index.versions[id];
       a.artifactId == id && Linked(a, vs) && HasFiles(s, id, vs)
       && (forall i :: 0 <= i < |vs| ==> Carried(s.log, vs[i]))
  }

  ghost predicate IdsPast(s: Store) {
    && (forall i :: 0 <= i < |s.log| ==> Past(EventId, s.log[i].eventId, s.nextId))
    && (forall id :: id in s.index.artifacts ==> Past(ArtifactId, id, s.nextId))
    && (forall id, i :: id in s.index.versions && 0 <= i < |s.index.versions[id]| ==>
          Past(VersionId, s.index.versions[id][i].versionId, s.nextId))
  }

  ghost predicate EventIdsDistinct(log: seq<ChronicleEvent>) {
    forall i, j :: 0 <= i < j < |log| ==> log[i].eventId != log[j].eventId
  }

  ghost predicate AllChains(s: Store) {
    forall id :: id in s.index.artifacts ==> ChainAt(s, id)
  }

  ghost predicate Inv(s: Store) {
    && Consistent(s)
    && s.index.versions.Keys == s.index.artifacts.Keys
    && AllChains(s)
    && IdsPast(s)
    && EventIdsDistinct(s.log)
  }

  /** Versions only get appended, and of an artifact only title, current version and update time move. */
  ghost predicate Extends(s: Store, t: Store) {
    forall id :: id in s.index.artifacts && id in s.index.versions ==>
      id in t.index.artifacts && id in t.index.versions && s.index.versions[id] <= t.index.versions[id]
      && SameIdentity(s.index.artifacts[id], t.index.artifacts[id])
  }

  predicate SameIdentity(a: Artifact, b: Artifact) {
    b == a.(title := b.title, currentVersionId := b.currentVersionId, updatedAt := b.updatedAt)
  }

  // ----- Steps -------------------------------------------------------------------------------

  lemma CarriedLater(log: seq<ChronicleEvent>, e: ChronicleEvent, v: Version)
    requires Carried(log, v)
    ensures Carried(log + [e], v)
  {
    var i :| 0 <= i < |log| && Carries(log[i], v);
    assert (log + [e])[i] == log[i];
  }

  lemma CarriedNow(log: seq<ChronicleEvent>, e: ChronicleEvent, v: Version)
    requires Carries(e, v)
    ensures Carried(log + [e], v)
  {
    assert (log + [e])[|log|] == e;
  }

  /** Chains survive a step that touches neither their index entries nor their files. */
  lemma ChainKept(s: Store, t: Store, e: ChronicleEvent, id: string)
    requires ChainAt(s, id) && t.log == s.log + [e]
    requires id in t.index.artifacts && t.index.artifacts[id] == s.index.artifacts[id]
    requires id in t.index.versions && t.index.versions[id] == s.index.versions[id]
    requires forall v :: (id, v) in s.versionFiles ==>
               (id, v) in t.versionFiles && t.versionFiles[(id, v)] == s.versionFiles[(id, v)]
    requires id in s.currentFiles ==> id in t.currentFiles && t.currentFiles[id] == s.currentFiles[id]
    ensures ChainAt(t, id)
  {
    var vs := s.index.versions[id];
    forall i | 0 <= i < |vs| ensures Carried(t.log, vs[i]) {
      CarriedLater(s.log, e, vs[i]);
    }
  }

  lemma LinkedAppend(a: Artifact, b: Artifact, vs: seq<Version>, v: Version)
    requires Linked(a, vs) && v.parentVersionId == Some(a.currentVersionId) && v.artifactId == a.artifactId
    requires b.artifactId == a.artifactId && b.currentVersionId == v.versionId
    requires forall i :: 0 <= i < |vs| ==> vs[i].versionId != v.versionId
    ensures Linked(b, vs + [v])
  {
    var all := vs + [v];
    forall i | 0 < i < |all| ensures all[i].parentVersionId == Some(all[i - 1].versionId) {
    }
  }

  /** What a successful `create` or `update` does: one event, one artifact entry, one version, two files. */
  ghost predicate Wrote(s: Store, t: Store, e: ChronicleEvent, artifact: Artifact, version: Version, body: string) {
    && t.chronicleId == s.chronicleId
    && t.log == s.log + [e]
    && t.index == WithArtifact(s.index, artifact, version)
    && t.versionFiles == s.versionFiles[(artifact.artifactId, version.versionId) := body]
    && t.currentFiles == s.currentFiles[artifact.artifactId := body]
    && Carries(e, version)
    && artifact.artifactId == version.artifactId
  }

  lemma CreateWrites(s: Store, a: CreateArgs, now: nat)
    requires Consistent(s) && Body(a.content).Some?
    ensures var artifact, version := NewArtifact(a, s.chronicleId.value, s.nextId, now), FirstVersion(a, s.nextId, now);
            var r := CreateArtifact(s, a, now);
            r.1 == Success((artifact, version)) && r.0.nextId == s.nextId + 3
            && Consistent(r.0)
            && Wrote(s, r.0, CreatedEvent(a, artifact, version, now), artifact, version, Body(a.content).value)
  {
    var artifact, version := NewArtifact(a, s.chronicleId.value, s.nextId, now), FirstVersion(a, s.nextId, now);
    var e := CreatedEvent(a, artifact, version, now);
    CarriedDumps(e, artifact, version);
    CarriesItsPair(e);
    AppendArtifact(s.log, e);
  }

  /** Fresh numbers between `s.nextId` and `t.nextId` give ids that are past in `t`. */
  lemma IdsStayPast(s: Store, t: Store, e: ChronicleEvent, artifact: Artifact, version: Version, body: string,
                    eventNumber: nat, versionNumber: nat)
    requires IdsPast(s) && Wrote(s, t, e, artifact, version, body)
    requires s.nextId <= eventNumber < t.nextId && e.eventId == FreshId(EventId, eventNumber)
    requires s.nextId <= versionNumber < t.nextId && version.versionId == FreshId(VersionId, versionNumber)
    requires artifact.artifactId in s.index.artifacts ||
             (s.nextId < t.nextId && artifact.artifactId == FreshId(ArtifactId, s.nextId))
    ensures IdsPast(t)
  {
    PastAfter(EventId, eventNumber, t.nextId);
    PastAfter(VersionId, versionNumber, t.nextId);
    if artifact.artifactId !in s.index.artifacts {
      PastAfter(ArtifactId, s.nextId, t.nextId);
    }
    forall i | 0 <= i < |t.log| ensures Past(EventId, t.log[i].eventId, t.nextId) {
      assert i < |s.log| ==> Past(EventId, s.log[i].eventId, s.nextId);
    }
    forall id | id in t.index.artifacts ensures Past(ArtifactId, id, t.nextId) {
      assert id in s.index.artifacts ==> Past(ArtifactId, id, s.nextId);
    }
    forall id, i | id in t.index.versions && 0 <= i < |t.index.versions[id]|
      ensures Past(VersionId, t.index.versions[id][i].versionId, t.nextId)
    {
      if id in s.index.versions && i < |s.index.versions[id]| {
        assert Past(VersionId, s.index.versions[id][i].versionId, s.nextId);
      }
    }
  }

  lemma EventIdsAfter(s: Store, e: ChronicleEvent, n: nat)
    requires IdsPast(s) && EventIdsDistinct(s.log) && n >= s.nextId && e.eventId == FreshId(EventId, n)
    ensures EventIdsDistinct(s.log + [e])
  {
    forall i | 0 <= i < |s.log| ensures s.log[i].eventId != e.eventId {
      assert Past(EventId, s.log[i].eventId, s.nextId);
    }
  }

  lemma OtherKept(s: Store, t: Store, e: ChronicleEvent, artifact: Artifact, version: Version, body: string,
                  id: string)
    requires ChainAt(s, id) && Wrote(s, t, e, artifact, version, body)
    requires id != artifact.artifactId
    ensures ChainAt(t, id)
  {
    ChainKept(s, t, e, id);
  }

  lemma WroteChains(s: Store, t: Store, e: ChronicleEvent, artifact: Artifact, version: Version, body: string)
    requires AllChains(s) && Wrote(s, t, e, artifact, version, body)
    requires ChainAt(t, artifact.artifactId)
    ensures AllChains(t)
  {
    forall id | id in t.index.artifacts ensures ChainAt(t, id) {
      if id != artifact.artifactId {
        assert ChainAt(s, id);
        OtherKept(s, t, e, artifact, version, body, id);
      }
    }
  }

  lemma WroteExtends(s: Store, t: Store, e: ChronicleEvent, artifact: Artifact, version: Version, body: string)
    requires Wrote(s, t, e, artifact, version, body)
    requires s.index.versions.Keys == s.index.artifacts.Keys
    requires artifact.artifactId in s.index.artifacts ==> SameIdentity(s.index.artifacts[artifact.artifactId], artifact)
    ensures Extends(s, t) && t.index.versions.Keys == t.index.artifacts.Keys
  {
  }

  lemma NewChain(t: Store, id: string)
    requires id in t.index.artifacts && id in t.index.versions && |t.index.versions[id]| == 1
    requires var a, v := t.index.artifacts[id], t.index.versions[id][0];
             a.artifactId == id == v.artifactId && a.currentVersionId == v.versionId && v.parentVersionId == None
             && Carried(t.log, v)
             && (id, v.versionId) in t.versionFiles && id in t.currentFiles
             && t.currentFiles[id] == t.versionFiles[(id, v.versionId)]
    ensures ChainAt(t, id)
  {
  }

  lemma NotYetFiled(s: Store, id: string)
    requires IdsPast(s) && id == FreshId(ArtifactId, s.nextId)
    ensures id !in s.index.artifacts
  {
    assert !Past(ArtifactId, FreshId(ArtifactId, s.nextId), s.nextId);
  }

  lemma VersionIdUnused(s: Store, id: string, n: nat)
    requires IdsPast(s) && id in s.index.versions && n >= s.nextId
    ensures forall i :: 0 <= i < |s.index.versions[id]| ==> s.index.versions[id][i].versionId != FreshId(VersionId, n)
  {
    forall i | 0 <= i < |s.index.versions[id]| ensures s.index.versions[id][i].versionId != FreshId(VersionId, n) {
      assert Past(VersionId, s.index.versions[id][i].versionId, s.nextId);
    }
  }

  lemma GrownChain(s: Store, t: Store, e: ChronicleEvent, artifact: Artifact, version: Version, body: string)
    requires ChainAt(s, artifact.artifactId) && Wrote(s, t, e, artifact, version, body)
    requires version.parentVersionId == Some(s.index.artifacts[artifact.artifactId].currentVersionId)
    requires artifact.currentVersionId == version.versionId
    requires forall i :: 0 <= i < |s.index.versions[artifact.artifactId]| ==>
               s.index.versions[artifact.artifactId][i].versionId != version.versionId
    ensures ChainAt(t, artifact.artifactId)
  {
    var id := artifact.artifactId;
    var vs := s.index.versions[id];
    assert t.index.versions[id] == vs + [version];
    LinkedAppend(s.index.artifacts[id], artifact, vs, version);
    forall i | 0 <= i < |vs| ensures Carried(t.log, vs[i]) {
      CarriedLater(s.log, e, vs[i]);
    }
    CarriedNow(s.log, e, version);
  }

  /** A new artifact's only version, or the next version of a known artifact. */
  ghost predicate Follows(s: Store, artifact: Artifact, version: Version) {
    if artifact.artifactId in s.index.artifacts then
      version.parentVersionId == Some(s.index.artifacts[artifact.artifactId].currentVersionId)
      && SameIdentity(s.index.artifacts[artifact.artifactId], artifact)
    else
      version.parentVersionId == None && artifact.artifactId == FreshId(ArtifactId, s.nextId)
  }

  lemma WriteChain(s: Store, t: Store, e: ChronicleEvent, artifact: Artifact, version: Version, body: string,
                   versionNumber: nat)
    requires AllChains(s) && IdsPast(s) && s.index.versions.Keys == s.index.artifacts.Keys
    requires Wrote(s, t, e, artifact, version, body) && Follows(s, artifact, version)
    requires s.nextId <= versionNumber && version.versionId == FreshId(VersionId, versionNumber)
    requires artifact.currentVersionId == version.versionId
    ensures ChainAt(t, artifact.artifactId)
  {
    var id := artifact.artifactId;
    if id in s.index.artifacts {
      assert ChainAt(s, id);
      VersionIdUnused(s, id, versionNumber);
      GrownChain(s, t, e, artifact, version, body);
    } else {
      CarriedNow(s.log, e, version);
      assert t.index.versions[id] == [version];
      NewChain(t, id);
    }
  }

  lemma WriteKeeps(s: Store, t: Store, e: ChronicleEvent, artifact: Artifact, version: Version, body: string,
                   eventNumber: nat, versionNumber: nat)
    requires Inv(s) && Consistent(t)
    requires Wrote(s, t, e, artifact, version, body) && Follows(s, artifact, version)
    requires s.nextId <= eventNumber < t.nextId && e.eventId == FreshId(EventId, eventNumber)
    requires s.nextId <= versionNumber < t.nextId && version.versionId == FreshId(VersionId, versionNumber)
    requires artifact.currentVersionId == version.versionId
    ensures Inv(t) && Extends(s, t)
  {
    EventIdsAfter(s, e, eventNumber);
    IdsStayPast(s, t, e, artifact, version, body, eventNumber, versionNumber);
    WriteChain(s, t, e, artifact, version, body, versionNumber);
    WroteChains(s, t, e, artifact, version, body);
    WroteExtends(s, t, e, artifact, version, body);
  }

  lemma CreateKeeps(s: Store, a: CreateArgs, now: nat)
    requires Inv(s)
    ensures var r := CreateArtifact(s, a, now);
            Inv(r.0) && Extends(s, r.0) && (Body(a.content).Some? <==> r.1.Success?)
            && (r.1.Failure? ==> r.1.error != ProjectionFailed)
  {
    var n := s.nextId;
    if Body(a.content).None? {
      OnlyNumbers(s, CreateArtifact(s, a, now).0);
    } else {
      var artifact, version := NewArtifact(a, s.chronicleId.value, n, now), FirstVersion(a, n, now);
      CreateWrites(s, a, now);
      NotYetFiled(s, artifact.artifactId);
      WriteKeeps(s, CreateArtifact(s, a, now).0, CreatedEvent(a, artifact, version, now), artifact, version,
                 Body(a.content).value, n + 2, n + 1);
    }
  }

  /** Only the id counter moved. */
  lemma OnlyNumbers(s: Store, t: Store)
    requires Inv(s) && t.nextId >= s.nextId && t == s.(nextId := t.nextId)
    ensures Inv(t) && Extends(s, t)
  {
    forall id | id in s.index.artifacts ensures ChainAt(t, id) {
      assert ChainAt(s, id);
    }
  }

  // ----- update -------------------------------------------------------------------------------

  /** The extra payload names neither an artifact nor a version. */
  predicate KeepsArtifact(extra: Fields) {
    KArtifact !in extra && KVersion !in extra
  }

  /** The extra payload's artifact and version, if any, are the ones the call built. */
  predicate SamePair(extra: Fields, artifact: Artifact, version: Version) {
    && (KArtifact !in extra || (extra[KArtifact].Dict? && ValidateArtifact(extra[KArtifact].fields) == Some(artifact)))
    && (KVersion !in extra || (extra[KVersion].Dict? && ValidateVersion(extra[KVersion].fields) == Some(version)))
  }

  lemma PayloadPair(e: ChronicleEvent, artifact: Artifact, version: Version, extra: Fields)
    requires e.payload == UpdatePayload(artifact, version, extra)
    ensures CarriedPair(e) == Some((artifact, version)) <==> SamePair(extra, artifact, version)
  {
    ArtifactRoundTrip(artifact);
    VersionRoundTrip(version);
    assert KArtifact !in extra ==> e.payload[KArtifact] == Dict(DumpArtifact(artifact));
    assert KVersion !in extra ==> e.payload[KVersion] == Dict(DumpVersion(version));
  }

  /** What the call files are the artifact and the version it built. */
  predicate BuiltPair(s: Store, a: UpdateArgs, now: nat)
    requires a.artifactId in s.index.artifacts
  {
    var current := s.index.artifacts[a.artifactId];
    SamePair(a.extraPayload, UpdatedArtifact(current, a, s.nextId, now), NextVersion(current, a, s.nextId, now))
  }

  lemma UpdateWritesFiles(s: Store, a: UpdateArgs, now: nat)
    requires s.chronicleId.Some? && Appends(s, a)
    ensures var t, versionId := UpdateArtifact(s, a, now).0, FreshId(VersionId, s.nextId);
            t.versionFiles == s.versionFiles[(a.artifactId, versionId) := Body(a.content).value]
            && t.currentFiles == s.currentFiles[a.artifactId := Body(a.content).value]
  {
  }

  lemma UpdateResult(s: Store, a: UpdateArgs, now: nat)
    requires Consistent(s) && Appends(s, a) && UpdateArtifact(s, a, now).1.Success?
    ensures var current := s.index.artifacts[a.artifactId];
            UpdateArtifact(s, a, now).1
            == Success((UpdatedArtifact(current, a, s.nextId, now), NextVersion(current, a, s.nextId, now)))
  {
  }

  lemma UpdateWrites(s: Store, a: UpdateArgs, now: nat)
    requires Consistent(s) && Appends(s, a)
    requires s.index.artifacts[a.artifactId].artifactId == a.artifactId && BuiltPair(s, a, now)
    ensures var current := s.index.artifacts[a.artifactId];
            var artifact, version := UpdatedArtifact(current, a, s.nextId, now), NextVersion(current, a, s.nextId, now);
            var r := UpdateArtifact(s, a, now);
            r.1 == Success((artifact, version)) && r.0.nextId == s.nextId + 2
            && Consistent(r.0)
            && Wrote(s, r.0, UpdateEvent(s, a, now), artifact, version, Body(a.content).value)
  {
    var current := s.index.artifacts[a.artifactId];
    var e := UpdateEvent(s, a, now);
    PayloadPair(e, UpdatedArtifact(current, a, s.nextId, now), NextVersion(current, a, s.nextId, now), a.extraPayload);
    AppendArtifact(s.log, e);
    UpdateMeans(s, a, now);
    UpdateResult(s, a, now);
    UpdateWritesFiles(s, a, now);
  }

  lemma UpdateFollows(s: Store, a: UpdateArgs, now: nat)
    requires a.artifactId in s.index.artifacts && s.index.artifacts[a.artifactId].artifactId == a.artifactId
    ensures var current := s.index.artifacts[a.artifactId];
            var artifact, version := UpdatedArtifact(current, a, s.nextId, now), NextVersion(current, a, s.nextId, now);
            Follows(s, artifact, version)
            && version.versionId == FreshId(VersionId, s.nextId)
            && version.sourceEventId == FreshId(EventId, s.nextId + 1)
            && version.createdAt == now && artifact.currentVersionId == version.versionId
  {
  }

  lemma UpdateGrows(s: Store, a: UpdateArgs, now: nat)
    requires Inv(s) && Appends(s, a) && BuiltPair(s, a, now)
    ensures var r := UpdateArtifact(s, a, now); Inv(r.0) && Extends(s, r.0) && r.1.Success?
  {
    assert s.index.artifacts[a.artifactId].artifactId == a.artifactId by {
      IndexOwnIds(s.log);
    }
    UpdateFollows(s, a, now);
    UpdateWrites(s, a, now);
    var current := s.index.artifacts[a.artifactId];
    var artifact, version := UpdatedArtifact(current, a, s.nextId, now), NextVersion(current, a, s.nextId, now);
    var e, t := UpdateEvent(s, a, now), UpdateArtifact(s, a, now).0;
    WriteKeeps(s, t, e, artifact, version, Body(a.content).value, s.nextId + 1, s.nextId);
  }

  lemma UpdateKeeps(s: Store, a: UpdateArgs, now: nat)
    requires Inv(s) && (Appends(s, a) ==> BuiltPair(s, a, now))
    ensures var r := UpdateArtifact(s, a, now);
            Inv(r.0) && Extends(s, r.0)
            && (r.1.Success? <==> Appends(s, a))
            && (r.1.Failure? ==> r.1.error != ProjectionFailed)
  {
    if Appends(s, a) {
      UpdateGrows(s, a, now);
    } else {
      OnlyNumbers(s, UpdateArtifact(s, a, now).0);
    }
  }

  /** The index holds what `update` returned: this artifact, with this version as its last. */
  ghost predicate Holds(index: Index, artifact: Artifact, version: Version) {
    && artifact.artifactId in index.artifacts && index.artifacts[artifact.artifactId] == artifact
    && artifact.artifactId in index.versions && |index.versions[artifact.artifactId]| > 0
    && index.versions[artifact.artifactId][|index.versions[artifact.artifactId]| - 1] == version
  }

  lemma PairHolds(index: Index, a: Artifact, v: Version, artifact: Artifact, version: Version)
    requires artifact.artifactId == version.artifactId && !Holds(index, artifact, version)
    requires artifact.artifactId in index.artifacts ==> index.artifacts[artifact.artifactId] != artifact
    requires artifact.artifactId in index.versions ==>
               forall i :: 0 <= i < |index.versions[artifact.artifactId]| ==>
                   index.versions[artifact.artifactId][i] != version
    ensures Holds(WithArtifact(index, a, v), artifact, version) <==> a == artifact && v == version
  {
  }

  /**
   * What `update` returns is what the index holds afterwards exactly when the extra payload does
   * not replace the artifact or the version by another one.
   */
  lemma UpdateIsIndexed(s: Store, a: UpdateArgs, now: nat)
    requires Inv(s)
    requires Appends(s, a)
    ensures var current := s.index.artifacts[a.artifactId];
            var artifact, version := UpdatedArtifact(current, a, s.nextId, now), NextVersion(current, a, s.nextId, now);
            SamePair(a.extraPayload, artifact, version) <==>
            (UpdateArtifact(s, a, now).1 == Success((artifact, version))
                && Holds(UpdateArtifact(s, a, now).0.index, artifact, version))
  {
    var current := s.index.artifacts[a.artifactId];
    var artifact, version := UpdatedArtifact(current, a, s.nextId, now), NextVersion(current, a, s.nextId, now);
    var e := UpdateEvent(s, a, now);
    UpdateMeans(s, a, now);
    if UpdateArtifact(s, a, now).1.Success? {
      UpdateResult(s, a, now);
    }
    AppendArtifact(s.log, e);
    PayloadPair(e, artifact, version, a.extraPayload);
    IndexOwnIds(s.log);
    LastIsCurrent(s, a.artifactId);
    PairIsNew(s, a, now);
    if CarriedPair(e).Some? {
      PairHolds(s.index, CarriedPair(e).value.0, CarriedPair(e).value.1, artifact, version);
    }
  }

  lemma PairIsNew(s: Store, a: UpdateArgs, now: nat)
    requires IdsPast(s) && a.artifactId in s.index.artifacts && a.artifactId in s.index.versions
    requires s.index.artifacts[a.artifactId].artifactId == a.artifactId && |s.index.versions[a.artifactId]| > 0
    requires s.index.versions[a.artifactId][|s.index.versions[a.artifactId]| - 1].versionId
             == s.index.artifacts[a.artifactId].currentVersionId
    ensures var current := s.index.artifacts[a.artifactId];
            var artifact, version := UpdatedArtifact(current, a, s.nextId, now), NextVersion(current, a, s.nextId, now);
            artifact.artifactId == version.artifactId == a.artifactId && current != artifact
            && forall i :: 0 <= i < |s.index.versions[a.artifactId]| ==> s.index.versions[a.artifactId][i] != version
  {
    VersionIdUnused(s, a.artifactId, s.nextId);
  }

  lemma LastIsCurrent(s: Store, id: string)
    requires AllChains(s) && id in s.index.artifacts
    ensures id in s.index.versions && |s.index.versions[id]| > 0
    ensures s.index.versions[id][|s.index.versions[id]| - 1].versionId == s.index.artifacts[id].currentVersionId
  {
    assert ChainAt(s, id);
  }

  // ----- When an update continues its artifact's chain -------------------------------------------------

  /** What an update leaves: an event that carries the pair it filed, and the files of the version it built. */
  ghost predicate Updated(s: Store, t: Store, e: ChronicleEvent, x: Artifact, w: Version, id: string, body: string) {
    && t.log == s.log + [e] && t.index == WithArtifact(s.index, x, w)
    && e.eventId == FreshId(EventId, s.nextId + 1)
    && KVersion in e.payload && e.payload[KVersion].Dict? && ValidateVersion(e.payload[KVersion].fields) == Some(w)
    && t.versionFiles == s.versionFiles[(id, FreshId(VersionId, s.nextId)) := body]
    && t.currentFiles == s.currentFiles[id := body]
  }

  /** A filed version with its artifact goes on where the chain ends. */
  ghost predicate Continues(s: Store, x: Artifact, w: Version, id: string, body: string)
    requires ChainAt(s, id)
  {
    var vs := s.index.versions[id];
    && x.artifactId == id && x.currentVersionId == w.versionId
    && w.parentVersionId == Some(vs[|vs| - 1].versionId)
    && (forall i :: 0 <= i < |vs| ==> vs[i].versionId != w.versionId)
    && (w.versionId == FreshId(VersionId, s.nextId)
        || ((id, w.versionId) in s.versionFiles && s.versionFiles[(id, w.versionId)] == body))
    && (w.sourceEventId == FreshId(EventId, s.nextId + 1) || Carried(s.log, w))
  }

  /** With the version filed elsewhere, the chain stays as it was, and so must the current file. */
  ghost predicate Stays(s: Store, x: Artifact, id: string, body: string)
    requires ChainAt(s, id)
  {
    var vs := s.index.versions[id];
    (x.artifactId == id ==> x.currentVersionId == vs[|vs| - 1].versionId) && s.currentFiles[id] == body
  }

  lemma CarriedAppend(log: seq<ChronicleEvent>, e: ChronicleEvent, v: Version)
    ensures Carried(log + [e], v) <==> Carried(log, v) || Carries(e, v)
  {
    if Carried(log, v) {
      CarriedLater(log, e, v);
    }
    if Carries(e, v) {
      CarriedNow(log, e, v);
    }
  }

  lemma AllCarried(log: seq<ChronicleEvent>, e: ChronicleEvent, vs: seq<Version>)
    requires forall i :: 0 <= i < |vs| ==> Carried(log, vs[i])
    ensures forall i :: 0 <= i < |vs| ==> Carried(log + [e], vs[i])
  {
    forall i | 0 <= i < |vs| ensures Carried(log + [e], vs[i]) {
      CarriedLater(log, e, vs[i]);
    }
  }

  lemma LinkedOneMore(a: Artifact, b: Artifact, vs: seq<Version>, w: Version)
    requires Linked(a, vs) && b.artifactId == a.artifactId == w.artifactId
    ensures Linked(b, vs + [w]) <==>
              b.currentVersionId == w.versionId && w.parentVersionId == Some(vs[|vs| - 1].versionId)
              && forall i :: 0 <= i < |vs| ==> vs[i].versionId != w.versionId
  {
    var all := vs + [w];
    assert all[|vs|] == w && all[|vs| - 1] == vs[|vs| - 1];
    if b.currentVersionId == w.versionId && w.parentVersionId == Some(vs[|vs| - 1].versionId)
       && forall i :: 0 <= i < |vs| ==> vs[i].versionId != w.versionId
    {
      LinkedAppend(a, b, vs, w);
    }
    if Linked(b, all) {
      forall i | 0 <= i < |vs| ensures vs[i].versionId != w.versionId {
        assert all[i].versionId != all[|vs|].versionId;
      }
    }
  }

  lemma FilesOneMore(s: Store, t: Store, id: string, vs: seq<Version>, w: Version, body: string)
    requires HasFiles(s, id, vs)
    requires t.versionFiles == s.versionFiles[(id, FreshId(VersionId, s.nextId)) := body]
    requires t.currentFiles == s.currentFiles[id := body]
    ensures HasFiles(t, id, vs + [w]) <==>
              w.versionId == FreshId(VersionId, s.nextId)
              || ((id, w.versionId) in s.versionFiles && s.versionFiles[(id, w.versionId)] == body)
  {
    var all := vs + [w];
    assert all[|vs|] == w;
  }

  lemma OwnVersion(s: Store, t: Store, e: ChronicleEvent, x: Artifact, w: Version, id: string, body: string)
    requires ChainAt(s, id) && Updated(s, t, e, x, w, id, body) && w.artifactId == id
    ensures ChainAt(t, id) <==> Continues(s, x, w, id, body)
  {
    if x.artifactId == id {
      OwnPair(s, t, e, x, w, id, body);
    } else {
      assert t.index.versions[id] == s.index.versions[id] + [w];
      OldPointer(s.index.artifacts[id], s.index.versions[id], w);
    }
  }

  lemma OwnPair(s: Store, t: Store, e: ChronicleEvent, x: Artifact, w: Version, id: string, body: string)
    requires ChainAt(s, id) && Updated(s, t, e, x, w, id, body) && w.artifactId == id == x.artifactId
    ensures ChainAt(t, id) <==> Continues(s, x, w, id, body)
  {
    var vs := s.index.versions[id];
    assert t.index.versions[id] == vs + [w] && t.index.artifacts[id] == x;
    FilesOneMore(s, t, id, vs, w, body);
    AllOneMoreCarried(s.log, e, vs, w);
    LinkedOneMore(s.index.artifacts[id], x, vs, w);
  }

  lemma AllOneMoreCarried(log: seq<ChronicleEvent>, e: ChronicleEvent, vs: seq<Version>, w: Version)
    requires forall i :: 0 <= i < |vs| ==> Carried(log, vs[i])
    ensures (forall i :: 0 <= i < |vs + [w]| ==> Carried(log + [e], (vs + [w])[i]))
            <==> Carried(log, w) || Carries(e, w)
  {
    AllCarried(log, e, vs);
    CarriedAppend(log, e, w);
    assert (vs + [w])[|vs|] == w;
  }

  lemma OldPointer(a: Artifact, vs: seq<Version>, w: Version)
    requires Linked(a, vs)
    ensures !Linked(a, vs + [w])
  {
    var all := vs + [w];
    assert all[|vs| - 1] == vs[|vs| - 1] && all[|vs|] == w;
  }

  lemma OtherVersion(s: Store, t: Store, e: ChronicleEvent, x: Artifact, w: Version, id: string, body: string)
    requires IdsPast(s) && ChainAt(s, id) && Updated(s, t, e, x, w, id, body) && w.artifactId != id
    ensures ChainAt(t, id) <==> Stays(s, x, id, body)
  {
    var vs := s.index.versions[id];
    VersionIdUnused(s, id, s.nextId);
    AllCarried(s.log, e, vs);
    assert t.index.versions[id] == vs;
    assert HasFiles(t, id, vs) <==> s.currentFiles[id] == body;
  }

  lemma UpdateLeaves(s: Store, a: UpdateArgs, now: nat)
    requires Consistent(s) && Appends(s, a) && UpdatePayloadFiles(a.extraPayload)
    ensures var e := UpdateEvent(s, a, now);
            CarriedPair(e).Some?
            && Updated(s, UpdateArtifact(s, a, now).0, e, CarriedPair(e).value.0, CarriedPair(e).value.1, a.artifactId,
                       Body(a.content).value)
  {
    UpdateIndexes(s, a, now);
    UpdateWritesFiles(s, a, now);
    CarriesItsPair(UpdateEvent(s, a, now));
    UpdateEventId(s, a, now);
  }

  lemma CarriesItsPair(e: ChronicleEvent)
    requires CarriedPair(e).Some?
    ensures KVersion in e.payload && e.payload[KVersion].Dict?
    ensures ValidateVersion(e.payload[KVersion].fields) == Some(CarriedPair(e).value.1)
  {
  }

  lemma UpdateEventId(s: Store, a: UpdateArgs, now: nat)
    requires s.chronicleId.Some? && a.artifactId in s.index.artifacts
    ensures UpdateEvent(s, a, now).eventId == FreshId(EventId, s.nextId + 1)
  {
  }

  lemma UpdateIndexes(s: Store, a: UpdateArgs, now: nat)
    requires Consistent(s) && Appends(s, a) && UpdatePayloadFiles(a.extraPayload)
    ensures var e, t := UpdateEvent(s, a, now), UpdateArtifact(s, a, now).0;
            CarriedPair(e).Some? && t.log == s.log + [e]
            && t.index == WithArtifact(s.index, CarriedPair(e).value.0, CarriedPair(e).value.1)
  {
    UpdatePairFiles(s, a, now);
    AppendArtifact(s.log, UpdateEvent(s, a, now));
    UpdateMeans(s, a, now);
  }

  /**
   * For every extra payload that can be filed: after an update its artifact's versions form a chain
   * exactly when the version that was filed goes on where the chain ends and its artifact points at
   * it, or the version was filed for another artifact and neither pointer nor current file moved.
   */
  lemma UpdateContinuesChain(s: Store, a: UpdateArgs, now: nat)
    requires Inv(s) && Appends(s, a) && UpdatePayloadFiles(a.extraPayload)
    ensures var e, body := UpdateEvent(s, a, now), Body(a.content).value;
            CarriedPair(e).Some? && ChainAt(s, a.artifactId)
            && var (x, w) := CarriedPair(e).value;
               ChainAt(UpdateArtifact(s, a, now).0, a.artifactId) <==>
                 if w.artifactId == a.artifactId then Continues(s, x, w, a.artifactId, body)
                 else Stays(s, x, a.artifactId, body)
  {
    var id, e, body := a.artifactId, UpdateEvent(s, a, now), Body(a.content).value;
    assert ChainAt(s, id);
    UpdateLeaves(s, a, now);
    var (x, w) := CarriedPair(e).value;
    if w.artifactId == id {
      OwnVersion(s, UpdateArtifact(s, a, now).0, e, x, w, id, body);
    } else {
      OtherVersion(s, UpdateArtifact(s, a, now).0, e, x, w, id, body);
    }
  }

  function ExtraArtifact(extra: Fields): Option<Artifact> {
    if KArtifact in extra && extra[KArtifact].Dict? then ValidateArtifact(extra[KArtifact].fields) else None
  }

  function ExtraVersion(extra: Fields): Option<Version> {
    if KVersion in extra && extra[KVersion].Dict? then ValidateVersion(extra[KVersion].fields) else None
  }

  /** The pair an update files: each record from the extra payload if it is there, else as built. */
  lemma FiledPair(s: Store, a: UpdateArgs, now: nat)
    requires s.chronicleId.Some? && a.artifactId in s.index.artifacts && UpdatePayloadFiles(a.extraPayload)
    ensures var e, current := UpdateEvent(s, a, now), s.index.artifacts[a.artifactId];
            var x, w := ExtraArtifact(a.extraPayload), ExtraVersion(a.extraPayload);
            CarriedPair(e) == Some((if x.Some? then x.value else UpdatedArtifact(current, a, s.nextId, now),
                                    if w.Some? then w.value else NextVersion(current, a, s.nextId, now)))
  {
    var current := s.index.artifacts[a.artifactId];
    MergedPair(UpdateEvent(s, a, now), UpdatedArtifact(current, a, s.nextId, now),
               NextVersion(current, a, s.nextId, now), a.extraPayload);
  }

  lemma MergedPair(e: ChronicleEvent, artifact: Artifact, version: Version, extra: Fields)
    requires e.payload == UpdatePayload(artifact, version, extra) && UpdatePayloadFiles(extra)
    ensures var x, w := ExtraArtifact(extra), ExtraVersion(extra);
            CarriedPair(e) == Some((if x.Some? then x.value else artifact, if w.Some? then w.value else version))
  {
    ArtifactRoundTrip(artifact);
    VersionRoundTrip(version);
    assert KArtifact in extra ==> e.payload[KArtifact] == extra[KArtifact];
    assert KVersion in extra ==> e.payload[KVersion] == extra[KVersion];
    assert KArtifact !in extra ==> e.payload[KArtifact] == Dict(DumpArtifact(artifact));
    assert KVersion !in extra ==> e.payload[KVersion] == Dict(DumpVersion(version));
  }

  /** A record of the extra payload that does not name the version id the call is about to generate. */
  predicate NamesNoNewVersion(s: Store, extra: Fields) {
    && (ExtraArtifact(extra).Some? ==> ExtraArtifact(extra).value.currentVersionId != FreshId(VersionId, s.nextId))
    && (ExtraVersion(extra).Some? ==> ExtraVersion(extra).value.versionId != FreshId(VersionId, s.nextId))
  }

  /**
   * An extra payload with an artifact or a version, but not both, that does not foresee the new
   * version id always breaks the chain: it goes on exactly when the payload has neither.
   */
  lemma OneRecordBreaksChain(s: Store, a: UpdateArgs, now: nat)
    requires Inv(s) && Appends(s, a) && UpdatePayloadFiles(a.extraPayload)
    requires NamesNoNewVersion(s, a.extraPayload) && !(KArtifact in a.extraPayload && KVersion in a.extraPayload)
    ensures ChainAt(UpdateArtifact(s, a, now).0, a.artifactId) <==> KeepsArtifact(a.extraPayload)
  {
    var id, body, current := a.artifactId, Body(a.content).value, s.index.artifacts[a.artifactId];
    var artifact, version := UpdatedArtifact(current, a, s.nextId, now), NextVersion(current, a, s.nextId, now);
    assert ChainAt(s, id);
    UpdateContinuesChain(s, a, now);
    FiledPair(s, a, now);
    VersionIdUnused(s, id, s.nextId);
    if KArtifact in a.extraPayload {
      var x := ExtraArtifact(a.extraPayload).value;
      assert !Continues(s, x, version, id, body);
    } else if KVersion in a.extraPayload {
      var w := ExtraVersion(a.extraPayload).value;
      OtherVersionFiled(s, artifact, w, id, body);
    } else {
      OwnPairContinues(s, a, now);
    }
  }

  lemma OtherVersionFiled(s: Store, x: Artifact, w: Version, id: string, body: string)
    requires ChainAt(s, id) && IdsPast(s)
    requires x.artifactId == id && x.currentVersionId == FreshId(VersionId, s.nextId) != w.versionId
    ensures !Continues(s, x, w, id, body) && !Stays(s, x, id, body)
  {
    VersionIdUnused(s, id, s.nextId);
  }

  lemma OwnPairContinues(s: Store, a: UpdateArgs, now: nat)
    requires ChainAt(s, a.artifactId) && IdsPast(s) && Appends(s, a)
    ensures var current := s.index.artifacts[a.artifactId];
            Continues(s, UpdatedArtifact(current, a, s.nextId, now), NextVersion(current, a, s.nextId, now),
                      a.artifactId, Body(a.content).value)
  {
    VersionIdUnused(s, a.artifactId, s.nextId);
  }

  /**
   * The chain can fork: an update with the artifact as it was in its extra payload succeeds, adds its
   * version and leaves the artifact pointing at the one before, which the next update then takes for
   * the parent of a second version.
   */
  lemma ForkedChain(s: Store, a: UpdateArgs, b: UpdateArgs, now: nat, later: nat)
    requires Inv(s) && Appends(s, a) && b.artifactId == a.artifactId && Appends(s, b)
    requires a.extraPayload == map[KArtifact := Dict(DumpArtifact(s.index.artifacts[a.artifactId]))]
    requires KeepsArtifact(b.extraPayload)
    ensures var (t, first) := UpdateArtifact(s, a, now);
            first.Success? && Consistent(t) && !ChainAt(t, a.artifactId)
    ensures var (t, first) := UpdateArtifact(s, a, now);
            var (u, second) := UpdateArtifact(t, b, later);
            second.Success? && Consistent(u) && !ChainAt(u, a.artifactId)
            && first.value.1.parentVersionId == second.value.1.parentVersionId
            && first.value.1.versionId != second.value.1.versionId
            && a.artifactId in u.index.versions
            && u.index.versions[a.artifactId] == s.index.versions[a.artifactId] + [first.value.1, second.value.1]
  {
    var id, current := a.artifactId, s.index.artifacts[a.artifactId];
    var first, t := NextVersion(current, a, s.nextId, now), UpdateArtifact(s, a, now).0;
    FirstBranch(s, a, now);
    SecondBranch(s, t, b, later, first);
    var second := UpdateArtifact(t, b, later).1.value.1;
    TwoMore(s.index.versions[id], first, second);
  }

  lemma TwoMore<T>(s: seq<T>, x: T, y: T)
    ensures s + [x] + [y] == s + [x, y]
  {
  }

  lemma FirstBranch(s: Store, a: UpdateArgs, now: nat)
    requires Inv(s) && Appends(s, a)
    requires a.extraPayload == map[KArtifact := Dict(DumpArtifact(s.index.artifacts[a.artifactId]))]
    ensures var id, current, (t, first) := a.artifactId, s.index.artifacts[a.artifactId], UpdateArtifact(s, a, now);
            var version := NextVersion(current, a, s.nextId, now);
            first.Success? && first.value.1 == version && Consistent(t) && t.nextId == s.nextId + 2
            && id in s.index.versions && t.index == WithArtifact(s.index, current, version)
            && t.index.artifacts[id] == current && t.index.versions[id] == s.index.versions[id] + [version]
            && current.currentVersionId != FreshId(VersionId, s.nextId) && |s.index.versions[id]| > 0
            && !ChainAt(t, id)
  {
    LastIsCurrent(s, a.artifactId);
    VersionIdUnused(s, a.artifactId, s.nextId);
    OldArtifactFiled(s, a, now);
    UpdateLeaves(s, a, now);
    UpdateConsistency(s, a, now);
    UpdateMeans(s, a, now);
    UpdateResult(s, a, now);
    OneRecordBreaksChain(s, a, now);
  }

  lemma OldArtifactFiled(s: Store, a: UpdateArgs, now: nat)
    requires Inv(s) && Appends(s, a)
    requires a.extraPayload == map[KArtifact := Dict(DumpArtifact(s.index.artifacts[a.artifactId]))]
    ensures var id, current := a.artifactId, s.index.artifacts[a.artifactId];
            UpdatePayloadFiles(a.extraPayload) && NamesNoNewVersion(s, a.extraPayload)
            && CarriedPair(UpdateEvent(s, a, now)) == Some((current, NextVersion(current, a, s.nextId, now)))
            && id in s.index.versions && current.artifactId == id
  {
    var id, current := a.artifactId, s.index.artifacts[a.artifactId];
    ArtifactRoundTrip(current);
    assert ExtraArtifact(a.extraPayload) == Some(current) && ExtraVersion(a.extraPayload) == None;
    assert ChainAt(s, id);
    VersionIdUnused(s, id, s.nextId);
    FiledPair(s, a, now);
  }

  lemma NotLinked(a: Artifact, vs: seq<Version>)
    requires |vs| > 1 && vs[|vs| - 1].parentVersionId != Some(vs[|vs| - 2].versionId)
    ensures !Linked(a, vs)
  {
  }

  lemma SecondBranch(s: Store, t: Store, b: UpdateArgs, now: nat, first: Version)
    requires Consistent(t) && t.nextId == s.nextId + 2 && Appends(t, b) && KeepsArtifact(b.extraPayload)
    requires b.artifactId in s.index.versions && |s.index.versions[b.artifactId]| > 0
    requires b.artifactId in t.index.versions
    requires t.index.versions[b.artifactId] == s.index.versions[b.artifactId] + [first]
    requires first.parentVersionId == Some(t.index.artifacts[b.artifactId].currentVersionId)
    requires first.versionId == FreshId(VersionId, s.nextId) != t.index.artifacts[b.artifactId].currentVersionId
    ensures var (u, second) := UpdateArtifact(t, b, now);
            second.Success? && Consistent(u) && b.artifactId in u.index.versions && !ChainAt(u, b.artifactId)
            && u.index.versions[b.artifactId] == t.index.versions[b.artifactId] + [second.value.1]
            && second.value.1.parentVersionId == first.parentVersionId && second.value.1.versionId != first.versionId
  {
    var id := b.artifactId;
    PlainUpdateAppends(t, b, now);
    var u, second := UpdateArtifact(t, b, now).0, UpdateArtifact(t, b, now).1.value.1;
    if second.versionId == first.versionId {
      FreshIdInjective(VersionId, s.nextId + 2, s.nextId);
    }
    var vs := t.index.versions[id] + [second];
    assert vs[|vs| - 2] == first && vs[|vs| - 1] == second;
    NotLinked(u.index.artifacts[id], vs);
  }

  lemma PlainUpdateAppends(s: Store, a: UpdateArgs, now: nat)
    requires Consistent(s) && Appends(s, a) && KeepsArtifact(a.extraPayload) && a.artifactId in s.index.versions
    ensures var (t, r) := UpdateArtifact(s, a, now);
            var version := NextVersion(s.index.artifacts[a.artifactId], a, s.nextId, now);
            r.Success? && r.value.1 == version && Consistent(t)
            && a.artifactId in t.index.artifacts && a.artifactId in t.index.versions
            && t.index.versions[a.artifactId] == s.index.versions[a.artifactId] + [version]
  {
    IndexOwnIds(s.log);
    UpdateWrites(s, a, now);
  }

  // ----- Context calls leave the chains alone ---------------------------------------------------

  lemma SnappedIds(s: Store, t: Store, e: ChronicleEvent, c: Context)
    requires IdsPast(s) && Snapped(s, t, e, c) && e.eventId == FreshId(EventId, s.nextId)
    ensures IdsPast(t)
  {
    PastAfter(EventId, s.nextId, t.nextId);
    forall i | 0 <= i < |t.log| ensures Past(EventId, t.log[i].eventId, t.nextId) {
      assert i < |s.log| ==> Past(EventId, s.log[i].eventId, s.nextId);
    }
    forall id | id in t.index.artifacts ensures Past(ArtifactId, id, t.nextId) {
      assert Past(ArtifactId, id, s.nextId);
    }
    forall id, i | id in t.index.versions && 0 <= i < |t.index.versions[id]|
      ensures Past(VersionId, t.index.versions[id][i].versionId, t.nextId)
    {
      assert Past(VersionId, s.index.versions[id][i].versionId, s.nextId);
    }
  }

  lemma SnappedKeeps(s: Store, t: Store, e: ChronicleEvent, c: Context)
    requires Inv(s) && Snapped(s, t, e, c) && Consistent(t) && e.eventId == FreshId(EventId, s.nextId)
    ensures Inv(t) && Extends(s, t)
  {
    EventIdsAfter(s, e, s.nextId);
    SnappedIds(s, t, e, c);
    SnappedChains(s, t, e, c);
  }

  lemma SnapshotKeeps(s: Store, d: Draft, c: Context, now: nat)
    requires Inv(s) && Snapshots(d, c)
    ensures Inv(Snapshotted(s, d, now, c).0) && Extends(s, Snapshotted(s, d, now, c).0)
    ensures Snapshotted(s, d, now, c).1 == Success(c)
  {
    SnapshotWrites(s, d, c, now);
    SnappedKeeps(s, Snapshotted(s, d, now, c).0, Stamp(d, FreshId(EventId, s.nextId), s.chronicleId.value, now), c);
  }

  lemma SnappedChains(s: Store, t: Store, e: ChronicleEvent, c: Context)
    requires AllChains(s) && Snapped(s, t, e, c)
    ensures AllChains(t) && Extends(s, t)
  {
    forall id | id in t.index.artifacts ensures ChainAt(t, id) {
      assert ChainAt(s, id);
      ChainKept(s, t, e, id);
    }
  }

  lemma AddKeeps(s: Store, a: AddArgs, now: nat)
    requires Inv(s)
    ensures var r := AddContext(s, a, now); Inv(r.0) && Extends(s, r.0) && r.1.Success?
  {
    var c := NewContext(a, s.nextId, now);
    var numbered := s.(nextId := s.nextId + 1);
    AddMeans(s, a, now);
    OnlyNumbers(s, numbered);
    SnapshotKeeps(numbered, AddDraft(c), c, now);
    ExtendsTransitive(s, numbered, AddContext(s, a, now).0);
  }

  lemma ClassifyKeeps(s: Store, a: ClassifyArgs, now: nat)
    requires Inv(s)
    ensures var r := ClassifyContext(s, a, now);
            Inv(r.0) && Extends(s, r.0) && (r.1.Failure? ==> r.1.error != ProjectionFailed)
  {
    ClassifyMeans(s, a, now);
    if a.contextId in s.index.contexts {
      var c := Classified(s.index.contexts[a.contextId], a, now);
      SnapshotKeeps(s, ClassifyDraft(c), c, now);
    } else {
      OnlyNumbers(s, s);
    }
  }

  lemma EditKeeps(s: Store, a: EditArgs, now: nat)
    requires Inv(s) && (a.contextId in s.index.contexts ==> EditPayloadFiles(a.extraPayload))
    ensures var r := UpdateContext(s, a, now);
            Inv(r.0) && Extends(s, r.0) && (r.1.Failure? ==> r.1.error != ProjectionFailed)
  {
    if a.contextId in s.index.contexts {
      EditWrites(s, a, now);
      SnappedKeeps(s, UpdateContext(s, a, now).0, EditEvent(s, a, now), Stored(s, a));
    } else {
      EditUnknown(s, a, now);
      OnlyNumbers(s, s);
    }
  }

  // ----- Whole runs -------------------------------------------------------------------------------

  /**
   * The call files the artifact and the version it built, and no context that cannot be filed. Any
   * call without an artifact, a version or a context in its extra payload does.
   */
  predicate FilesOwnPair(s: Store, call: Call) {
    !Fatal(s, call) && (call.UpdateCall? && Appends(s, call.updateArgs) ==> BuiltPair(s, call.updateArgs, call.now))
  }

  predicate FilesOwnPairs(s: Store, calls: seq<Call>)
    decreases |calls|
  {
    calls == [] || (FilesOwnPair(s, calls[0]) && FilesOwnPairs(Step(s, calls[0]).0, calls[1..]))
  }

  lemma {:induction false} PlainPayloads(s: Store, calls: seq<Call>)
    requires forall i :: 0 <= i < |calls| ==>
               (calls[i].UpdateCall? ==> KeepsArtifact(calls[i].updateArgs.extraPayload))
               && (calls[i].EditCall? ==> KContext !in calls[i].editArgs.extraPayload)
    ensures FilesOwnPairs(s, calls)
    decreases |calls|
  {
    if calls != [] {
      PlainPayloads(Step(s, calls[0]).0, calls[1..]);
    }
  }

  lemma StepKeeps(s: Store, call: Call)
    requires Inv(s) && FilesOwnPair(s, call)
    ensures Inv(Step(s, call).0) && Extends(s, Step(s, call).0)
    ensures Step(s, call).1.Raised? ==> Step(s, call).1.error != ProjectionFailed
  {
    match call
    case CreateCall(a, now) => CreateKeeps(s, a, now);
    case UpdateCall(a, now) => UpdateKeeps(s, a, now);
    case AddCall(a, now) => AddKeeps(s, a, now);
    case ClassifyCall(a, now) => ClassifyKeeps(s, a, now);
    case EditCall(a, now) => EditKeeps(s, a, now);
  }

  lemma ExtendsTransitive(s: Store, t: Store, u: Store)
    requires Extends(s, t) && Extends(t, u)
    ensures Extends(s, u)
  {
  }

  lemma ExtendsItself(s: Store)
    ensures Extends(s, s)
  {
  }

  /**
   * Over every run that files the pairs its calls built, with any clock: each artifact's versions form
   * one linked chain that only grows at its end, each version is carried by its source event, its
   * file exists, and identity fields stay put.
   */
  lemma {:induction false} ChainsOverRuns(s: Store, calls: seq<Call>)
    requires Inv(s) && FilesOwnPairs(s, calls)
    ensures Inv(Run(s, calls).0) && Extends(s, Run(s, calls).0)
    decreases |calls|
  {
    if calls == [] {
      ExtendsItself(s);
    } else {
      var next := Step(s, calls[0]).0;
      StepKeeps(s, calls[0]);
      ChainsOverRuns(next, calls[1..]);
      assert Run(s, calls).0 == Run(next, calls[1..]).0;
      ExtendsTransitive(s, next, Run(s, calls).0);
    }
  }

  // ----- When the clock never runs backwards --------------------------------------------------------

  ghost predicate ClockForward(calls: seq<Call>, time: nat) {
    calls != [] ==> time <= calls[0].now && ClockForward(calls[1..], calls[0].now)
  }

  ghost function EndTime(calls: seq<Call>, time: nat): nat {
    if calls == [] then time else EndTime(calls[1..], calls[0].now)
  }

  /** Every version list is ordered by time, and nothing in it is later than `time`. */
  ghost predicate Timely(versions: map<string, seq<Version>>, time: nat) {
    forall id :: id in versions ==>
      OldestFirst(versions[id]) && (versions[id] != [] ==> versions[id][|versions[id]| - 1].createdAt <= time)
  }

  lemma TimelyAppend(index: Index, a: Artifact, v: Version, time: nat)
    requires Timely(index.versions, time) && time <= v.createdAt
    ensures Timely(WithArtifact(index, a, v).versions, v.createdAt)
  {
    var vs := if v.artifactId in index.versions then index.versions[v.artifactId] else [];
    assert OldestFirst(vs + [v]);
  }

  lemma CreateTimely(s: Store, a: CreateArgs, now: nat, time: nat)
    requires Consistent(s) && Timely(s.index.versions, time) && time <= now
    ensures Timely(CreateArtifact(s, a, now).0.index.versions, now)
  {
    if Body(a.content).Some? {
      CreateWrites(s, a, now);
      TimelyAppend(s.index, NewArtifact(a, s.chronicleId.value, s.nextId, now), FirstVersion(a, s.nextId, now), time);
    }
  }

  lemma UpdateTimely(s: Store, a: UpdateArgs, now: nat, time: nat)
    requires Consistent(s) && (Appends(s, a) ==> BuiltPair(s, a, now))
    requires Timely(s.index.versions, time) && time <= now
    ensures Timely(UpdateArtifact(s, a, now).0.index.versions, now)
  {
    if Appends(s, a) {
      var current := s.index.artifacts[a.artifactId];
      assert current.artifactId == a.artifactId by {
        IndexOwnIds(s.log);
      }
      UpdateWrites(s, a, now);
      TimelyAppend(s.index, UpdatedArtifact(current, a, s.nextId, now), NextVersion(current, a, s.nextId, now), time);
    }
  }

  lemma StepTimely(s: Store, call: Call, time: nat)
    requires Consistent(s) && FilesOwnPair(s, call) && Timely(s.index.versions, time) && time <= call.now
    ensures Timely(Step(s, call).0.index.versions, call.now)
  {
    match call
    case CreateCall(a, now) => CreateTimely(s, a, now, time);
    case UpdateCall(a, now) => UpdateTimely(s, a, now, time);
    case AddCall(a, now) => AddConsistency(s, a, now);
    case ClassifyCall(a, now) => ContextsOnly(s, call);
    case EditCall(a, now) => ContextsOnly(s, call);
  }

  lemma ContextsOnly(s: Store, call: Call)
    requires Consistent(s) && !Fatal(s, call) && (call.ClassifyCall? || call.EditCall?)
    ensures Step(s, call).0.index.versions == s.index.versions
  {
    match call
    case ClassifyCall(a, now) =>
      ClassifyMeans(s, a, now);
      if a.contextId in s.index.contexts {
        var c := Classified(s.index.contexts[a.contextId], a, now);
        SnapshotWrites(s, ClassifyDraft(c), c, now);
      }
    case EditCall(a, now) =>
      if a.contextId in s.index.contexts {
        EditWrites(s, a, now);
      } else {
        EditUnknown(s, a, now);
      }
  }

  /** With a clock that never runs backwards, `history` returns each artifact's whole chain as it was linked. */
  lemma {:induction false} HistoryIsTheChain(s: Store, calls: seq<Call>, time: nat, id: string)
    requires Inv(s) && Timely(s.index.versions, time) && ClockForward(calls, time) && FilesOwnPairs(s, calls)
    ensures var end := Run(s, calls).0;
            id in end.index.artifacts ==>
              id in end.index.versions && Linked(end.index.artifacts[id], end.index.versions[id])
              && History(end, id) == Success((end.index.artifacts[id], end.index.versions[id]))
    decreases |calls|
  {
    if calls == [] {
      if id in s.index.artifacts {
        assert ChainAt(s, id);
        HistoryInOrder(s.index.versions[id]);
      }
    } else {
      StepKeeps(s, calls[0]);
      StepTimely(s, calls[0], time);
      HistoryIsTheChain(Step(s, calls[0]).0, calls[1..], calls[0].now, id);
    }
  }

  /** A freshly initialized chronicle is such a state. */
  lemma InitialInv(title: string, now: nat)
    ensures Inv(Initialized(EMPTY_STORE, title, now))
    ensures Timely(Initialized(EMPTY_STORE, title, now).index.versions, now)
  {
    var s := Initialized(EMPTY_STORE, title, now);
    InitializedConsistent(title, now);
    assert s.log == [FirstEvent(title, 0, now)] && s.nextId == 2;
    assert s.log[0].eventId == FreshId(EventId, 1);
    PastAfter(EventId, 1, 2);
  }

  // ----- What one call leaves behind --------------------------------------------------------------

  /** Index and files after writing artifact and version: both entries, both files, nothing else. */
  ghost predicate OnlyWrote(s: Store, t: Store, artifact: Artifact, version: Version, body: string) {
    var id := artifact.artifactId;
    && t.index.artifacts == s.index.artifacts[id := artifact]
    && t.index.versions
       == s.index.versions[id := (if id in s.index.versions then s.index.versions[id] else []) + [version]]
    && t.index.contexts == s.index.contexts && t.index.decisions == s.index.decisions && t.index.rules == s.index.rules
    && t.versionFiles == s.versionFiles[(id, version.versionId) := body] && t.currentFiles == s.currentFiles[id := body]
    && |t.log| == |s.log| + 1 && t.log[|s.log|].artifactId == Some(id)
    && t.log[|s.log|].eventId == version.sourceEventId
  }

  /** `create` makes a new artifact as asked for, with its only version. */
  lemma CreateEffect(s: Store, a: CreateArgs, now: nat)
    requires Consistent(s) && IdsPast(s) && Body(a.content).Some?
    ensures var r := CreateArtifact(s, a, now);
            r.1.Success? && var artifact, version := r.1.value.0, r.1.value.1;
            OnlyWrote(s, r.0, artifact, version, Body(a.content).value)
            && artifact.artifactId !in s.index.artifacts && r.0.log[|s.log|].eventType == ArtifactCreated
            && artifact.title == a.title && artifact.artifactType == a.artifactType && artifact.tags == a.tags
            && artifact.visibilityHint == a.visibilityHint && artifact.source == a.source
            && artifact.chronicleId == s.chronicleId.value && artifact.status == "draft"
            && artifact.createdAt == artifact.updatedAt == version.createdAt == now
            && artifact.currentVersionId == version.versionId && version.parentVersionId == None
            && version.changeSummary == "created"
            && artifact.path == "artifacts/" + artifact.artifactId + "/current.md"
            && version.path == "artifacts/" + artifact.artifactId + "/versions/" + version.versionId + ".md"
            && r.0.log[|s.log|].actor == a.actor && r.0.log[|s.log|].summary == "Artifact created: " + a.title
            && r.0.log[|s.log|].timestamp == now
  {
    CreateWrites(s, a, now);
    NotYetFiled(s, NewArtifact(a, s.chronicleId.value, s.nextId, now).artifactId);
  }

  /**
   * `update` puts one more version on top of the current one; of the artifact only title, version and
   * time move. This is so when the extra payload, if it has a pair, has the pair the call built.
   */
  lemma UpdateEffect(s: Store, a: UpdateArgs, now: nat)
    requires Consistent(s) && Appends(s, a) && BuiltPair(s, a, now)
    ensures var r, before := UpdateArtifact(s, a, now), s.index.artifacts[a.artifactId];
            r.1.Success? && var artifact, version := r.1.value.0, r.1.value.1;
            OnlyWrote(s, r.0, artifact, version, Body(a.content).value)
            && artifact.artifactId == a.artifactId && SameIdentity(before, artifact)
            && r.0.log[|s.log|].eventType == ArtifactVersioned
            && version.parentVersionId == Some(before.currentVersionId)
            && artifact.currentVersionId == version.versionId
            && artifact.updatedAt == version.createdAt == now
            && version.changeSummary == (if a.summary != "" then a.summary else "updated")
            && version.path == "artifacts/" + a.artifactId + "/versions/" + version.versionId + ".md"
            && r.0.log[|s.log|].actor == a.actor && r.0.log[|s.log|].summary == "Artifact updated: " + before.title
            && r.0.log[|s.log|].timestamp == now && r.0.log[|s.log|].source == a.source
            && artifact.title == (if a.title.None? || Blank(a.title.value) then before.title else a.title.value)
  {
    assert s.index.artifacts[a.artifactId].artifactId == a.artifactId by {
      IndexOwnIds(s.log);
    }
    UpdateWrites(s, a, now);
  }

  // ----- What the files hold --------------------------------------------------------------------------

  /** The files after writing this text for a version: the version's, the current one, and no other. */
  ghost predicate Holding(s: Store, t: Store, artifactId: string, versionId: string, text: string) {
    && t.versionFiles == s.versionFiles[(artifactId, versionId) := text]
    && t.currentFiles == s.currentFiles[artifactId := text]
  }

  ghost predicate NothingWritten(s: Store, t: Store) {
    t.log == s.log && t.index == s.index && t.versionFiles == s.versionFiles && t.currentFiles == s.currentFiles
  }

  /** The text a call gives: its own, that of its file, or the empty one. */
  ghost predicate Gives(content: Content, text: string) {
    content == Inline(text) || content == FromFile(Some(text)) || (content == NoContent && text == "")
  }

  lemma FinishedKeepsFiles<T>(s: Store, e: ChronicleEvent, r: T)
    ensures var t := Finished(s, e, r).0; t.versionFiles == s.versionFiles && t.currentFiles == s.currentFiles
    ensures Finished(s, e, r).1.Success? ==> Finished(s, e, r).1.value == r
  {
  }

  lemma CreateIsFinished(s: Store, a: CreateArgs, now: nat, text: string)
    requires s.chronicleId.Some? && Gives(a.content, text)
    ensures var artifact, version := NewArtifact(a, s.chronicleId.value, s.nextId, now), FirstVersion(a, s.nextId, now);
            var written := WithFiles(s.(nextId := s.nextId + 3), artifact.artifactId, version.versionId, text);
            CreateArtifact(s, a, now) == Finished(written, CreatedEvent(a, artifact, version, now), (artifact, version))
  {
  }

  /** `create` writes the text it is given into both files. */
  lemma CreateWritesContent(s: Store, a: CreateArgs, now: nat, text: string)
    requires s.chronicleId.Some? && Gives(a.content, text)
    ensures var (t, r) := CreateArtifact(s, a, now);
            var id, versionId := FreshId(ArtifactId, s.nextId), FreshId(VersionId, s.nextId + 1);
            Holding(s, t, id, versionId, text)
            && (r.Success? ==> r.value.0.artifactId == id == r.value.1.artifactId && r.value.1.versionId == versionId)
  {
    CreateIsFinished(s, a, now, text);
    var artifact, version := NewArtifact(a, s.chronicleId.value, s.nextId, now), FirstVersion(a, s.nextId, now);
    var written := WithFiles(s.(nextId := s.nextId + 3), artifact.artifactId, version.versionId, text);
    FinishedKeepsFiles(written, CreatedEvent(a, artifact, version, now), (artifact, version));
  }

  /** A given file that does not exist fails the call before anything is written. */
  lemma MissingFileWritesNothing(s: Store, c: CreateArgs, u: UpdateArgs, now: nat)
    requires s.chronicleId.Some? && u.artifactId in s.index.artifacts
    ensures c.content == FromFile(None) ==>
              var (t, r) := CreateArtifact(s, c, now); NothingWritten(s, t) && r == Failure(SourceFileNotFound)
    ensures u.content == FromFile(None) ==>
              var (t, r) := UpdateArtifact(s, u, now); NothingWritten(s, t) && r == Failure(SourceFileNotFound)
    ensures u.content == NoContent ==> UpdateArtifact(s, u, now) == (s, Failure(ContentMissing))
  {
  }

  lemma UpdateIsFinished(s: Store, a: UpdateArgs, now: nat, text: string)
    requires s.chronicleId.Some? && a.artifactId in s.index.artifacts
    requires a.content != NoContent && Gives(a.content, text)
    ensures var current := s.index.artifacts[a.artifactId];
            var artifact, version := UpdatedArtifact(current, a, s.nextId, now), NextVersion(current, a, s.nextId, now);
            var written := WithFiles(s.(nextId := s.nextId + 2), a.artifactId, version.versionId, text);
            UpdateArtifact(s, a, now) == Finished(written, UpdateEvent(s, a, now), (artifact, version))
  {
  }

  /** `update` does the same for a known artifact. */
  lemma UpdateWritesContent(s: Store, a: UpdateArgs, now: nat, text: string)
    requires s.chronicleId.Some? && a.artifactId in s.index.artifacts
    requires a.content != NoContent && Gives(a.content, text)
    ensures var (t, r) := UpdateArtifact(s, a, now);
            var versionId := FreshId(VersionId, s.nextId);
            Holding(s, t, a.artifactId, versionId, text)
            && (r.Success? ==> r.value.1.artifactId == a.artifactId && r.value.1.versionId == versionId)
  {
    UpdateIsFinished(s, a, now, text);
    var current := s.index.artifacts[a.artifactId];
    var artifact, version := UpdatedArtifact(current, a, s.nextId, now), NextVersion(current, a, s.nextId, now);
    var written := WithFiles(s.(nextId := s.nextId + 2), a.artifactId, version.versionId, text);
    FinishedKeepsFiles(written, UpdateEvent(s, a, now), (artifact, version));
  }

  // ----- Who made a version -----------------------------------------------------------------------

  ghost predicate NamesActor(name: string, a: Actor) {
    match a
    case User => name == "user"
    case Assistant => name == "assistant"
    case System => name == "system"
    case Tool => name == "tool"
    case Reviewer => name == "reviewer"
    case Importer => name == "importer"
  }

  /** The version of a call names its actor, and the event that the call appends. */
  ghost predicate MadeBy(s: Store, t: Store, v: Version, a: Actor) {
    NamesActor(v.createdBy, a) && |t.log| == |s.log| + 1 && v.sourceEventId == t.log[|s.log|].eventId
  }

  lemma FinishedAppends<T>(s: Store, e: ChronicleEvent, r: T)
    ensures Finished(s, e, r).0.log == s.log + [e]
  {
  }

  lemma CreateNamesAuthor(s: Store, a: CreateArgs, now: nat)
    requires CreateArtifact(s, a, now).1.Success?
    ensures var r := CreateArtifact(s, a, now); MadeBy(s, r.0, r.1.value.1, a.actor)
  {
    var artifact, version := NewArtifact(a, s.chronicleId.value, s.nextId, now), FirstVersion(a, s.nextId, now);
    var text := Body(a.content).value;
    CreateIsFinished(s, a, now, text);
    var written := WithFiles(s.(nextId := s.nextId + 3), artifact.artifactId, version.versionId, text);
    var e := CreatedEvent(a, artifact, version, now);
    FinishedAppends(written, e, (artifact, version));
    FinishedKeepsFiles(written, e, (artifact, version));
  }

  lemma UpdateNamesAuthor(s: Store, a: UpdateArgs, now: nat)
    requires UpdateArtifact(s, a, now).1.Success?
    ensures var r := UpdateArtifact(s, a, now); MadeBy(s, r.0, r.1.value.1, a.actor)
  {
    var current := s.index.artifacts[a.artifactId];
    var artifact, version := UpdatedArtifact(current, a, s.nextId, now), NextVersion(current, a, s.nextId, now);
    var text := Body(a.content).value;
    UpdateIsFinished(s, a, now, text);
    var written := WithFiles(s.(nextId := s.nextId + 2), a.artifactId, version.versionId, text);
    FinishedAppends(written, UpdateEvent(s, a, now), (artifact, version));
    FinishedKeepsFiles(written, UpdateEvent(s, a, now), (artifact, version));
  }

  /** What an event of the two calls leaves open. */
  ghost predicate OnlyOfArtifact(e: ChronicleEvent, artifactId: string) {
    e.artifactId == Some(artifactId) && e.parentEventId == None && e.contextIds == [] && e.decisionId == None
    && e.rdeRecordId == None && e.reviewStatus == None && e.tags == []
  }

  /** Both calls record the artifact and the version and, on an update, what the caller adds. */
  lemma PairRecorded(create: CreateArgs, update: UpdateArgs, current: Artifact, chronicleId: string, n: nat, now: nat)
    ensures var a, v := NewArtifact(create, chronicleId, n, now), FirstVersion(create, n, now);
            var e := CreatedEvent(create, a, v, now);
            e.payload.Keys == {KArtifact, KVersion} && CarriedPair(e) == Some((a, v)) && e.source == None
            && OnlyOfArtifact(e, FreshId(ArtifactId, n))
    ensures var a, v := UpdatedArtifact(current, update, n, now), NextVersion(current, update, n, now);
            var e := UpdatedEvent(current, update, a, v, chronicleId, now);
            e.payload.Keys == {KArtifact, KVersion} + update.extraPayload.Keys
            && (update.extraPayload == map[] ==> CarriedPair(e) == Some((a, v)))
            && OnlyOfArtifact(e, update.artifactId)
  {
    var a, v := NewArtifact(create, chronicleId, n, now), FirstVersion(create, n, now);
    CarriedDumps(CreatedEvent(create, a, v, now), a, v);
    var b, w := UpdatedArtifact(current, update, n, now), NextVersion(current, update, n, now);
    if update.extraPayload == map[] {
      CarriedDumps(UpdatedEvent(current, update, b, w, chronicleId, now), b, w);
    }
  }
}
