/** Creating, updating and reading back versioned artifacts. */
module ArtifactServices {
  import opened Wrappers
  import opened Sequences
  import opened Ordering
  import opened Records
  import opened Ids
  import opened IndexProjection
  import opened ChronicleStore

  /** Where the content comes from; a file may turn out not to exist. */
  datatype Content = NoContent | Inline(text: string) | FromFile(read: Option<string>)

  datatype CreateArgs = CreateArgs(
    title: string, artifactType: string, content: Content, tags: seq<string>, visibilityHint: string,
    source: Option<Source>, actor: Actor)

  datatype UpdateArgs = UpdateArgs(
    artifactId: string, content: Content, summary: string, title: Option<string>, actor: Actor,
    extraPayload: Fields, source: Option<Source>)

  function ActorName(a: Actor): string {
    match a
    case User => "user"
    case Assistant => "assistant"
    case System => "system"
    case Tool => "tool"
    case Reviewer => "reviewer"
    case Importer => "importer"
  }

  /** Characters removed by `str.strip`. */
  predicate IsSpace(c: char) {
    var n := c as int;
    9 <= n <= 13 || 28 <= n <= 32 || n == 0x85 || n == 0xA0 || n == 0x1680 || 0x2000 <= n <= 0x200A
    || n == 0x2028 || n == 0x2029 || n == 0x202F || n == 0x205F || n == 0x3000
  }

  predicate Blank(s: string) {
    forall i :: 0 <= i < |s| ==> IsSpace(s[i])
  }

  /** `str.strip`. */
  function Stripped(s: string): string {
    if s != "" && IsSpace(s[0]) then Stripped(s[1..])
    else if s != "" && IsSpace(s[|s| - 1]) then Stripped(s[..|s| - 1])
    else s
  }

  /** A title that strips to nothing is blank. */
  lemma {:induction false} BlankMeans(s: string)
    ensures Blank(s) <==> Stripped(s) == ""
  {
    if s != "" {
      BlankMeans(s[1..]);
      BlankMeans(s[..|s| - 1]);
      if IsSpace(s[0]) {
        assert Blank(s) <==> Blank(s[1..]) by {
          assert forall i :: 0 < i < |s| ==> s[1..][i - 1] == s[i];
        }
      } else if IsSpace(s[|s| - 1]) {
        assert !Blank(s);
        assert s[..|s| - 1] != "" && s[..|s| - 1][0] == s[0];
      }
    }
  }

  function Body(c: Content): Option<string> {
    match c
    case NoContent => Some("")
    case Inline(text) => Some(text)
    case FromFile(read) => read
  }

  function VersionPath(artifactId: string, versionId: string): string {
    "artifacts/" + artifactId + "/versions/" + versionId + ".md"
  }

  function WithFiles(s: Store, artifactId: string, versionId: string, body: string): Store {
    s.(versionFiles := s.versionFiles[(artifactId, versionId) := body],
       currentFiles := s.currentFiles[artifactId := body])
  }

  /** The last steps of both operations: append the event, rebuild, return or raise. */
  function Finished<T>(s: Store, e: ChronicleEvent, r: T): (Store, Result<T, ServiceError>) {
    var appended := Appended(s, e);
    (Rebuilt(appended), if Project(appended.log).Some? then Success(r) else Failure(ProjectionFailed))
  }

  // ----- create -----------------------------------------------------------------------------

  function NewArtifact(a: CreateArgs, chronicleId: string, n: nat, now: nat): Artifact {
    var artifactId, versionId := FreshId(ArtifactId, n), FreshId(VersionId, n + 1);
    Artifact(artifactId, chronicleId, a.title, a.artifactType, versionId, now, now, "draft",
             "artifacts/" + artifactId + "/current.md", a.visibilityHint, None, a.source, a.tags)
  }

  function FirstVersion(a: CreateArgs, n: nat, now: nat): Version {
    var artifactId, versionId := FreshId(ArtifactId, n), FreshId(VersionId, n + 1);
    Version(versionId, artifactId, now, ActorName(a.actor), FreshId(EventId, n + 2), None,
            VersionPath(artifactId, versionId), "created")
  }

  function CreatedEvent(a: CreateArgs, artifact: Artifact, version: Version, now: nat): ChronicleEvent {
    var d := PlainDraft(ArtifactCreated, a.actor, "Artifact created: " + a.title,
                        map[KArtifact := Dict(DumpArtifact(artifact)), KVersion := Dict(DumpVersion(version))]);
    Stamp(d.(artifactId := Some(artifact.artifactId)), version.sourceEventId, artifact.chronicleId, now)
  }

  function CreateArtifact(s: Store, a: CreateArgs, now: nat): (Store, Result<(Artifact, Version), ServiceError>) {
    if s.chronicleId.None? then (s, Failure(NotInitialized))
    else
      var artifact := NewArtifact(a, s.chronicleId.value, s.nextId, now);
      var version := FirstVersion(a, s.nextId, now);
      var numbered := s.(nextId := s.nextId + 3);
      var body := Body(a.content);
      if body.None? then (numbered, Failure(SourceFileNotFound))
      else
        Finished(WithFiles(numbered, artifact.artifactId, version.versionId, body.value),
                 CreatedEvent(a, artifact, version, now), (artifact, version))
  }

  // ----- update -----------------------------------------------------------------------------

  function NextVersion(current: Artifact, a: UpdateArgs, n: nat, now: nat): Version {
    var versionId := FreshId(VersionId, n);
    Version(versionId, a.artifactId, now, ActorName(a.actor), FreshId(EventId, n + 1),
            Some(current.currentVersionId), VersionPath(a.artifactId, versionId),
            if a.summary != "" then a.summary else "updated")
  }

  function UpdatedArtifact(current: Artifact, a: UpdateArgs, n: nat, now: nat): Artifact {
    var moved := current.(currentVersionId := FreshId(VersionId, n), updatedAt := now);
    if a.title.Some? && !Blank(a.title.value) then moved.(title := a.title.value) else moved
  }

  /** The caller's extra payload is merged last: it may overwrite the artifact and the version. */
  function UpdatePayload(artifact: Artifact, version: Version, extra: Fields): Fields {
    map[KArtifact := Dict(DumpArtifact(artifact)), KVersion := Dict(DumpVersion(version))] + extra
  }

  function UpdatedEvent(current: Artifact, a: UpdateArgs, artifact: Artifact, version: Version, chronicleId: string,
                        now: nat): ChronicleEvent
  {
    var d := PlainDraft(ArtifactVersioned, a.actor, "Artifact updated: " + current.title,
                        UpdatePayload(artifact, version, a.extraPayload));
    Stamp(d.(artifactId := Some(a.artifactId), source := a.source), version.sourceEventId, chronicleId, now)
  }

  function UpdateArtifact(s: Store, a: UpdateArgs, now: nat): (Store, Result<(Artifact, Version), ServiceError>) {
    if a.content.NoContent? then (s, Failure(ContentMissing))
    else if s.chronicleId.None? then (s, Failure(NotInitialized))
    else if a.artifactId !in s.index.artifacts then (s, Failure(ArtifactNotFound(a.artifactId)))
    else
      var current := s.index.artifacts[a.artifactId];
      var artifact := UpdatedArtifact(current, a, s.nextId, now);
      var version := NextVersion(current, a, s.nextId, now);
      var numbered := s.(nextId := s.nextId + 2);
      var body := Body(a.content);
      if body.None? then (numbered, Failure(SourceFileNotFound))
      else
        Finished(WithFiles(numbered, a.artifactId, version.versionId, body.value),
                 UpdatedEvent(current, a, artifact, version, s.chronicleId.value, now), (artifact, version))
  }

  // ----- history ----------------------------------------------------------------------------

  /** A time as a sort key: so many strokes, which compare as the numbers do. */
  function Strokes(n: nat): string {
    if n == 0 then "" else "|" + Strokes(n - 1)
  }

  lemma {:induction false} StrokesOrder(m: nat, n: nat)
    ensures StringLeq(Strokes(m), Strokes(n)) <==> m <= n
    ensures Strokes(m) == Strokes(n) <==> m == n
  {
    if m > 0 && n > 0 {
      StrokesOrder(m - 1, n - 1);
      assert Strokes(m)[1..] == Strokes(m - 1) && Strokes(n)[1..] == Strokes(n - 1);
    }
  }

  function TimeKey(v: Version): seq<string> {
    [Strokes(v.createdAt)]
  }

  lemma TimeKeyOrder(v: Version, w: Version)
    ensures TupleLeq(TimeKey(v), TimeKey(w)) <==> v.createdAt <= w.createdAt
    ensures TimeKey(v) == TimeKey(w) <==> v.createdAt == w.createdAt
  {
    StrokesOrder(v.createdAt, w.createdAt);
    StringLeqTotal(Strokes(v.createdAt), Strokes(w.createdAt));
    assert TimeKey(v) == TimeKey(w) <==> TimeKey(v)[0] == TimeKey(w)[0];
  }

  /** `versions.sort(key=created_at)`. */
  function SortByTime(vs: seq<Version>): seq<Version> {
    Sort(TimeKey, vs)
  }

  ghost predicate OldestFirst(vs: seq<Version>) {
    forall i :: 0 < i < |vs| ==> vs[i - 1].createdAt <= vs[i].createdAt
  }

  function CreatedAt(time: nat): Version -> bool {
    (v: Version) => v.createdAt == time
  }

  lemma {:induction false} OrderedThroughout(vs: seq<Version>, i: nat, j: nat)
    requires OldestFirst(vs) && i <= j < |vs|
    ensures vs[i].createdAt <= vs[j].createdAt
  {
    if i < j {
      OrderedThroughout(vs, i, j - 1);
    }
  }

  lemma OldestFirstIsSorted(vs: seq<Version>)
    ensures OldestFirst(vs) <==> Sorted(TimeKey, vs)
  {
    forall i, j | 0 <= i < j < |vs|
      ensures TupleLeq(TimeKey(vs[i]), TimeKey(vs[j])) <==> vs[i].createdAt <= vs[j].createdAt
    {
      TimeKeyOrder(vs[i], vs[j]);
    }
    if OldestFirst(vs) {
      forall i, j | 0 <= i < j < |vs| ensures vs[i].createdAt <= vs[j].createdAt {
        OrderedThroughout(vs, i, j);
      }
    }
  }

  lemma {:induction false} SameTimesSameKeys(vs: seq<Version>, time: nat)
    ensures Filter(CreatedAt(time), vs) == Filter(AtKey(TimeKey, [Strokes(time)]), vs)
  {
    if vs != [] {
      SameTimesSameKeys(vs[1..], time);
      StrokesOrder(vs[0].createdAt, time);
      assert TimeKey(vs[0]) == [Strokes(time)] <==> TimeKey(vs[0])[0] == Strokes(time);
    }
  }

  /**
   * Whatever the clock did, sorting a history keeps every version, puts the oldest first and leaves
   * versions of the same time in their order. It changes nothing exactly when times never decrease.
   */
  lemma HistoryInOrder(vs: seq<Version>)
    ensures Permutes(SortByTime(vs), vs) && OldestFirst(SortByTime(vs))
    ensures forall time :: Filter(CreatedAt(time), SortByTime(vs)) == Filter(CreatedAt(time), vs)
    ensures SortByTime(vs) == vs <==> OldestFirst(vs)
  {
    SortSorted(TimeKey, vs);
    OldestFirstIsSorted(SortByTime(vs));
    forall time: nat | true ensures Filter(CreatedAt(time), SortByTime(vs)) == Filter(CreatedAt(time), vs) {
      SortStable(TimeKey, vs, [Strokes(time)]);
      SameTimesSameKeys(vs, time);
      SameTimesSameKeys(SortByTime(vs), time);
    }
    if OldestFirst(vs) {
      OldestFirstIsSorted(vs);
      SortedStays(TimeKey, vs);
    }
  }

  function History(s: Store, artifactId: string): Result<(Artifact, seq<Version>), ServiceError> {
    if artifactId !in s.index.artifacts then Failure(ArtifactNotFound(artifactId))
    else
      var vs := if artifactId in s.index.versions then s.index.versions[artifactId] else [];
      Success((s.index.artifacts[artifactId], SortByTime(vs)))
  }

  // ----- The service ------------------------------------------------------------------------

  class ArtifactService {
    const chronicle: ChronicleService

    constructor (chronicle: ChronicleService)
      ensures this.chronicle == chronicle
    {
      this.chronicle := chronicle;
    }

    method WriteFiles(artifactId: string, versionId: string, body: string)
      modifies chronicle`versionFiles, chronicle`currentFiles
      ensures chronicle.State() == WithFiles(old(chronicle.State()), artifactId, versionId, body)
    {
      chronicle.currentFiles := chronicle.currentFiles[artifactId := body];
      chronicle.versionFiles := chronicle.versionFiles[(artifactId, versionId) := body];
    }

    method Create(a: CreateArgs, now: nat) returns (r: Result<(Artifact, Version), ServiceError>)
      modifies chronicle
      ensures (chronicle.State(), r) == CreateArtifact(old(chronicle.State()), a, now)
    {
      if chronicle.chronicleId.None? {
        return Failure(NotInitialized);
      }
      var n := chronicle.nextId;
      var artifactId := chronicle.GenerateId(ArtifactId);
      var versionId := chronicle.GenerateId(VersionId);
      var eventId := chronicle.GenerateId(EventId);
      var artifact := NewArtifact(a, chronicle.chronicleId.value, n, now);
      var version := FirstVersion(a, n, now);
      var body := Body(a.content);
      if body.None? {
        return Failure(SourceFileNotFound);
      }
      WriteFiles(artifactId, versionId, body.value);
      var e := CreatedEvent(a, artifact, version, now);
      ghost var before := chronicle.State();
      assert before == WithFiles(old(chronicle.State()).(nextId := n + 3), artifact.artifactId, version.versionId,
                                 body.value);
      chronicle.AppendEvent(e);
      var ok := chronicle.RebuildIndexes();
      assert chronicle.State() == Finished(before, e, (artifact, version)).0;
      r := if ok then Success((artifact, version)) else Failure(ProjectionFailed);
    }

    method Update(a: UpdateArgs, now: nat) returns (r: Result<(Artifact, Version), ServiceError>)
      modifies chronicle
      ensures (chronicle.State(), r) == UpdateArtifact(old(chronicle.State()), a, now)
    {
      if a.content.NoContent? {
        return Failure(ContentMissing);
      }
      if chronicle.chronicleId.None? {
        return Failure(NotInitialized);
      }
      if a.artifactId !in chronicle.index.artifacts {
        return Failure(ArtifactNotFound(a.artifactId));
      }
      var current := chronicle.index.artifacts[a.artifactId];
      var n := chronicle.nextId;
      var versionId := chronicle.GenerateId(VersionId);
      var eventId := chronicle.GenerateId(EventId);
      var artifact := UpdatedArtifact(current, a, n, now);
      var version := NextVersion(current, a, n, now);
      var body := Body(a.content);
      if body.None? {
        return Failure(SourceFileNotFound);
      }
      WriteFiles(a.artifactId, versionId, body.value);
      var e := UpdatedEvent(current, a, artifact, version, chronicle.chronicleId.value, now);
      ghost var before := chronicle.State();
      assert before == WithFiles(old(chronicle.State()).(nextId := n + 2), a.artifactId, version.versionId, body.value);
      chronicle.AppendEvent(e);
      var ok := chronicle.RebuildIndexes();
      assert chronicle.State() == Finished(before, e, (artifact, version)).0;
      r := if ok then Success((artifact, version)) else Failure(ProjectionFailed);
    }

    /** `versions.sort(key=created_at)`, then both are returned. */
    method ReadHistory(artifactId: string) returns (r: Result<(Artifact, seq<Version>), ServiceError>)
      ensures r == History(chronicle.State(), artifactId)
    {
      if artifactId !in chronicle.index.artifacts {
        return Failure(ArtifactNotFound(artifactId));
      }
      var versions := if artifactId in chronicle.index.versions then chronicle.index.versions[artifactId] else [];
      versions := SortByTime(versions);
      r := Success((chronicle.index.artifacts[artifactId], versions));
    }
  }
}
