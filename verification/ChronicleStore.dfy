/** The event log with its stored index: what the core service records, appends and rebuilds. */
module ChronicleStore {
  import opened Wrappers
  import opened Records
  import opened Ids
  import opened IndexProjection

  datatype ServiceError =
    | NotInitialized
    | ProjectionFailed
    | SourceFileNotFound
    | ContentMissing
    | ArtifactNotFound(artifactId: string)
    | ContextNotFound(contextId: string)
    | RdeVersionNotFound(versionId: string)

  /**
   * Everything on disk: the log, the stored index, the artifact files, and the number of the
   * next generated id. Without a chronicle id the chronicle is not initialized.
   */
  datatype Store = Store(
    chronicleId: Option<string>, log: seq<ChronicleEvent>, index: Index, nextId: nat,
    versionFiles: map<(string, string), string>, currentFiles: map<string, string>)

  const EMPTY_STORE := Store(None, [], EMPTY, 0, map[], map[])

  /** An event before it gets its id, chronicle and time. */
  datatype Draft = Draft(
    eventType: EventType, actor: Actor, summary: string, payload: Fields, parentEventId: Option<string>,
    artifactId: Option<string>, contextIds: seq<string>, decisionId: Option<string>,
    rdeRecordId: Option<string>, source: Option<Source>, reviewStatus: Option<ReviewStatus>, tags: seq<string>)

  function PlainDraft(eventType: EventType, actor: Actor, summary: string, payload: Fields): Draft {
    Draft(eventType, actor, summary, payload, None, None, [], None, None, None, None, [])
  }

  function Stamp(d: Draft, eventId: string, chronicleId: string, now: nat): ChronicleEvent {
    ChronicleEvent(eventId, chronicleId, now, d.eventType, d.actor, d.summary, d.payload, d.parentEventId,
                   d.artifactId, d.contextIds, d.decisionId, d.rdeRecordId, d.source, d.reviewStatus, d.tags)
  }

  // ----- The effect of each operation ------------------------------------------------------

  function Appended(s: Store, e: ChronicleEvent): Store {
    s.(log := s.log + [e])
  }

  function Recorded(s: Store, d: Draft, now: nat): (Store, Result<ChronicleEvent, ServiceError>) {
    if s.chronicleId.None? then (s, Failure(NotInitialized))
    else
      var e := Stamp(d, FreshId(EventId, s.nextId), s.chronicleId.value, now);
      (Appended(s, e).(nextId := s.nextId + 1), Success(e))
  }

  /** Rebuilding stores the projection of the whole log, or raises and stores nothing. */
  function Rebuilt(s: Store): Store {
    if Project(s.log).Some? then s.(index := Project(s.log).value) else s
  }

  function FirstEvent(title: string, n: nat, now: nat): ChronicleEvent {
    Stamp(PlainDraft(ChronicleCreated, User, title + " created", map[KTitle := Str(title)]),
          FreshId(EventId, n + 1), FreshId(ChronicleId, n), now)
  }

  function Initialized(s: Store, title: string, now: nat): Store {
    var started := s.(chronicleId := Some(FreshId(ChronicleId, s.nextId)), nextId := s.nextId + 2);
    Rebuilt(Appended(started, FirstEvent(title, s.nextId, now)))
  }

  /** The stored index is the projection of the whole log. */
  ghost predicate Consistent(s: Store) {
    s.chronicleId.Some? && Project(s.log) == Some(s.index)
  }

  lemma InitializedConsistent(title: string, now: nat)
    ensures Consistent(Initialized(EMPTY_STORE, title, now))
    ensures Initialized(EMPTY_STORE, title, now).index == EMPTY
    ensures var s := Initialized(EMPTY_STORE, title, now);
            |s.log| == 1 && s.chronicleId == Some(FreshId(ChronicleId, 0))
            && s.log[0].chronicleId == s.chronicleId.value && s.log[0].eventId == FreshId(EventId, 1)
            && s.log[0].eventType == ChronicleCreated && s.log[0].timestamp == now && s.log[0].actor == User
            && s.log[0].summary == title + " created" && s.log[0].payload == map[KTitle := Str(title)] && s.nextId == 2
  {
    var e := FirstEvent(title, 0, now);
    AppendInert([], e);
    assert [] + [e] == [e];
  }

  // ----- The service ------------------------------------------------------------------------

  class ChronicleService {
    var chronicleId: Option<string>
    var log: seq<ChronicleEvent>
    var index: Index
    var nextId: nat
    var versionFiles: map<(string, string), string>
    var currentFiles: map<string, string>

    ghost function State(): Store
      reads this
    {
      Store(chronicleId, log, index, nextId, versionFiles, currentFiles)
    }

    constructor ()
      ensures State() == EMPTY_STORE
    {
      chronicleId, log, index, nextId := None, [], EMPTY, 0;
      versionFiles, currentFiles := map[], map[];
    }

    method GenerateId(k: IdKind) returns (id: string)
      modifies this`nextId
      ensures id == FreshId(k, old(nextId)) && nextId == old(nextId) + 1
    {
      id := FreshId(k, nextId);
      nextId := nextId + 1;
    }

    method Init(title: string, now: nat)
      modifies this
      ensures State() == Initialized(old(State()), title, now)
    {
      ghost var n := nextId;
      var id := GenerateId(ChronicleId);
      chronicleId := Some(id);
      var eventId := GenerateId(EventId);
      var d := PlainDraft(ChronicleCreated, User, title + " created", map[KTitle := Str(title)]);
      var e := Stamp(d, eventId, id, now);
      assert e == FirstEvent(title, n, now);
      AppendEvent(e);
      var ok := RebuildIndexes();
    }

    method AppendEvent(e: ChronicleEvent)
      modifies this`log
      ensures State() == Appended(old(State()), e)
    {
      log := log + [e];
    }

    method RecordEvent(d: Draft, now: nat) returns (r: Result<ChronicleEvent, ServiceError>)
      modifies this`log, this`nextId
      ensures (State(), r) == Recorded(old(State()), d, now)
    {
      if chronicleId.None? {
        return Failure(NotInitialized);
      }
      var eventId := GenerateId(EventId);
      var e := Stamp(d, eventId, chronicleId.value, now);
      AppendEvent(e);
      r := Success(e);
    }

    method RebuildIndexes() returns (ok: bool)
      modifies this`index
      ensures State() == Rebuilt(old(State()))
      ensures ok <==> Project(log).Some?
    {
      var projection := Build(log);
      ok := projection.Some?;
      if ok {
        index := projection.value;
      }
    }
  }
}
