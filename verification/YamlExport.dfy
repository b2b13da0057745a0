/** The YAML export: lifecycle filter, redaction, seal warnings and version pruning together. */
module YamlExport {
  import opened Wrappers
  import opened Sequences
  import opened Records
  import opened Lifecycle
  import opened Redaction

  datatype Chronicle = Chronicle(
    events: seq<ChronicleEvent>, artifacts: map<string, Artifact>, versions: map<string, seq<Version>>,
    contexts: map<string, Context>, decisions: map<string, Decision>, rules: map<string, BoundaryRule>)

  datatype Notice = RecordsExcluded | EventsExcluded | RecordsSealed

  datatype Counts = Counts(records: int, events: int, sealed: int)

  /** The exported document; its counts appear with the first notice. */
  datatype Document = Document(
    options: Options, notices: seq<Notice>, counts: Option<Counts>, events: seq<ChronicleEvent>,
    artifacts: map<string, Fields>, versions: map<string, seq<Version>>, contexts: map<string, Fields>,
    decisions: map<string, Decision>, rules: map<string, BoundaryRule>)

  // ----- Meaning of the export ------------------------------------------------------------------

  ghost predicate Shown(e: ChronicleEvent, states: StateMap) {
    !ReferencesTombstoned(e, states, false)
  }

  ghost function EventParts(states: StateMap, options: Options): ChronicleEvent -> seq<ChronicleEvent> {
    (e: ChronicleEvent) =>
      if Shown(e, states) && TransformEvent(e, options).Some? then [TransformEvent(e, options).value] else []
  }

  ghost function ShownEvents(states: StateMap): ChronicleEvent -> bool {
    (e: ChronicleEvent) => Shown(e, states)
  }

  function StateOf(id: string, states: StateMap): Option<TargetState> {
    if id in states then Some(states[id]) else None
  }

  function ContextDump(c: Context, options: Options): Option<Fields> {
    TransformDump(DumpContext(c), c.visibilityHint == "sensitive", options)
  }

  function ArtifactDump(a: Artifact, options: Options): Option<Fields> {
    TransformDump(DumpArtifact(a), a.visibilityHint == "sensitive", options)
  }

  lemma ContextDumpReadable(c: Context, options: Options)
    ensures ContextDump(c, options).Some? ==> WarningsReadable(ContextDump(c, options).value)
  {
    assert KWarnings !in DumpContext(c);
  }

  lemma ArtifactDumpReadable(a: Artifact, options: Options)
    ensures ArtifactDump(a, options).Some? ==> WarningsReadable(ArtifactDump(a, options).value)
  {
    assert KWarnings !in DumpArtifact(a);
  }

  /** A record's entry in the document: none, or its dump with the seal warning. */
  function ContextEntry(id: string, c: Context, states: StateMap, options: Options): Option<Fields> {
    ContextDumpReadable(c, options);
    var dump := ContextDump(c, options);
    if IsTombstoned(id, states) || dump.None? then None
    else Some(MarkSealedWarning(dump.value, StateOf(id, states)))
  }

  function ArtifactEntry(id: string, a: Artifact, states: StateMap, options: Options): Option<Fields> {
    ArtifactDumpReadable(a, options);
    var dump := ArtifactDump(a, options);
    if IsTombstoned(id, states) || dump.None? then None
    else Some(MarkSealedWarning(dump.value, StateOf(id, states)))
  }

  function ContextEntries(c: Chronicle, states: StateMap, options: Options): map<string, Fields> {
    map id | id in c.contexts && ContextEntry(id, c.contexts[id], states, options).Some? ::
      ContextEntry(id, c.contexts[id], states, options).value
  }

  function ArtifactEntries(c: Chronicle, states: StateMap, options: Options): map<string, Fields> {
    map id | id in c.artifacts && ArtifactEntry(id, c.artifacts[id], states, options).Some? ::
      ArtifactEntry(id, c.artifacts[id], states, options).value
  }

  /** Versions go with their artifact; those of an unknown artifact stay. */
  function VersionEntries(c: Chronicle, artifacts: map<string, Fields>): map<string, seq<Version>> {
    map id | id in c.versions && !(id in c.artifacts && id !in artifacts) :: c.versions[id]
  }

  function VisibleContexts(c: Chronicle, states: StateMap): map<string, Context> {
    map id | id in c.contexts && !IsTombstoned(id, states) :: c.contexts[id]
  }

  function VisibleArtifacts(c: Chronicle, states: StateMap): map<string, Artifact> {
    map id | id in c.artifacts && !IsTombstoned(id, states) :: c.artifacts[id]
  }

  function SealedAmong(ids: set<string>, states: StateMap): set<string> {
    set id | id in ids && IsSealed(id, states)
  }

  ghost function CountsOf(c: Chronicle, states: StateMap): Counts {
    Counts(|c.artifacts| + |c.contexts| - |VisibleArtifacts(c, states)| - |VisibleContexts(c, states)|,
           |c.events| - |Filter(ShownEvents(states), c.events)|,
           |SealedAmong(VisibleArtifacts(c, states).Keys, states)|
               + |SealedAmong(VisibleContexts(c, states).Keys, states)|)
  }

  function NoticesFor(n: Counts): seq<Notice> {
    (if n.records != 0 then [RecordsExcluded] else []) + (if n.events != 0 then [EventsExcluded] else [])
    + (if n.sealed != 0 then [RecordsSealed] else [])
  }

  ghost function Export(c: Chronicle, states: StateMap, options: Options): Document {
    var counts, artifacts := CountsOf(c, states), ArtifactEntries(c, states, options);
    var notices := NoticesFor(counts);
    Document(options, notices, if notices != [] then Some(counts) else None,
             FlatMap(EventParts(states, options), c.events), artifacts, VersionEntries(c, artifacts),
             ContextEntries(c, states, options), c.decisions, c.rules)
  }

  // ----- The procedure -----------------------------------------------------------------------------

  method ExportEvents(events: seq<ChronicleEvent>, states: StateMap, options: Options)
    returns (visible: nat, dumps: seq<ChronicleEvent>)
    ensures visible == |Filter(ShownEvents(states), events)|
    ensures dumps == FlatMap(EventParts(states, options), events)
  {
    visible, dumps := 0, [];
    for i := 0 to |events|
      invariant visible == |Filter(ShownEvents(states), events[..i])|
      invariant dumps == FlatMap(EventParts(states, options), events[..i])
    {
      FilterStep(ShownEvents(states), events, i);
      FlatMapStep(EventParts(states, options), events, i);
      var hidden := EventReferencesTombstonedTarget(events[i], states, false);
      if !hidden {
        visible := visible + 1;
        var dump := TransformEventDump(events[i], options);
        if dump.Some? {
          dumps := dumps + [dump.value];
        }
      }
    }
    assert events[..|events|] == events;
  }

  method BuildNotices(counts: Counts) returns (notices: seq<Notice>)
    ensures notices == NoticesFor(counts)
  {
    notices := [];
    if counts.records != 0 {
      notices := notices + [RecordsExcluded];
    }
    if counts.events != 0 {
      notices := notices + [EventsExcluded];
    }
    if counts.sealed != 0 {
      notices := notices + [RecordsSealed];
    }
  }

  method ExportYaml(c: Chronicle, log: seq<LifecycleEvent>, options: Options) returns (d: Document)
    ensures d == Export(c, StatesOf(log), options)
  {
    var states := LifecycleStateByTarget(log);
    var visibleArtifacts, visibleContexts := VisibleArtifacts(c, states), VisibleContexts(c, states);
    var visibleEvents, events := ExportEvents(c.events, states, options);
    var counts := Counts(
      |c.artifacts| + |c.contexts| - |visibleArtifacts| - |visibleContexts|,
      |c.events| - visibleEvents,
      |SealedAmong(visibleArtifacts.Keys, states)| + |SealedAmong(visibleContexts.Keys, states)|);
    assert counts == CountsOf(c, states);
    var notices := BuildNotices(counts);
    var artifacts := ArtifactEntries(c, states, options);
    d := Document(options, notices, if notices != [] then Some(counts) else None, events, artifacts,
                  VersionEntries(c, artifacts), ContextEntries(c, states, options), c.decisions, c.rules);
  }

  // ----- Non-interference ------------------------------------------------------------------------------

  /** The same record, or two sensitive ones that differ in hidden fields only. */
  ghost predicate ContextAlike(a: Context, b: Context) {
    a == b || (a.visibilityHint == "sensitive" == b.visibilityHint && AlikeOutside(DumpContext(a), DumpContext(b)))
  }

  ghost predicate ArtifactAlike(a: Artifact, b: Artifact) {
    a == b || (a.visibilityHint == "sensitive" == b.visibilityHint && AlikeOutside(DumpArtifact(a), DumpArtifact(b)))
  }

  /** Two chronicles that differ only in what redaction is meant to hide. */
  ghost predicate Alike(c: Chronicle, d: Chronicle) {
    && |c.events| == |d.events| && (forall i :: 0 <= i < |c.events| ==> EventAlike(c.events[i], d.events[i]))
    && c.contexts.Keys == d.contexts.Keys
    && (forall id :: id in c.contexts ==> ContextAlike(c.contexts[id], d.contexts[id]))
    && c.artifacts.Keys == d.artifacts.Keys
    && (forall id :: id in c.artifacts ==> ArtifactAlike(c.artifacts[id], d.artifacts[id]))
    && c.versions == d.versions && c.decisions == d.decisions && c.rules == d.rules
  }

  lemma IdKeysShown()
    ensures forall k :: k in RECORD_ID_KEYS ==> k !in HIDDEN
  {
  }

  /** What a payload entry contributes to an event's lifecycle targets. */
  lemma EntryIds(p: Fields, q: Fields, k: Key)
    requires EntryAlike(p, q, k)
    ensures ContainerIds(p, [k]) == ContainerIds(q, [k])
  {
    IdKeysShown();
    if k in p && k in q && p[k].Dict? && q[k].Dict? {
      assert StringValues(p[k].fields, RECORD_ID_KEYS) == StringValues(q[k].fields, RECORD_ID_KEYS);
    } else {
      assert Entry(p, k) == Entry(q, k);
    }
  }

  lemma ContainersOneByOne(p: Fields)
    ensures ContainerIds(p, CONTAINERS) ==
              ContainerIds(p, [KContext]) + ContainerIds(p, [KArtifact]) + ContainerIds(p, [KDecision])
                  + ContainerIds(p, [KBoundaryRule])
  {
    assert forall c :: c in CONTAINERS <==>
        c in [KContext] || c in [KArtifact] || c in [KDecision] || c in [KBoundaryRule];
  }

  lemma PayloadIdsAlike(p: Fields, q: Fields)
    requires forall k :: k != KContext && k != KArtifact ==> Entry(p, k) == Entry(q, k)
    ensures StringValues(p, PAYLOAD_ID_KEYS) == StringValues(q, PAYLOAD_ID_KEYS)
    ensures ContainerIds(p, [KDecision]) == ContainerIds(q, [KDecision])
    ensures ContainerIds(p, [KBoundaryRule]) == ContainerIds(q, [KBoundaryRule])
  {
    assert Entry(p, KDecision) == Entry(q, KDecision) && Entry(p, KBoundaryRule) == Entry(q, KBoundaryRule);
    forall k | k in PAYLOAD_ID_KEYS ensures Entry(p, k) == Entry(q, k) {
    }
    StringValuesAlike(p, q, PAYLOAD_ID_KEYS);
  }

  lemma StringValuesAlike(p: Fields, q: Fields, keys: seq<Key>)
    requires forall k :: k in keys ==> Entry(p, k) == Entry(q, k)
    ensures StringValues(p, keys) == StringValues(q, keys)
  {
  }

  /** Hidden fields carry no ids: alike events name the same lifecycle targets. */
  lemma AlikeEventsNameTheSame(e: ChronicleEvent, f: ChronicleEvent)
    requires EventAlike(e, f)
    ensures TargetIds(e, false) == TargetIds(f, false)
  {
    var p, q := e.payload, f.payload;
    ContainersOneByOne(p);
    ContainersOneByOne(q);
    EntryIds(p, q, KContext);
    EntryIds(p, q, KArtifact);
    PayloadIdsAlike(p, q);
  }

  lemma AlikeEventsShown(e: ChronicleEvent, f: ChronicleEvent, states: StateMap)
    requires EventAlike(e, f)
    ensures Shown(e, states) == Shown(f, states)
  {
    AlikeEventsNameTheSame(e, f);
  }

  lemma AlikeEventParts(e: ChronicleEvent, f: ChronicleEvent, states: StateMap, options: Options)
    requires EventAlike(e, f) && options.redactSensitive
    ensures EventParts(states, options)(e) == EventParts(states, options)(f)
    ensures Shown(e, states) == Shown(f, states)
  {
    AlikeEventsShown(e, f, states);
    RedactedEventsAlike(e, f);
    assert SensitivePayload(e.payload) == SensitivePayload(f.payload);
  }

  lemma {:induction false} AlikeEvents(a: seq<ChronicleEvent>, b: seq<ChronicleEvent>, states: StateMap,
                                       options: Options)
    requires |a| == |b| && options.redactSensitive
    requires forall i :: 0 <= i < |a| ==> EventAlike(a[i], b[i])
    ensures FlatMap(EventParts(states, options), a) == FlatMap(EventParts(states, options), b)
    ensures |Filter(ShownEvents(states), a)| == |Filter(ShownEvents(states), b)|
  {
    if a != [] {
      AlikeEventParts(a[0], b[0], states, options);
      AlikeEvents(a[1..], b[1..], states, options);
    }
  }

  lemma AlikeContextEntry(id: string, a: Context, b: Context, states: StateMap, options: Options)
    requires ContextAlike(a, b) && options.redactSensitive
    ensures ContextEntry(id, a, states, options) == ContextEntry(id, b, states, options)
  {
    RedactedHidesExactly(DumpContext(a), DumpContext(b));
  }

  lemma AlikeArtifactEntry(id: string, a: Artifact, b: Artifact, states: StateMap, options: Options)
    requires ArtifactAlike(a, b) && options.redactSensitive
    ensures ArtifactEntry(id, a, states, options) == ArtifactEntry(id, b, states, options)
  {
    RedactedHidesExactly(DumpArtifact(a), DumpArtifact(b));
  }

  lemma AlikeVisible(c: Chronicle, d: Chronicle, states: StateMap)
    requires c.contexts.Keys == d.contexts.Keys && c.artifacts.Keys == d.artifacts.Keys
    ensures VisibleArtifacts(c, states).Keys == VisibleArtifacts(d, states).Keys
    ensures VisibleContexts(c, states).Keys == VisibleContexts(d, states).Keys
  {
  }

  lemma AlikeCounts(c: Chronicle, d: Chronicle, states: StateMap)
    requires c.contexts.Keys == d.contexts.Keys && c.artifacts.Keys == d.artifacts.Keys && |c.events| == |d.events|
    requires |Filter(ShownEvents(states), c.events)| == |Filter(ShownEvents(states), d.events)|
    ensures CountsOf(c, states) == CountsOf(d, states)
  {
    AlikeVisible(c, d, states);
    SameSize(c.artifacts, d.artifacts);
    SameSize(c.contexts, d.contexts);
    SameSize(VisibleArtifacts(c, states), VisibleArtifacts(d, states));
    SameSize(VisibleContexts(c, states), VisibleContexts(d, states));
  }

  lemma AlikeContexts(c: Chronicle, d: Chronicle, states: StateMap, options: Options)
    requires c.contexts.Keys == d.contexts.Keys && options.redactSensitive
    requires forall id :: id in c.contexts ==> ContextAlike(c.contexts[id], d.contexts[id])
    ensures ContextEntries(c, states, options) == ContextEntries(d, states, options)
  {
    forall id | id in c.contexts
      ensures ContextEntry(id, c.contexts[id], states, options) == ContextEntry(id, d.contexts[id], states, options)
    {
      AlikeContextEntry(id, c.contexts[id], d.contexts[id], states, options);
    }
  }

  lemma AlikeArtifacts(c: Chronicle, d: Chronicle, states: StateMap, options: Options)
    requires c.artifacts.Keys == d.artifacts.Keys && options.redactSensitive
    requires forall id :: id in c.artifacts ==> ArtifactAlike(c.artifacts[id], d.artifacts[id])
    ensures ArtifactEntries(c, states, options) == ArtifactEntries(d, states, options)
  {
    forall id | id in c.artifacts
      ensures ArtifactEntry(id, c.artifacts[id], states, options) == ArtifactEntry(id, d.artifacts[id], states, options)
    {
      AlikeArtifactEntry(id, c.artifacts[id], d.artifacts[id], states, options);
    }
  }

  lemma AlikeVersions(c: Chronicle, d: Chronicle, artifacts: map<string, Fields>)
    requires c.versions == d.versions && c.artifacts.Keys == d.artifacts.Keys
    ensures VersionEntries(c, artifacts) == VersionEntries(d, artifacts)
  {
  }

  lemma SameSize<T>(a: map<string, T>, b: map<string, T>)
    requires a.Keys == b.Keys
    ensures |a| == |b|
  {
    assert |a| == |a.Keys| && |b| == |b.Keys|;
  }

  /** Non-interference: under redaction the whole document depends on nothing redaction hides. */
  lemma RedactionNonInterference(c: Chronicle, d: Chronicle, states: StateMap, options: Options)
    requires Alike(c, d) && options.redactSensitive
    ensures Export(c, states, options) == Export(d, states, options)
  {
    AlikeEvents(c.events, d.events, states, options);
    AlikeCounts(c, d, states);
    AlikeContexts(c, d, states, options);
    AlikeArtifacts(c, d, states, options);
    AlikeVersions(c, d, ArtifactEntries(c, states, options));
  }

  // ----- Exclusion -----------------------------------------------------------------------------------------

  /** Under exclusion the document holds exactly the records that are neither tombstoned nor sensitive. */
  lemma ExcludedRecords(c: Chronicle, states: StateMap, options: Options, id: string)
    requires options.excludeSensitive
    ensures id in Export(c, states, options).contexts <==>
              id in c.contexts && !IsTombstoned(id, states) && c.contexts[id].visibilityHint != "sensitive"
    ensures id in Export(c, states, options).artifacts <==>
              id in c.artifacts && !IsTombstoned(id, states) && c.artifacts[id].visibilityHint != "sensitive"
  {
  }

  /** The version lists of an artifact that is hidden by a tombstone, or by exclusion, are hidden with it. */
  lemma VersionsGoWithArtifacts(c: Chronicle, states: StateMap, options: Options, id: string)
    requires id in c.artifacts
    ensures var d := Export(c, states, options);
            id in d.versions <==>
              id in c.versions && !IsTombstoned(id, states)
              && !(options.excludeSensitive && c.artifacts[id].visibilityHint == "sensitive")
    ensures id in Export(c, states, options).versions ==>
              Export(c, states, options).versions[id] == c.versions[id]
  {
    var a := c.artifacts[id];
    assert ArtifactDump(a, options).None? <==> options.excludeSensitive && a.visibilityHint == "sensitive";
    assert id in ArtifactEntries(c, states, options) <==> ArtifactEntry(id, a, states, options).Some?;
  }

  /** Version lists without an indexed artifact stay. */
  lemma OrphanVersionsStay(c: Chronicle, states: StateMap, options: Options, id: string)
    requires id !in c.artifacts
    ensures var d := Export(c, states, options);
            (id in d.versions <==> id in c.versions) && (id in d.versions ==> d.versions[id] == c.versions[id])
  {
  }

  /** Under exclusion every exported event is an untouched one without sensitive payload. */
  lemma ExcludedEvents(c: Chronicle, states: StateMap, options: Options, e: ChronicleEvent)
    requires options.excludeSensitive
    ensures e in Export(c, states, options).events <==>
              e in c.events && !SensitivePayload(e.payload) && Shown(e, states)
  {
    FlatMapMember(EventParts(states, options), c.events, e);
    forall x: ChronicleEvent | true
      ensures e in EventParts(states, options)(x) <==> x == e && !SensitivePayload(e.payload) && Shown(e, states)
    {
      assert !SensitivePayload(x.payload) ==> RedactedEvent(x) == x;
    }
  }

  /** The reported numbers count the tombstoned records and the hidden events. */
  lemma CountsAreConserved(c: Chronicle, states: StateMap)
    ensures CountsOf(c, states).records ==
              |set id | id in c.artifacts && IsTombstoned(id, states)|
              + |set id | id in c.contexts && IsTombstoned(id, states)|
    ensures CountsOf(c, states).events == |Filter(HiddenEvents(states), c.events)|
  {
    SplitKeys(c.artifacts.Keys, states);
    SplitKeys(c.contexts.Keys, states);
    assert VisibleArtifacts(c, states).Keys == set id | id in c.artifacts.Keys && !IsTombstoned(id, states);
    assert VisibleContexts(c, states).Keys == set id | id in c.contexts.Keys && !IsTombstoned(id, states);
    assert |VisibleArtifacts(c, states)| == |VisibleArtifacts(c, states).Keys|;
    assert |VisibleContexts(c, states)| == |VisibleContexts(c, states).Keys|;
    assert |c.artifacts| == |c.artifacts.Keys| && |c.contexts| == |c.contexts.Keys|;
    assert (set id | id in c.artifacts && IsTombstoned(id, states))
        == set id | id in c.artifacts.Keys && IsTombstoned(id, states);
    assert (set id | id in c.contexts && IsTombstoned(id, states))
        == set id | id in c.contexts.Keys && IsTombstoned(id, states);
    FilterSplitsLength(ShownEvents(states), HiddenEvents(states), c.events);
  }

  ghost function HiddenEvents(states: StateMap): ChronicleEvent -> bool {
    (e: ChronicleEvent) => !Shown(e, states)
  }

  lemma SplitKeys(keys: set<string>, states: StateMap)
    ensures |keys| == |set id | id in keys && IsTombstoned(id, states)|
                      + |set id | id in keys && !IsTombstoned(id, states)|
  {
    var hidden := set id | id in keys && IsTombstoned(id, states);
    var shown := set id | id in keys && !IsTombstoned(id, states);
    assert keys == hidden + shown;
  }

  // ----- What redaction leaves to see, key by key ---------------------------------------------------

  /** The fields of a redacted dictionary: placeholders for seven of them, the others as they were. */
  ghost predicate SevenHidden(before: Fields, after: Fields) {
    && after.Keys == before.Keys
    && forall k :: k in before ==>
         after[k] == if k in {KTitle, KSummary, KSource, KSourceRef, KSourceType, KPath, KTags}
                     then Str("[REDACTED:sensitive]") else before[k]
  }

  lemma RedactedSeven(m: Fields)
    ensures SevenHidden(m, Redacted(m))
  {
  }

  /** A record's entry: its own dump, or the redacted one, with the seal warning as the one addition. */
  ghost predicate EntryAsSeen(dump: Fields, sensitive: bool, isSealed: bool, entry: Fields) {
    && (if sensitive then SevenHidden(dump, entry - {KWarnings}) else entry - {KWarnings} == dump)
    && (KWarnings in entry <==> isSealed)
    && (isSealed ==> entry[KWarnings] == List([Str("lifecycle_sealed_record")]))
  }

  lemma MarkedDump(dump: Fields, state: Option<TargetState>)
    requires KWarnings !in dump
    ensures var r := MarkSealedWarning(dump, state);
            r - {KWarnings} == dump && (KWarnings in r <==> state.Some? && state.value.IsSealed())
            && (KWarnings in r ==> r[KWarnings] == List([Str("lifecycle_sealed_record")]))
  {
    assert dump - {KWarnings} == dump;
    if state.Some? && state.value.IsSealed() {
      assert WarningsOf(dump) == [] && [] + [Str("lifecycle_sealed_record")] == [Str("lifecycle_sealed_record")];
    }
  }

  lemma TransformedEntry(dump: Fields, sensitive: bool, state: Option<TargetState>, options: Options)
    requires KWarnings !in dump && options.redactSensitive && !options.excludeSensitive
    ensures var shown := TransformDump(dump, sensitive, options);
            shown.Some? && WarningsReadable(shown.value)
            && EntryAsSeen(dump, sensitive, state.Some? && state.value.IsSealed(),
                           MarkSealedWarning(shown.value, state))
  {
    RedactedSeven(dump);
    MarkedDump(dump, state);
    MarkedDump(Redacted(dump), state);
  }

  lemma RedactedContextEntry(id: string, c: Context, states: StateMap, options: Options)
    requires options.redactSensitive && !options.excludeSensitive
    ensures var entry := ContextEntry(id, c, states, options);
            (entry.Some? <==> !IsTombstoned(id, states))
            && (entry.Some? ==>
                  EntryAsSeen(DumpContext(c), c.visibilityHint == "sensitive", IsSealed(id, states), entry.value))
  {
    ContextDumpReadable(c, options);
    assert KWarnings !in DumpContext(c);
    TransformedEntry(DumpContext(c), c.visibilityHint == "sensitive", StateOf(id, states), options);
  }

  lemma RedactedArtifactEntry(id: string, a: Artifact, states: StateMap, options: Options)
    requires options.redactSensitive && !options.excludeSensitive
    ensures var entry := ArtifactEntry(id, a, states, options);
            (entry.Some? <==> !IsTombstoned(id, states))
            && (entry.Some? ==>
                  EntryAsSeen(DumpArtifact(a), a.visibilityHint == "sensitive", IsSealed(id, states), entry.value))
  {
    ArtifactDumpReadable(a, options);
    assert KWarnings !in DumpArtifact(a);
    TransformedEntry(DumpArtifact(a), a.visibilityHint == "sensitive", StateOf(id, states), options);
  }

  /**
   * Under redaction the document has an entry for each context that is not tombstoned: the whole
   * record, but for seven fields of a sensitive one.
   */
  lemma RedactedContexts(c: Chronicle, states: StateMap, options: Options, id: string)
    requires options.redactSensitive && !options.excludeSensitive
    ensures var d := Export(c, states, options);
            id in d.contexts <==> id in c.contexts && !IsTombstoned(id, states)
    ensures var d := Export(c, states, options);
            id in d.contexts ==>
              EntryAsSeen(DumpContext(c.contexts[id]), c.contexts[id].visibilityHint == "sensitive",
                          IsSealed(id, states), d.contexts[id])
  {
    assert Export(c, states, options).contexts == ContextEntries(c, states, options);
    if id in c.contexts {
      RedactedContextEntry(id, c.contexts[id], states, options);
    }
  }

  /** The same for artifacts. */
  lemma RedactedArtifacts(c: Chronicle, states: StateMap, options: Options, id: string)
    requires options.redactSensitive && !options.excludeSensitive
    ensures var d := Export(c, states, options);
            id in d.artifacts <==> id in c.artifacts && !IsTombstoned(id, states)
    ensures var d := Export(c, states, options);
            id in d.artifacts ==>
              EntryAsSeen(DumpArtifact(c.artifacts[id]), c.artifacts[id].visibilityHint == "sensitive",
                          IsSealed(id, states), d.artifacts[id])
  {
    assert Export(c, states, options).artifacts == ArtifactEntries(c, states, options);
    if id in c.artifacts {
      RedactedArtifactEntry(id, c.artifacts[id], states, options);
    }
  }

  /** A payload dictionary with the hint, or for want of one the visibility, "sensitive". */
  ghost predicate SaysSensitive(payload: Fields, k: Key) {
    k in payload && payload[k].Dict? &&
    var m := payload[k].fields;
    if KVisibilityHint in m && Truthy(m[KVisibilityHint]) then m[KVisibilityHint] == Str("sensitive")
    else KVisibility in m && m[KVisibility] == Str("sensitive")
  }

  /** An event as a redacted document shows it. */
  ghost predicate EventAsSeen(e: ChronicleEvent, f: ChronicleEvent) {
    && f == e.(summary := f.summary, payload := f.payload)
    && f.summary == (if SaysSensitive(e.payload, KContext) || SaysSensitive(e.payload, KArtifact)
                     then "[REDACTED:sensitive]" else e.summary)
    && f.payload.Keys == e.payload.Keys
    && (forall k :: k in e.payload ==>
          if (k == KContext || k == KArtifact) && SaysSensitive(e.payload, k)
          then f.payload[k].Dict? && SevenHidden(e.payload[k].fields, f.payload[k].fields)
          else f.payload[k] == e.payload[k])
  }

  lemma SaysSensitiveMeans(payload: Fields, k: Key)
    ensures SaysSensitive(payload, k) <==> SensitiveEntry(payload, k)
  {
  }

  lemma RedactedEventAsSeen(e: ChronicleEvent)
    ensures EventAsSeen(e, RedactedEvent(e))
  {
    SaysSensitiveMeans(e.payload, KContext);
    SaysSensitiveMeans(e.payload, KArtifact);
    if SensitivePayload(e.payload) {
      RedactedPayloadAsSeen(e.payload);
    }
  }

  lemma RedactedPayloadAsSeen(p: Fields)
    ensures var q := RedactEntry(RedactEntry(p, KContext), KArtifact);
            q.Keys == p.Keys
            && forall k :: k in p ==>
                 if (k == KContext || k == KArtifact) && SensitiveEntry(p, k)
                 then q[k].Dict? && SevenHidden(p[k].fields, q[k].fields) else q[k] == p[k]
  {
    var q := RedactEntry(RedactEntry(p, KContext), KArtifact);
    forall k: Key | true
      ensures k in q <==> k in p
      ensures k in p ==>
                if (k == KContext || k == KArtifact) && SensitiveEntry(p, k)
                then q[k].Dict? && SevenHidden(p[k].fields, q[k].fields) else q[k] == p[k]
    {
      RedactedEntries(p, k);
      if SensitiveEntry(p, k) {
        RedactedSeven(p[k].fields);
      }
    }
    assert q.Keys == p.Keys;
  }

  /** An event that names no tombstoned target, in its payload: its own fields are not looked at. */
  ghost function Listed(c: Chronicle, states: StateMap): seq<ChronicleEvent> {
    Filter((e: ChronicleEvent) => !exists id :: id in TargetIds(e, false) && IsTombstoned(id, states), c.events)
  }

  /** Under redaction the document lists every event that is not hidden, in log order, each redacted as needed. */
  lemma RedactedEvents(c: Chronicle, states: StateMap, options: Options)
    requires options.redactSensitive && !options.excludeSensitive
    ensures var shown, d := Listed(c, states), Export(c, states, options);
            |d.events| == |shown| && forall i :: 0 <= i < |shown| ==> EventAsSeen(shown[i], d.events[i])
  {
    EventsOneByOne(c.events, states, options);
    FilterAlike(ShownEvents(states),
                (e: ChronicleEvent) => !exists id :: id in TargetIds(e, false) && IsTombstoned(id, states), c.events);
  }

  lemma {:induction false} FilterAlike<T>(p: T -> bool, q: T -> bool, s: seq<T>)
    requires forall x :: x in s ==> p(x) == q(x)
    ensures Filter(p, s) == Filter(q, s)
  {
    if s != [] {
      FilterAlike(p, q, s[1..]);
    }
  }

  lemma {:induction false} EventsOneByOne(events: seq<ChronicleEvent>, states: StateMap, options: Options)
    requires options.redactSensitive && !options.excludeSensitive
    ensures var shown, dumps := Filter(ShownEvents(states), events), FlatMap(EventParts(states, options), events);
            |dumps| == |shown| && forall i :: 0 <= i < |shown| ==> EventAsSeen(shown[i], dumps[i])
  {
    if events != [] {
      EventsOneByOne(events[1..], states, options);
      RedactedEventAsSeen(events[0]);
      var shown, dumps := Filter(ShownEvents(states), events), FlatMap(EventParts(states, options), events);
      if Shown(events[0], states) {
        assert dumps == [RedactedEvent(events[0])] + FlatMap(EventParts(states, options), events[1..]);
        assert shown == [events[0]] + Filter(ShownEvents(states), events[1..]);
      }
    }
  }
}
