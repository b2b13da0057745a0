/** The deterministic, lifecycle-aware graph export: its meaning and the procedure that builds it. */
module GraphExport {
  import opened Wrappers
  import opened Sequences
  import opened Ordering
  import opened Records
  import opened Lifecycle

  // ----- Nodes, edges and their identifiers --------------------------------------------------

  datatype NodeKind =
    | ChronicleKind | EventKind | ContextKind | SourceKind | ArtifactKind | VersionKind
    | DecisionKind | RuleKind | PlanKind
    | RdeKind // named by edges, never built as a node

  function KindName(k: NodeKind): string {
    match k
    case ChronicleKind => "chronicle"
    case EventKind => "event"
    case ContextKind => "context"
    case SourceKind => "source_provenance"
    case ArtifactKind => "artifact"
    case VersionKind => "artifact_version"
    case DecisionKind => "decision"
    case RuleKind => "boundary_rule"
    case PlanKind => "injection_plan"
    case RdeKind => "rde_diff_record"
  }

  datatype EdgeKind =
    | HasEvent | CreatesArtifact | UpdatesArtifact | RecordsDecision | RecordsRde | RecordsPlan
    | HasSource | HasVersion | VersionSourceEvent | DecisionSourceEvent | Selects | Warns | Excludes

  function EdgeTypeName(k: EdgeKind): string {
    match k
    case HasEvent => "chronicle_has_event"
    case CreatesArtifact => "event_creates_artifact"
    case UpdatesArtifact => "event_updates_artifact"
    case RecordsDecision => "event_records_decision"
    case RecordsRde => "event_records_rde"
    case RecordsPlan => "event_records_injection_plan"
    case HasSource => "context_has_source"
    case HasVersion => "artifact_has_version"
    case VersionSourceEvent => "artifact_version_source_event"
    case DecisionSourceEvent => "decision_source_event"
    case Selects => "injection_plan_selects_context"
    case Warns => "injection_plan_warns_context"
    case Excludes => "injection_plan_excludes_context"
  }

  /** The prefix of an edge id, which is not always the edge type. */
  function EdgePrefix(k: EdgeKind): string {
    match k
    case CreatesArtifact => "event_artifact"
    case UpdatesArtifact => "event_artifact"
    case VersionSourceEvent => "version_source_event"
    case Selects => "ip_selects"
    case Warns => "ip_warns"
    case Excludes => "ip_excludes"
    case _ => EdgeTypeName(k)
  }

  function NodeId(k: NodeKind, id: string): string {
    "n_" + KindName(k) + "_" + id
  }

  function EdgeId(k: EdgeKind, from: string, to: string): string {
    "e_" + EdgePrefix(k) + "_" + from + "_" + to
  }

  datatype Node = Node(
    nodeId: string, nodeType: NodeKind, sourceId: string, title: string, summary: string, metadata: Fields)

  datatype Edge = Edge(
    edgeId: string, edgeType: EdgeKind, fromNodeId: string, toNodeId: string, metadata: Fields)

  function MakeNode(k: NodeKind, id: string, title: string, summary: string, metadata: Fields): Node {
    Node(NodeId(k, id), k, id, title, summary, metadata)
  }

  function MakeEdge(k: EdgeKind, from: string, to: string, metadata: Fields := map[]): Edge {
    Edge(EdgeId(k, from, to), k, from, to, metadata)
  }

  function NodeKey(n: Node): seq<string> {
    [KindName(n.nodeType), n.sourceId]
  }

  function EdgeKey(e: Edge): seq<string> {
    [EdgeTypeName(e.edgeType), e.fromNodeId, e.toNodeId]
  }

  // ----- What is exported ------------------------------------------------------------------------

  /**
   * The chronicle and its stored indexes. Each index is the list of its records in the
   * iteration order of the dictionary, every record stored under its own id.
   */
  datatype Chronicle = Chronicle(
    chronicleId: string, title: string, events: seq<ChronicleEvent>, contexts: seq<Context>,
    artifacts: seq<Artifact>, versions: map<string, seq<Version>>, decisions: seq<Decision>,
    rules: seq<BoundaryRule>)

  function VersionsOf(versions: map<string, seq<Version>>, artifactId: string): seq<Version> {
    if artifactId in versions then versions[artifactId] else []
  }

  datatype Note = RecordsExcluded(count: int) | EventsExcluded(count: int) | SealedRecords(count: int)

  datatype GraphView = GraphView(chronicleId: string, nodes: seq<Node>, edges: seq<Edge>, notes: seq<Note>)

  datatype ExportError = MalformedPlan

  /** What survives the lifecycle filter. */
  datatype Visible = Visible(
    events: seq<ChronicleEvent>, contexts: seq<Context>, artifacts: seq<Artifact>,
    decisions: seq<Decision>, rules: seq<BoundaryRule>)
  {
    function EventIds(): set<string> { set e | e in events :: e.eventId }
    function ContextIds(): set<string> { set c | c in contexts :: c.contextId }
    function ArtifactIds(): set<string> { set a | a in artifacts :: a.artifactId }
    function DecisionIds(): set<string> { set d | d in decisions :: d.decisionId }
  }

  ghost function EventShown(states: StateMap): ChronicleEvent -> bool {
    (e: ChronicleEvent) => !ReferencesTombstoned(e, states, true)
  }
  function ContextShown(states: StateMap): Context -> bool {
    (c: Context) => !IsTombstoned(c.contextId, states)
  }
  function ArtifactShown(states: StateMap): Artifact -> bool {
    (a: Artifact) => !IsTombstoned(a.artifactId, states)
  }
  function DecisionShown(states: StateMap): Decision -> bool {
    (d: Decision) => !IsTombstoned(d.decisionId, states)
  }
  function RuleShown(states: StateMap): BoundaryRule -> bool {
    (r: BoundaryRule) => !IsTombstoned(r.ruleId, states)
  }

  ghost function VisibleIn(c: Chronicle, states: StateMap): Visible {
    Visible(
      Filter(EventShown(states), c.events), Filter(ContextShown(states), c.contexts),
      Filter(ArtifactShown(states), c.artifacts), Filter(DecisionShown(states), c.decisions),
      Filter(RuleShown(states), c.rules))
  }

  // ----- Injection plans inside event payloads -------------------------------------------------

  datatype PlanRef = PlanRef(contextId: string, warnings: Json)

  datatype Plan = Plan(
    planId: string, task: string, selected: seq<PlanRef>, warned: seq<PlanRef>, excluded: seq<PlanRef>)

  /**
   * One entry of a plan section. An entry that is no dictionary, has no context id or has an
   * unhashable one raises; a hashable id that is no string matches no visible context.
   */
  function ReadRef(j: Json): Option<seq<PlanRef>> {
    if !j.Dict? || KContextId !in j.fields then None
    else
      match j.fields[KContextId]
      case Str(id) => Some([PlanRef(id, if KWarnings in j.fields then j.fields[KWarnings] else List([]))])
      case List(_) => None
      case Dict(_) => None
      case _ => Some([])
  }

  function ReadRefs(items: seq<Json>): Option<seq<PlanRef>> {
    if items == [] then Some([])
    else
      var first :- ReadRef(items[0]);
      var rest :- ReadRefs(items[1..]);
      Some(first + rest)
  }

  /** A plan section: absent is empty; an empty string or dictionary iterates to nothing. */
  function ReadSection(m: Fields, k: Key): Option<seq<PlanRef>> {
    if k !in m then Some([])
    else
      match m[k]
      case List(items) => ReadRefs(items)
      case Str(s) => if s == "" then Some([]) else None
      case Dict(fields) => if fields == map[] then Some([]) else None
      case _ => None
  }

  function ReadPlan(j: Json): Option<Plan> {
    if !j.Dict? then None
    else
      var planId :- NeedString(j.fields, KPlanId);
      var task :- NeedString(j.fields, KTask);
      var selected :- ReadSection(j.fields, KSelected);
      var warned :- ReadSection(j.fields, KWarned);
      var excluded :- ReadSection(j.fields, KExcluded);
      Some(Plan(planId, task, selected, warned, excluded))
  }

  /** The plan an event records, if any. */
  function PlanFor(e: ChronicleEvent): Result<Option<Plan>, ExportError> {
    if !e.eventType.InjectionPlanRecorded? || KInjectionPlan !in e.payload then Success(None)
    else
      var plan := ReadPlan(e.payload[KInjectionPlan]);
      if plan.Some? then Success(plan) else Failure(MalformedPlan)
  }

  predicate Readable(e: ChronicleEvent) {
    PlanFor(e).Success?
  }

  function PlansIn(e: ChronicleEvent): seq<Plan> {
    var r := PlanFor(e);
    if r.Success? && r.value.Some? then [r.value.value] else []
  }

  // ----- Nodes and edges of one record -----------------------------------------------------------

  function OrEmpty(s: Option<string>): string {
    if s.Some? then s.value else ""
  }

  function RuleValueText(v: RuleValue): string {
    match v
    case OneValue(value) => value
    case ManyValues(values) => Join(", ", values)
  }

  /** The warning a record carries when one of the targets it names is sealed. */
  ghost function SealOfAny(ids: set<string>, states: StateMap): Fields {
    if exists id :: id in ids && IsSealed(id, states)
    then map[KLifecycleWarning := Str(SEALED_RECORD)] else map[]
  }

  ghost function EventSeal(e: ChronicleEvent, states: StateMap): Fields {
    SealOfAny(TargetIds(e, true), states)
  }

  function EventNode(e: ChronicleEvent, metadata: Fields): Node {
    MakeNode(EventKind, e.eventId, e.summary, EventTypeName(e.eventType), metadata)
  }

  function ContextNode(c: Context, states: StateMap): Node {
    MakeNode(ContextKind, c.contextId, c.title, c.summary,
             map[KScope := Str(c.scope), KVisibility := Str(c.visibilityHint)] + SealMetadata(c.contextId, states))
  }

  function SourceNode(c: Context, s: Source): Node {
    MakeNode(SourceKind, c.contextId, s.sourceType, "",
             map[KTool := Str(OrEmpty(s.sourceTool)), KSession := Str(OrEmpty(s.sourceSession))])
  }

  function ArtifactNode(a: Artifact, states: StateMap): Node {
    MakeNode(ArtifactKind, a.artifactId, a.title, a.artifactType,
             map[KVisibility := Str(a.visibilityHint)] + SealMetadata(a.artifactId, states))
  }

  function VersionNode(v: Version): Node {
    MakeNode(VersionKind, v.versionId, v.changeSummary, "", map[KSourceEventId := Str(v.sourceEventId)])
  }

  function DecisionNode(d: Decision, states: StateMap): Node {
    MakeNode(DecisionKind, d.decisionId, OrElse(d.reason, d.decisionType), "",
             map[KDecisionType := Str(d.decisionType), KEventId := Str(OrEmpty(d.eventId))]
             + SealMetadata(d.decisionId, states))
  }

  function RuleNode(r: BoundaryRule, states: StateMap): Node {
    MakeNode(RuleKind, r.ruleId,
             OrElse(r.reason, r.ruleType + " " + r.field + " " + r.operator + " " + RuleValueText(r.value)), "",
             map[KRuleType := Str(r.ruleType), KField := Str(r.field), KOperator := Str(r.operator)]
             + SealMetadata(r.ruleId, states))
  }

  function PlanNode(p: Plan): Node {
    MakeNode(PlanKind, p.planId, p.task, "", map[])
  }

  function When<T>(shown: bool, x: T): seq<T> {
    if shown then [x] else []
  }

  /** A version whose source event is given but hidden is skipped. */
  predicate VersionShown(v: Version, eventIds: set<string>) {
    v.sourceEventId == "" || v.sourceEventId in eventIds
  }

  function EventArtifactEdge(e: ChronicleEvent): Edge
    requires e.artifactId.Some?
  {
    MakeEdge(if e.eventType.ArtifactCreated? then CreatesArtifact else UpdatesArtifact,
             NodeId(EventKind, e.eventId), NodeId(ArtifactKind, e.artifactId.value))
  }

  function EventPlanEdges(e: ChronicleEvent): seq<Edge> {
    Map((p: Plan) => MakeEdge(RecordsPlan, NodeId(EventKind, e.eventId), NodeId(PlanKind, p.planId)), PlansIn(e))
  }

  // Per-record parts of the export, as functions to be mapped over lists.

  ghost function EventNodes(states: StateMap): ChronicleEvent -> seq<Node> {
    (e: ChronicleEvent) => [EventNode(e, EventSeal(e, states))]
  }

  function EventEdges(chronicleId: string, v: Visible): ChronicleEvent -> seq<Edge> {
    (e: ChronicleEvent) =>
      var from := NodeId(EventKind, e.eventId);
      [MakeEdge(HasEvent, NodeId(ChronicleKind, chronicleId), from)]
      + (if Given(e.artifactId) && e.artifactId.value in v.ArtifactIds() then [EventArtifactEdge(e)] else [])
      + (if Given(e.decisionId) && e.decisionId.value in v.DecisionIds()
         then [MakeEdge(RecordsDecision, from, NodeId(DecisionKind, e.decisionId.value))] else [])
      + (if Given(e.rdeRecordId) then [MakeEdge(RecordsRde, from, NodeId(RdeKind, e.rdeRecordId.value))] else [])
      + EventPlanEdges(e)
  }

  function ContextNodes(states: StateMap): Context -> seq<Node> {
    (c: Context) => [ContextNode(c, states)] + (if c.source.Some? then [SourceNode(c, c.source.value)] else [])
  }

  function ContextEdges(): Context -> seq<Edge> {
    (c: Context) =>
      When(c.source.Some?, MakeEdge(HasSource, NodeId(ContextKind, c.contextId), NodeId(SourceKind, c.contextId)))
  }

  function VersionNodes(eventIds: set<string>): Version -> seq<Node> {
    (v: Version) => When(VersionShown(v, eventIds), VersionNode(v))
  }

  function VersionEdges(artifactId: string, eventIds: set<string>): Version -> seq<Edge> {
    (v: Version) =>
      var ver := NodeId(VersionKind, v.versionId);
      if VersionShown(v, eventIds) then
        [MakeEdge(HasVersion, NodeId(ArtifactKind, artifactId), ver),
         MakeEdge(VersionSourceEvent, ver, NodeId(EventKind, v.sourceEventId))]
      else []
  }

  function ArtifactNodes(versions: map<string, seq<Version>>, eventIds: set<string>, states: StateMap)
    : Artifact -> seq<Node>
  {
    (a: Artifact) => [ArtifactNode(a, states)] + FlatMap(VersionNodes(eventIds), VersionsOf(versions, a.artifactId))
  }

  function ArtifactEdges(versions: map<string, seq<Version>>, eventIds: set<string>): Artifact -> seq<Edge> {
    (a: Artifact) => FlatMap(VersionEdges(a.artifactId, eventIds), VersionsOf(versions, a.artifactId))
  }

  function DecisionNodes(states: StateMap): Decision -> seq<Node> {
    (d: Decision) => [DecisionNode(d, states)]
  }

  function DecisionEdges(eventIds: set<string>): Decision -> seq<Edge> {
    (d: Decision) =>
      When(Given(d.eventId) && d.eventId.value in eventIds,
           MakeEdge(DecisionSourceEvent, NodeId(DecisionKind, d.decisionId), NodeId(EventKind, OrEmpty(d.eventId))))
  }

  function RuleNodes(states: StateMap): BoundaryRule -> seq<Node> {
    (r: BoundaryRule) => [RuleNode(r, states)]
  }

  function PlanNodes(): ChronicleEvent -> seq<Node> {
    (e: ChronicleEvent) => Map(PlanNode, PlansIn(e))
  }

  function RefMetadata(k: EdgeKind, ref: PlanRef): Fields {
    if k.Warns? then map[KWarnings := ref.warnings] else map[]
  }

  function RefEdges(k: EdgeKind, planId: string, contextIds: set<string>): PlanRef -> seq<Edge> {
    (ref: PlanRef) =>
      When(ref.contextId in contextIds,
           MakeEdge(k, NodeId(PlanKind, planId), NodeId(ContextKind, ref.contextId), RefMetadata(k, ref)))
  }

  function SectionEdges(contextIds: set<string>): Plan -> seq<Edge> {
    (p: Plan) =>
      FlatMap(RefEdges(Selects, p.planId, contextIds), p.selected)
      + FlatMap(RefEdges(Warns, p.planId, contextIds), p.warned)
      + FlatMap(RefEdges(Excludes, p.planId, contextIds), p.excluded)
  }

  function PlanEdges(contextIds: set<string>): ChronicleEvent -> seq<Edge> {
    (e: ChronicleEvent) => FlatMap(SectionEdges(contextIds), PlansIn(e))
  }

  // ----- The whole export ----------------------------------------------------------------------

  ghost function RawNodes(c: Chronicle, v: Visible, states: StateMap): seq<Node> {
    [MakeNode(ChronicleKind, c.chronicleId, c.title, "", map[])]
    + FlatMap(EventNodes(states), v.events)
    + FlatMap(ContextNodes(states), v.contexts)
    + FlatMap(ArtifactNodes(c.versions, v.EventIds(), states), v.artifacts)
    + FlatMap(DecisionNodes(states), v.decisions)
    + FlatMap(RuleNodes(states), v.rules)
    + FlatMap(PlanNodes(), v.events)
  }

  function RawEdges(c: Chronicle, v: Visible): seq<Edge> {
    FlatMap(EventEdges(c.chronicleId, v), v.events)
    + FlatMap(ContextEdges(), v.contexts)
    + FlatMap(ArtifactEdges(c.versions, v.EventIds()), v.artifacts)
    + FlatMap(DecisionEdges(v.EventIds()), v.decisions)
    + FlatMap(PlanEdges(v.ContextIds()), v.events)
  }

  function NodeIds(nodes: seq<Node>): set<string> {
    set n | n in nodes :: n.nodeId
  }

  /** Both endpoints are exported nodes. */
  function Closed(ids: set<string>): Edge -> bool {
    (e: Edge) => e.fromNodeId in ids && e.toNodeId in ids
  }

  ghost function ExportNodes(c: Chronicle, states: StateMap): seq<Node> {
    Sort(NodeKey, RawNodes(c, VisibleIn(c, states), states))
  }

  ghost function ExportEdges(c: Chronicle, states: StateMap): seq<Edge> {
    Sort(EdgeKey, Filter(Closed(NodeIds(ExportNodes(c, states))), RawEdges(c, VisibleIn(c, states))))
  }

  function VisibleIds(v: Visible): seq<string> {
    Map((a: Artifact) => a.artifactId, v.artifacts) + Map((c: Context) => c.contextId, v.contexts)
    + Map((d: Decision) => d.decisionId, v.decisions) + Map((r: BoundaryRule) => r.ruleId, v.rules)
  }

  // The counts the manifest reports: by subtraction, as the code computes them.

  function RecordsHidden(c: Chronicle, v: Visible): int {
    |c.artifacts| + |c.contexts| + |c.decisions| + |c.rules|
    - |v.artifacts| - |v.contexts| - |v.decisions| - |v.rules|
  }

  function EventsHidden(c: Chronicle, v: Visible): int {
    |c.events| - |v.events|
  }

  function SealedCount(v: Visible, states: StateMap): nat {
    |Filter(SealedIn(states), VisibleIds(v))|
  }

  function Notes(c: Chronicle, v: Visible, states: StateMap): seq<Note> {
    NotesOf(RecordsHidden(c, v), EventsHidden(c, v), SealedCount(v, states))
  }

  function NotesOf(records: int, events: int, sealed: int): seq<Note> {
    When(records != 0, RecordsExcluded(records)) + When(events != 0, EventsExcluded(events))
    + When(sealed != 0, SealedRecords(sealed))
  }

  /** Every visible plan event can be read. */
  ghost predicate PlansReadable(v: Visible) {
    forall e :: e in v.events ==> Readable(e)
  }

  ghost function Export(c: Chronicle, states: StateMap): Result<GraphView, ExportError> {
    var v := VisibleIn(c, states);
    if PlansReadable(v) then
      Success(GraphView(c.chronicleId, ExportNodes(c, states), ExportEdges(c, states), Notes(c, v, states)))
    else Failure(MalformedPlan)
  }
}
