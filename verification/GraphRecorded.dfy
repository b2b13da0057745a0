/** The exported graph read off the stored records, with every field and identifier written out. */
module GraphRecorded {
  import opened Wrappers
  import opened Sequences
  import opened Ordering
  import opened Records
  import opened Lifecycle
  import opened GraphExport
  import opened GraphContents
  import opened GraphLaws

  // ----- Identifiers ------------------------------------------------------------------------------

  function NodeNamed(kind: string, id: string): string {
    "n_" + kind + "_" + id
  }

  /** An edge between two records, named by kinds and ids. */
  function Link(prefix: string, k: EdgeKind, from: string, fromId: string, to: string, toId: string, metadata: Fields)
    : Edge
  {
    Edge("e_" + prefix + "_" + NodeNamed(from, fromId) + "_" + NodeNamed(to, toId), k,
         NodeNamed(from, fromId), NodeNamed(to, toId), metadata)
  }

  lemma LinkIsMade(k: EdgeKind, from: NodeKind, fromId: string, to: NodeKind, toId: string, metadata: Fields)
    ensures Link(EdgePrefix(k), k, KindName(from), fromId, KindName(to), toId, metadata)
            == MakeEdge(k, NodeId(from, fromId), NodeId(to, toId), metadata)
  {
  }

  // ----- Recorded injection plans -----------------------------------------------------------------

  /** The plan of an event: the dictionary in its payload, with its id. */
  ghost predicate PlanEvent(e: ChronicleEvent, m: Fields, pid: string) {
    e.eventType == InjectionPlanRecorded && KInjectionPlan in e.payload && e.payload[KInjectionPlan] == Dict(m)
    && KPlanId in m && m[KPlanId] == Str(pid)
  }

  /** An entry of a list in the plan, about a context. */
  ghost predicate ListedIn(section: Key, m: Fields, entry: Fields, cid: string) {
    section in m && m[section].List? && Dict(entry) in m[section].items
    && KContextId in entry && entry[KContextId] == Str(cid)
  }

  /** The warnings of an entry: an empty list when it has none. */
  function WarningsIn(entry: Fields): Json {
    if KWarnings in entry then entry[KWarnings] else List([])
  }

  lemma {:induction false} RefsMember(items: seq<Json>, ref: PlanRef)
    requires ReadRefs(items).Some?
    ensures ref in ReadRefs(items).value <==>
              exists entry: Fields :: Dict(entry) in items && KContextId in entry
                && entry[KContextId] == Str(ref.contextId) && ref.warnings == WarningsIn(entry)
  {
    if items != [] {
      RefsMember(items[1..], ref);
      var first, rest := ReadRef(items[0]).value, ReadRefs(items[1..]).value;
      assert ReadRefs(items).value == first + rest;
      assert forall j :: j in items <==> j == items[0] || j in items[1..];
      assert items[0].Dict?;
    }
  }

  lemma SectionMember(m: Fields, section: Key, ref: PlanRef)
    requires ReadSection(m, section).Some?
    ensures ref in ReadSection(m, section).value <==>
              exists entry :: ListedIn(section, m, entry, ref.contextId) && ref.warnings == WarningsIn(entry)
  {
    if section in m && m[section].List? {
      RefsMember(m[section].items, ref);
      if ref in ReadSection(m, section).value {
        var entry: Fields :| Dict(entry) in m[section].items && KContextId in entry
          && entry[KContextId] == Str(ref.contextId) && ref.warnings == WarningsIn(entry);
        assert ListedIn(section, m, entry, ref.contextId);
      }
    }
  }

  /** The list of a plan that an edge kind stands for. */
  ghost predicate SectionFor(k: EdgeKind, section: Key) {
    (k == Selects && section == KSelected) || (k == Warns && section == KWarned)
    || (k == Excludes && section == KExcluded)
  }

  lemma PlanRead(e: ChronicleEvent, p: Plan) returns (m: Fields)
    requires p in PlansIn(e)
    ensures PlanEvent(e, m, p.planId) && KTask in m && m[KTask] == Str(p.task)
    ensures ReadSection(m, KSelected) == Some(p.selected) && ReadSection(m, KWarned) == Some(p.warned)
    ensures ReadSection(m, KExcluded) == Some(p.excluded)
  {
    m := e.payload[KInjectionPlan].fields;
  }

  lemma PlanIsRead(e: ChronicleEvent, m: Fields, pid: string) returns (p: Plan)
    requires Readable(e) && PlanEvent(e, m, pid)
    ensures p in PlansIn(e) && p.planId == pid && KTask in m && m[KTask] == Str(p.task)
    ensures ReadSection(m, KSelected) == Some(p.selected) && ReadSection(m, KWarned) == Some(p.warned)
    ensures ReadSection(m, KExcluded) == Some(p.excluded)
  {
    p := PlanFor(e).value.value;
  }

  ghost predicate ContextShows(c: Chronicle, states: StateMap, cid: string) {
    !IsTombstoned(cid, states) && exists x :: x in c.contexts && x.contextId == cid
  }

  ghost predicate EventShows(c: Chronicle, states: StateMap, e: ChronicleEvent) {
    e in c.events && !exists id :: id in TargetIds(e, true) && IsTombstoned(id, states)
  }

  lemma ShownContexts(c: Chronicle, states: StateMap, cid: string)
    ensures cid in VisibleIn(c, states).ContextIds() <==> ContextShows(c, states, cid)
  {
    forall x | true
      ensures x in VisibleIn(c, states).contexts <==> x in c.contexts && !IsTombstoned(x.contextId, states)
    {
      VisibleContext(c, states, x);
    }
  }

  /** A visible event records plan `pid`, with an entry about the visible context `cid` in the list. */
  ghost predicate Recorded(c: Chronicle, states: StateMap, section: Key, e: ChronicleEvent, m: Fields, pid: string,
                           entry: Fields, cid: string) {
    EventShows(c, states, e) && PlanEvent(e, m, pid) && ListedIn(section, m, entry, cid) && ContextShows(c, states, cid)
  }

  function EntryMade(k: EdgeKind, pid: string, entry: Fields, cid: string): Edge {
    MakeEdge(k, NodeId(PlanKind, pid), NodeId(ContextKind, cid), RefMetadata(k, PlanRef(cid, WarningsIn(entry))))
  }

  ghost predicate MadeEdge(c: Chronicle, states: StateMap, k: EdgeKind, section: Key, edge: Edge) {
    exists e, m, pid, entry, cid ::
      Recorded(c, states, section, e, m, pid, entry, cid) && edge == EntryMade(k, pid, entry, cid)
  }

  lemma MadeFromSection(c: Chronicle, states: StateMap, k: EdgeKind, section: Key, edge: Edge)
    requires SectionFor(k, section) && edge.edgeType == k && FromSection(VisibleIn(c, states), edge)
    ensures MadeEdge(c, states, k, section, edge)
  {
    var v := VisibleIn(c, states);
    var e :| e in v.events && FromPlans(v.ContextIds(), PlansIn(e), edge);
    var p, ref :| p in PlansIn(e) && RefEdgeOrigin(v.ContextIds(), p, ref, edge);
    RefIsRecorded(c, states, k, section, e, p, ref, edge);
  }

  lemma RefIsRecorded(c: Chronicle, states: StateMap, k: EdgeKind, section: Key, e: ChronicleEvent, p: Plan,
                      ref: PlanRef, edge: Edge)
    requires SectionFor(k, section) && edge.edgeType == k && e in VisibleIn(c, states).events && p in PlansIn(e)
    requires RefEdgeOrigin(VisibleIn(c, states).ContextIds(), p, ref, edge)
    ensures MadeEdge(c, states, k, section, edge)
  {
    VisibleEvent(c, states, e);
    var m := PlanRead(e, p);
    SectionMember(m, section, ref);
    var entry :| ListedIn(section, m, entry, ref.contextId) && ref.warnings == WarningsIn(entry);
    ShownContexts(c, states, ref.contextId);
    assert Recorded(c, states, section, e, m, p.planId, entry, ref.contextId);
  }

  lemma EntryIsMade(c: Chronicle, states: StateMap, k: EdgeKind, section: Key, e: ChronicleEvent, m: Fields,
                    pid: string, entry: Fields, cid: string)
    requires SectionFor(k, section) && Recorded(c, states, section, e, m, pid, entry, cid) && Readable(e)
    ensures FromSection(VisibleIn(c, states), EntryMade(k, pid, entry, cid))
  {
    var v, edge := VisibleIn(c, states), EntryMade(k, pid, entry, cid);
    VisibleEvent(c, states, e);
    var p := PlanIsRead(e, m, pid);
    var ref := PlanRef(cid, WarningsIn(entry));
    SectionMember(m, section, ref);
    ShownContexts(c, states, cid);
    assert RefEdgeOrigin(v.ContextIds(), p, ref, edge);
    assert FromPlans(v.ContextIds(), PlansIn(e), edge);
  }

  lemma MadeMeans(c: Chronicle, states: StateMap, k: EdgeKind, section: Key, edge: Edge)
    requires PlansReadable(VisibleIn(c, states)) && SectionFor(k, section) && edge.edgeType == k
    ensures MadeEdge(c, states, k, section, edge) <==> FromSection(VisibleIn(c, states), edge)
  {
    if FromSection(VisibleIn(c, states), edge) {
      MadeFromSection(c, states, k, section, edge);
    }
    if MadeEdge(c, states, k, section, edge) {
      MadeIsFromSection(c, states, k, section, edge);
    }
  }

  lemma MadeIsFromSection(c: Chronicle, states: StateMap, k: EdgeKind, section: Key, edge: Edge)
    requires PlansReadable(VisibleIn(c, states)) && SectionFor(k, section) && MadeEdge(c, states, k, section, edge)
    ensures FromSection(VisibleIn(c, states), edge)
  {
    var e, m, pid, entry, cid :|
      Recorded(c, states, section, e, m, pid, entry, cid) && edge == EntryMade(k, pid, entry, cid);
    assert Readable(e) by {
      VisibleEvent(c, states, e);
    }
    EntryIsMade(c, states, k, section, e, m, pid, entry, cid);
  }

  /** The edge for an entry; only a warning carries something, the entry's warnings. */
  function EntryEdge(k: EdgeKind, pid: string, entry: Fields, cid: string): Edge {
    Link(if k == Selects then "ip_selects" else if k == Warns then "ip_warns" else "ip_excludes", k,
         "injection_plan", pid, "context", cid, if k == Warns then map[KWarnings := WarningsIn(entry)] else map[])
  }

  lemma EntryEdgeIsMade(k: EdgeKind, pid: string, entry: Fields, cid: string)
    requires k == Selects || k == Warns || k == Excludes
    ensures EntryEdge(k, pid, entry, cid) == EntryMade(k, pid, entry, cid)
  {
    LinkIsMade(k, PlanKind, pid, ContextKind, cid, RefMetadata(k, PlanRef(cid, WarningsIn(entry))));
  }

  ghost predicate RecordedEdge(c: Chronicle, states: StateMap, k: EdgeKind, section: Key, edge: Edge) {
    exists e, m, pid, entry, cid ::
      Recorded(c, states, section, e, m, pid, entry, cid) && edge == EntryEdge(k, pid, entry, cid)
  }

  lemma RecordedIsMade(c: Chronicle, states: StateMap, k: EdgeKind, section: Key, edge: Edge)
    requires k == Selects || k == Warns || k == Excludes
    ensures RecordedEdge(c, states, k, section, edge) <==> MadeEdge(c, states, k, section, edge)
  {
    if RecordedEdge(c, states, k, section, edge) {
      var e, m, pid, entry, cid :|
        Recorded(c, states, section, e, m, pid, entry, cid) && edge == EntryEdge(k, pid, entry, cid);
      EntryEdgeIsMade(k, pid, entry, cid);
    }
    if MadeEdge(c, states, k, section, edge) {
      var e, m, pid, entry, cid :|
        Recorded(c, states, section, e, m, pid, entry, cid) && edge == EntryMade(k, pid, entry, cid);
      EntryEdgeIsMade(k, pid, entry, cid);
    }
  }

  /**
   * The edges from plans to contexts are exactly those the recorded plans list: `selected` entries
   * select, `warned` entries warn, with their warnings, and `excluded` entries exclude.
   */
  lemma PlanEdgesAsRecorded(c: Chronicle, states: StateMap, k: EdgeKind, section: Key, edge: Edge)
    requires Export(c, states).Success? && SectionFor(k, section) && edge.edgeType == k
    ensures edge in Export(c, states).value.edges <==> RecordedEdge(c, states, k, section, edge)
  {
    SectionExported(c, states, k, section, edge);
  }

  lemma SectionExported(c: Chronicle, states: StateMap, k: EdgeKind, section: Key, edge: Edge)
    requires PlansReadable(VisibleIn(c, states)) && SectionFor(k, section) && edge.edgeType == k
    ensures edge in ExportEdges(c, states) <==> RecordedEdge(c, states, k, section, edge)
  {
    RecordedIsMade(c, states, k, section, edge);
    MadeMeans(c, states, k, section, edge);
    SectionEdgeExported(c, states, edge);
  }

  lemma SectionEdgeExported(c: Chronicle, states: StateMap, edge: Edge)
    requires edge.edgeType == Selects || edge.edgeType == Warns || edge.edgeType == Excludes
    ensures edge in ExportEdges(c, states) <==> FromSection(VisibleIn(c, states), edge)
  {
    EndpointFilterIsExact(c, states, edge);
    SectionOrigin(c, VisibleIn(c, states), edge);
    assert !Dangling(c, states, edge);
  }

  lemma SectionOrigin(c: Chronicle, v: Visible, edge: Edge)
    requires edge.edgeType == Selects || edge.edgeType == Warns || edge.edgeType == Excludes
    ensures EdgeOrigin(c, v, edge) <==> FromSection(v, edge)
  {
  }

  /** A plan's node has the plan's id, and its task for a title. */
  ghost predicate PlanNodeOf(e: ChronicleEvent, m: Fields, pid: string, n: Node) {
    PlanEvent(e, m, pid) && KTask in m && m[KTask].Str?
    && n == Node(NodeNamed("injection_plan", pid), PlanKind, pid, m[KTask].s, "", map[])
  }

  lemma PlanNodeRead(e: ChronicleEvent, n: Node)
    requires Readable(e)
    ensures (exists p :: p in PlansIn(e) && n == PlanNode(p)) <==> exists m, pid :: PlanNodeOf(e, m, pid, n)
  {
    if p :| p in PlansIn(e) && n == PlanNode(p) {
      var m := PlanRead(e, p);
      assert PlanNodeOf(e, m, p.planId, n);
    }
    if m, pid :| PlanNodeOf(e, m, pid, n) {
      var p := PlanIsRead(e, m, pid);
      assert n == PlanNode(p);
    }
  }

  /** Some visible event records a plan with this node. */
  ghost predicate PlanNodeShown(c: Chronicle, states: StateMap, n: Node) {
    exists e, m, pid :: EventShows(c, states, e) && PlanNodeOf(e, m, pid, n)
  }

  lemma PlanNodesAsRecorded(c: Chronicle, states: StateMap, n: Node)
    requires Export(c, states).Success? && n.nodeType == PlanKind
    ensures n in Export(c, states).value.nodes <==> PlanNodeShown(c, states, n)
  {
    var v := VisibleIn(c, states);
    ExportedNodes(c, states, n);
    PlanOrigin(c, states, n);
    if FromPlan(v, n) {
      PlanIsShown(c, states, n);
    }
    if PlanNodeShown(c, states, n) {
      ShownIsPlan(c, states, n);
    }
  }

  lemma PlanOrigin(c: Chronicle, states: StateMap, n: Node)
    requires n.nodeType == PlanKind
    ensures NodeOrigin(c, VisibleIn(c, states), states, n) <==> FromPlan(VisibleIn(c, states), n)
  {
  }

  lemma PlanIsShown(c: Chronicle, states: StateMap, n: Node)
    requires PlansReadable(VisibleIn(c, states)) && FromPlan(VisibleIn(c, states), n)
    ensures PlanNodeShown(c, states, n)
  {
    var e, p :| e in VisibleIn(c, states).events && p in PlansIn(e) && n == PlanNode(p);
    VisibleEvent(c, states, e);
    PlanNodeRead(e, n);
  }

  lemma ShownIsPlan(c: Chronicle, states: StateMap, n: Node)
    requires PlansReadable(VisibleIn(c, states)) && PlanNodeShown(c, states, n)
    ensures FromPlan(VisibleIn(c, states), n)
  {
    var e, m, pid :| EventShows(c, states, e) && PlanNodeOf(e, m, pid, n);
    VisibleEvent(c, states, e);
    PlanNodeRead(e, n);
  }

  // ----- Malformed plans --------------------------------------------------------------------------

  /** A list entry that can be read: a dictionary with a context id that can be looked up. */
  ghost predicate GoodEntry(j: Json) {
    j.Dict? && KContextId in j.fields && !j.fields[KContextId].List? && !j.fields[KContextId].Dict?
  }

  /** A plan list that can be read: absent, a list of good entries, or something empty to iterate over. */
  ghost predicate GoodSection(m: Fields, section: Key) {
    section in m ==>
      m[section] == Str("") || m[section] == Dict(map[])
      || (m[section].List? && forall j :: j in m[section].items ==> GoodEntry(j))
  }

  ghost predicate GoodPlan(j: Json) {
    j.Dict? && KPlanId in j.fields && j.fields[KPlanId].Str? && KTask in j.fields && j.fields[KTask].Str?
    && GoodSection(j.fields, KSelected) && GoodSection(j.fields, KWarned) && GoodSection(j.fields, KExcluded)
  }

  lemma {:induction false} RefsReadable(items: seq<Json>)
    ensures ReadRefs(items).Some? <==> forall j :: j in items ==> GoodEntry(j)
  {
    if items != [] {
      RefsReadable(items[1..]);
      assert forall j :: j in items <==> j == items[0] || j in items[1..];
      assert ReadRef(items[0]).Some? <==> GoodEntry(items[0]);
    }
  }

  lemma SectionReadable(m: Fields, section: Key)
    ensures ReadSection(m, section).Some? <==> GoodSection(m, section)
  {
    if section in m && m[section].List? {
      RefsReadable(m[section].items);
    }
  }

  lemma PlanReadable(j: Json)
    ensures ReadPlan(j).Some? <==> GoodPlan(j)
  {
    if j.Dict? {
      SectionReadable(j.fields, KSelected);
      SectionReadable(j.fields, KWarned);
      SectionReadable(j.fields, KExcluded);
    }
  }

  /** The export fails exactly when some visible event records a plan that cannot be read. */
  lemma ExportFails(c: Chronicle, states: StateMap)
    ensures Export(c, states).Failure? <==>
              exists e :: EventShows(c, states, e) && e.eventType == InjectionPlanRecorded
                && KInjectionPlan in e.payload && !GoodPlan(e.payload[KInjectionPlan])
  {
    var v := VisibleIn(c, states);
    forall e: ChronicleEvent | true
      ensures e in v.events <==> EventShows(c, states, e)
      ensures !Readable(e) <==> e.eventType == InjectionPlanRecorded && KInjectionPlan in e.payload
                                && !GoodPlan(e.payload[KInjectionPlan])
    {
      VisibleEvent(c, states, e);
      if KInjectionPlan in e.payload {
        PlanReadable(e.payload[KInjectionPlan]);
      }
    }
  }

  // ----- Nodes of records -------------------------------------------------------------------------

  /** The note on a record, or an event, with a seal. */
  function SealNote(isSealed: bool): Fields {
    if isSealed then map[KLifecycleWarning := Str("lifecycle_sealed_record")] else map[]
  }

  ghost predicate AboutChronicle(c: Chronicle, n: Node) {
    n == Node(NodeNamed("chronicle", c.chronicleId), ChronicleKind, c.chronicleId, c.title, "", map[])
  }

  ghost predicate AboutEvent(e: ChronicleEvent, states: StateMap, n: Node) {
    n == Node(NodeNamed("event", e.eventId), EventKind, e.eventId, e.summary, EventTypeName(e.eventType),
              SealNote(exists id :: id in TargetIds(e, true) && IsSealed(id, states)))
  }

  ghost predicate AboutContext(x: Context, states: StateMap, n: Node) {
    n == Node(NodeNamed("context", x.contextId), ContextKind, x.contextId, x.title, x.summary,
              map[KScope := Str(x.scope), KVisibility := Str(x.visibilityHint)]
              + SealNote(IsSealed(x.contextId, states)))
  }

  ghost predicate AboutSource(x: Context, n: Node) {
    x.source.Some? && var s := x.source.value;
    n == Node(NodeNamed("source_provenance", x.contextId), SourceKind, x.contextId, s.sourceType, "",
              map[KTool := Str(if s.sourceTool.Some? then s.sourceTool.value else ""),
                  KSession := Str(if s.sourceSession.Some? then s.sourceSession.value else "")])
  }

  ghost predicate AboutArtifact(a: Artifact, states: StateMap, n: Node) {
    n == Node(NodeNamed("artifact", a.artifactId), ArtifactKind, a.artifactId, a.title, a.artifactType,
              map[KVisibility := Str(a.visibilityHint)] + SealNote(IsSealed(a.artifactId, states)))
  }

  ghost predicate AboutVersion(w: Version, n: Node) {
    n == Node(NodeNamed("artifact_version", w.versionId), VersionKind, w.versionId, w.changeSummary, "",
              map[KSourceEventId := Str(w.sourceEventId)])
  }

  ghost predicate AboutDecision(d: Decision, states: StateMap, n: Node) {
    n == Node(NodeNamed("decision", d.decisionId), DecisionKind, d.decisionId,
              if d.reason != "" then d.reason else d.decisionType, "",
              map[KDecisionType := Str(d.decisionType),
                  KEventId := Str(if d.eventId.Some? then d.eventId.value else "")]
              + SealNote(IsSealed(d.decisionId, states)))
  }

  ghost predicate AboutRule(r: BoundaryRule, states: StateMap, n: Node) {
    var value := if r.value.OneValue? then r.value.value else Join(", ", r.value.values);
    n == Node(NodeNamed("boundary_rule", r.ruleId), RuleKind, r.ruleId,
              if r.reason != "" then r.reason else r.ruleType + " " + r.field + " " + r.operator + " " + value, "",
              map[KRuleType := Str(r.ruleType), KField := Str(r.field), KOperator := Str(r.operator)]
              + SealNote(IsSealed(r.ruleId, states)))
  }

  lemma EventNodeIs(e: ChronicleEvent, states: StateMap, n: Node)
    ensures n == EventNode(e, EventSeal(e, states)) <==> AboutEvent(e, states, n)
  {
  }
  lemma ContextNodeIs(x: Context, states: StateMap, n: Node)
    ensures n == ContextNode(x, states) <==> AboutContext(x, states, n)
    ensures (x.source.Some? && n == SourceNode(x, x.source.value)) <==> AboutSource(x, n)
  {
  }
  lemma ArtifactNodeIs(a: Artifact, states: StateMap, n: Node)
    ensures n == ArtifactNode(a, states) <==> AboutArtifact(a, states, n)
  {
  }
  lemma VersionNodeIs(w: Version, n: Node)
    ensures n == VersionNode(w) <==> AboutVersion(w, n)
  {
  }
  lemma DecisionNodeIs(d: Decision, states: StateMap, n: Node)
    ensures n == DecisionNode(d, states) <==> AboutDecision(d, states, n)
  {
  }
  lemma RuleNodeIs(r: BoundaryRule, states: StateMap, n: Node)
    ensures n == RuleNode(r, states) <==> AboutRule(r, states, n)
  {
  }

  /** A listed version of a visible artifact, with no source event or a visible one. */
  ghost predicate VersionShows(c: Chronicle, states: StateMap, a: Artifact, w: Version) {
    && a in c.artifacts && !IsTombstoned(a.artifactId, states)
    && a.artifactId in c.versions && w in c.versions[a.artifactId]
    && (w.sourceEventId == "" || exists e :: EventShows(c, states, e) && e.eventId == w.sourceEventId)
  }

  lemma ShownEventIds(c: Chronicle, states: StateMap, id: string)
    ensures id in VisibleIn(c, states).EventIds() <==> exists e :: EventShows(c, states, e) && e.eventId == id
  {
    forall e: ChronicleEvent | true ensures e in VisibleIn(c, states).events <==> EventShows(c, states, e) {
      VisibleEvent(c, states, e);
    }
  }

  lemma ShownVersions(c: Chronicle, states: StateMap, a: Artifact, w: Version)
    ensures ExportedVersion(c, VisibleIn(c, states), a, w) <==> VersionShows(c, states, a, w)
  {
    VisibleArtifact(c, states, a);
    ShownEventIds(c, states, w.sourceEventId);
  }

  /** What a node says, by kind: it stands for a visible record and shows that record's fields. */
  ghost predicate SaysWhatIsStored(c: Chronicle, states: StateMap, n: Node) {
    match n.nodeType
    case ChronicleKind => AboutChronicle(c, n)
    case EventKind => exists e :: EventShows(c, states, e) && AboutEvent(e, states, n)
    case ContextKind => exists x :: x in c.contexts && !IsTombstoned(x.contextId, states) && AboutContext(x, states, n)
    case SourceKind => exists x :: x in c.contexts && !IsTombstoned(x.contextId, states) && AboutSource(x, n)
    case ArtifactKind =>
      exists a :: a in c.artifacts && !IsTombstoned(a.artifactId, states) && AboutArtifact(a, states, n)
    case VersionKind => exists a, w :: VersionShows(c, states, a, w) && AboutVersion(w, n)
    case DecisionKind =>
      exists d :: d in c.decisions && !IsTombstoned(d.decisionId, states) && AboutDecision(d, states, n)
    case RuleKind => exists r :: r in c.rules && !IsTombstoned(r.ruleId, states) && AboutRule(r, states, n)
    case PlanKind => exists e, m, pid :: EventShows(c, states, e) && PlanNodeOf(e, m, pid, n)
    case RdeKind => false
  }

  lemma EventOrigins(c: Chronicle, states: StateMap, n: Node)
    ensures FromEvent(VisibleIn(c, states), states, n)
            <==> exists e :: EventShows(c, states, e) && AboutEvent(e, states, n)
  {
    forall e: ChronicleEvent | true
      ensures e in VisibleIn(c, states).events <==> EventShows(c, states, e)
      ensures n == EventNode(e, EventSeal(e, states)) <==> AboutEvent(e, states, n)
    {
      VisibleEvent(c, states, e);
      EventNodeIs(e, states, n);
    }
  }

  lemma ContextOrigins(c: Chronicle, states: StateMap, n: Node)
    ensures FromContext(VisibleIn(c, states), states, n)
            <==> exists x :: x in c.contexts && !IsTombstoned(x.contextId, states) && AboutContext(x, states, n)
    ensures FromSource(VisibleIn(c, states), n)
            <==> exists x :: x in c.contexts && !IsTombstoned(x.contextId, states) && AboutSource(x, n)
  {
    forall x: Context | true
      ensures x in VisibleIn(c, states).contexts <==> x in c.contexts && !IsTombstoned(x.contextId, states)
      ensures n == ContextNode(x, states) <==> AboutContext(x, states, n)
      ensures (x.source.Some? && n == SourceNode(x, x.source.value)) <==> AboutSource(x, n)
    {
      VisibleContext(c, states, x);
      ContextNodeIs(x, states, n);
    }
  }

  lemma ArtifactOrigins(c: Chronicle, states: StateMap, n: Node)
    ensures FromArtifact(VisibleIn(c, states), states, n)
            <==> exists a :: a in c.artifacts && !IsTombstoned(a.artifactId, states) && AboutArtifact(a, states, n)
    ensures FromVersion(c, VisibleIn(c, states), n)
            <==> exists a, w :: VersionShows(c, states, a, w) && AboutVersion(w, n)
  {
    forall a: Artifact | true
      ensures a in VisibleIn(c, states).artifacts <==> a in c.artifacts && !IsTombstoned(a.artifactId, states)
      ensures n == ArtifactNode(a, states) <==> AboutArtifact(a, states, n)
    {
      VisibleArtifact(c, states, a);
      ArtifactNodeIs(a, states, n);
    }
    forall a: Artifact, w: Version | true
      ensures ExportedVersion(c, VisibleIn(c, states), a, w) <==> VersionShows(c, states, a, w)
      ensures n == VersionNode(w) <==> AboutVersion(w, n)
    {
      ShownVersions(c, states, a, w);
      VersionNodeIs(w, n);
    }
  }

  lemma DecisionOrigins(c: Chronicle, states: StateMap, n: Node)
    ensures FromDecision(VisibleIn(c, states), states, n)
            <==> exists d :: d in c.decisions && !IsTombstoned(d.decisionId, states) && AboutDecision(d, states, n)
  {
    forall d: Decision | true
      ensures d in VisibleIn(c, states).decisions <==> d in c.decisions && !IsTombstoned(d.decisionId, states)
      ensures n == DecisionNode(d, states) <==> AboutDecision(d, states, n)
    {
      VisibleDecision(c, states, d);
      DecisionNodeIs(d, states, n);
    }
  }

  lemma RuleOrigins(c: Chronicle, states: StateMap, n: Node)
    ensures FromRule(VisibleIn(c, states), states, n)
            <==> exists r :: r in c.rules && !IsTombstoned(r.ruleId, states) && AboutRule(r, states, n)
  {
    forall r: BoundaryRule | true
      ensures r in VisibleIn(c, states).rules <==> r in c.rules && !IsTombstoned(r.ruleId, states)
      ensures n == RuleNode(r, states) <==> AboutRule(r, states, n)
    {
      VisibleRule(c, states, r);
      RuleNodeIs(r, states, n);
    }
  }

  lemma ExportedOrigin(c: Chronicle, states: StateMap, n: Node)
    requires Export(c, states).Success?
    ensures n in Export(c, states).value.nodes <==> NodeOrigin(c, VisibleIn(c, states), states, n)
  {
    ExportedNodes(c, states, n);
  }

  /** The exported nodes are exactly those that say what is stored about something visible. */
  lemma NodesAsStored(c: Chronicle, states: StateMap, n: Node)
    requires Export(c, states).Success?
    ensures n in Export(c, states).value.nodes <==> SaysWhatIsStored(c, states, n)
  {
    ExportedOrigin(c, states, n);
    match n.nodeType
    case ChronicleKind =>
    case EventKind => EventOrigins(c, states, n);
    case ContextKind => ContextOrigins(c, states, n);
    case SourceKind => ContextOrigins(c, states, n);
    case ArtifactKind => ArtifactOrigins(c, states, n);
    case VersionKind => ArtifactOrigins(c, states, n);
    case DecisionKind => DecisionOrigins(c, states, n);
    case RuleKind => RuleOrigins(c, states, n);
    case PlanKind => PlanNodesAsRecorded(c, states, n);
    case RdeKind =>
  }

  // ----- Edges of records -------------------------------------------------------------------------

  ghost predicate ArtifactShows(c: Chronicle, states: StateMap, id: string) {
    !IsTombstoned(id, states) && exists a :: a in c.artifacts && a.artifactId == id
  }

  ghost predicate DecisionShows(c: Chronicle, states: StateMap, id: string) {
    !IsTombstoned(id, states) && exists d :: d in c.decisions && d.decisionId == id
  }

  lemma ShownArtifacts(c: Chronicle, states: StateMap, id: string)
    ensures id in VisibleIn(c, states).ArtifactIds() <==> ArtifactShows(c, states, id)
  {
    forall a | true
      ensures a in VisibleIn(c, states).artifacts <==> a in c.artifacts && !IsTombstoned(a.artifactId, states)
    {
      VisibleArtifact(c, states, a);
    }
  }

  lemma ShownDecisions(c: Chronicle, states: StateMap, id: string)
    ensures id in VisibleIn(c, states).DecisionIds() <==> DecisionShows(c, states, id)
  {
    forall d | true
      ensures d in VisibleIn(c, states).decisions <==> d in c.decisions && !IsTombstoned(d.decisionId, states)
    {
      VisibleDecision(c, states, d);
    }
  }

  /** The edges an event gives: from the chronicle, to the artifact and the decision it names, to its plan. */
  ghost predicate LinksEvent(c: Chronicle, states: StateMap, e: ChronicleEvent, edge: Edge) {
    match edge.edgeType
    case HasEvent =>
      edge == Link("chronicle_has_event", HasEvent, "chronicle", c.chronicleId, "event", e.eventId, map[])
    case CreatesArtifact =>
      e.eventType == ArtifactCreated && e.artifactId.Some? && e.artifactId.value != ""
      && ArtifactShows(c, states, e.artifactId.value)
      && edge == Link("event_artifact", CreatesArtifact, "event", e.eventId, "artifact", e.artifactId.value, map[])
    case UpdatesArtifact =>
      e.eventType != ArtifactCreated && e.artifactId.Some? && e.artifactId.value != ""
      && ArtifactShows(c, states, e.artifactId.value)
      && edge == Link("event_artifact", UpdatesArtifact, "event", e.eventId, "artifact", e.artifactId.value, map[])
    case RecordsDecision =>
      e.decisionId.Some? && e.decisionId.value != "" && DecisionShows(c, states, e.decisionId.value)
      && edge == Link("event_records_decision", RecordsDecision, "event", e.eventId, "decision", e.decisionId.value,
                      map[])
    case RecordsPlan =>
      exists m, pid :: PlanEvent(e, m, pid)
        && edge == Link("event_records_injection_plan", RecordsPlan, "event", e.eventId, "injection_plan", pid, map[])
    case _ => false
  }

  lemma EventLinks(c: Chronicle, states: StateMap, e: ChronicleEvent, edge: Edge)
    requires edge.edgeType in {HasEvent, CreatesArtifact, UpdatesArtifact, RecordsDecision}
    ensures EventEdgeOrigin(c.chronicleId, VisibleIn(c, states), e, edge) <==> LinksEvent(c, states, e, edge)
  {
    LinkIsMade(HasEvent, ChronicleKind, c.chronicleId, EventKind, e.eventId, map[]);
    if e.artifactId.Some? {
      ShownArtifacts(c, states, e.artifactId.value);
      LinkIsMade(CreatesArtifact, EventKind, e.eventId, ArtifactKind, e.artifactId.value, map[]);
      LinkIsMade(UpdatesArtifact, EventKind, e.eventId, ArtifactKind, e.artifactId.value, map[]);
    }
    if e.decisionId.Some? {
      ShownDecisions(c, states, e.decisionId.value);
      LinkIsMade(RecordsDecision, EventKind, e.eventId, DecisionKind, e.decisionId.value, map[]);
    }
  }

  lemma PlanLinks(c: Chronicle, states: StateMap, e: ChronicleEvent, edge: Edge)
    requires edge.edgeType == RecordsPlan && Readable(e)
    ensures EventEdgeOrigin(c.chronicleId, VisibleIn(c, states), e, edge) <==> LinksEvent(c, states, e, edge)
  {
    forall pid | true
      ensures MakeEdge(RecordsPlan, NodeId(EventKind, e.eventId), NodeId(PlanKind, pid))
              == Link("event_records_injection_plan", RecordsPlan, "event", e.eventId, "injection_plan", pid, map[])
    {
      LinkIsMade(RecordsPlan, EventKind, e.eventId, PlanKind, pid, map[]);
    }
    if p :| p in PlansIn(e) && edge == MakeEdge(RecordsPlan, NodeId(EventKind, e.eventId), NodeId(PlanKind, p.planId)) {
      var m := PlanRead(e, p);
    }
    if LinksEvent(c, states, e, edge) {
      var m, pid :| PlanEvent(e, m, pid)
        && edge == Link("event_records_injection_plan", RecordsPlan, "event", e.eventId, "injection_plan", pid, map[]);
      var p := PlanIsRead(e, m, pid);
    }
  }

  ghost predicate SaysEventLink(c: Chronicle, states: StateMap, edge: Edge) {
    exists e :: EventShows(c, states, e) && LinksEvent(c, states, e, edge)
  }

  lemma EventEdgesLinked(c: Chronicle, states: StateMap, edge: Edge)
    requires PlansReadable(VisibleIn(c, states))
    requires edge.edgeType in {HasEvent, CreatesArtifact, UpdatesArtifact, RecordsDecision, RecordsPlan}
    ensures FromEventEdge(c, VisibleIn(c, states), edge) <==> SaysEventLink(c, states, edge)
  {
    forall e: ChronicleEvent | true
      ensures e in VisibleIn(c, states).events <==> EventShows(c, states, e)
      ensures e in VisibleIn(c, states).events ==>
                (EventEdgeOrigin(c.chronicleId, VisibleIn(c, states), e, edge) <==> LinksEvent(c, states, e, edge))
    {
      VisibleEvent(c, states, e);
      if e in VisibleIn(c, states).events {
        if edge.edgeType == RecordsPlan {
          PlanLinks(c, states, e, edge);
        } else {
          EventLinks(c, states, e, edge);
        }
      }
    }
  }

  /** A version with its artifact, and with its source event when that is visible. */
  ghost predicate LinksVersion(c: Chronicle, states: StateMap, a: Artifact, w: Version, edge: Edge) {
    if edge.edgeType == HasVersion then
      edge == Link("artifact_has_version", HasVersion, "artifact", a.artifactId, "artifact_version", w.versionId, map[])
    else
      (exists e :: EventShows(c, states, e) && e.eventId == w.sourceEventId)
      && edge == Link("version_source_event", VersionSourceEvent, "artifact_version", w.versionId, "event",
                      w.sourceEventId, map[])
  }

  ghost predicate LinksSource(x: Context, edge: Edge) {
    x.source.Some?
    && edge == Link("context_has_source", HasSource, "context", x.contextId, "source_provenance", x.contextId, map[])
  }

  ghost predicate LinksDecision(c: Chronicle, states: StateMap, d: Decision, edge: Edge) {
    d.eventId.Some? && d.eventId.value != "" && (exists e :: EventShows(c, states, e) && e.eventId == d.eventId.value)
    && edge == Link("decision_source_event", DecisionSourceEvent, "decision", d.decisionId, "event", d.eventId.value,
                    map[])
  }

  /** An edge of a plan says what a section of it lists: selected, warned or excluded. */
  ghost predicate SaysSection(c: Chronicle, states: StateMap, edge: Edge) {
    var section := if edge.edgeType == Selects then KSelected
                   else if edge.edgeType == Warns then KWarned else KExcluded;
    RecordedEdge(c, states, edge.edgeType, section, edge)
  }

  /** What an edge says, by type; RDE edges are built but never kept. */
  ghost predicate SaysWhatIsLinked(c: Chronicle, states: StateMap, edge: Edge) {
    match edge.edgeType
    case HasSource => exists x :: x in c.contexts && !IsTombstoned(x.contextId, states) && LinksSource(x, edge)
    case HasVersion => exists a, w :: VersionShows(c, states, a, w) && LinksVersion(c, states, a, w, edge)
    case VersionSourceEvent => exists a, w :: VersionShows(c, states, a, w) && LinksVersion(c, states, a, w, edge)
    case DecisionSourceEvent =>
      exists d :: d in c.decisions && !IsTombstoned(d.decisionId, states) && LinksDecision(c, states, d, edge)
    case RecordsRde => false
    case Selects => SaysSection(c, states, edge)
    case Warns => SaysSection(c, states, edge)
    case Excludes => SaysSection(c, states, edge)
    case _ => SaysEventLink(c, states, edge)
  }

  lemma SourcesLinked(c: Chronicle, states: StateMap, edge: Edge)
    ensures FromSourceEdge(VisibleIn(c, states), edge)
            <==> exists x :: x in c.contexts && !IsTombstoned(x.contextId, states) && LinksSource(x, edge)
  {
    forall x: Context | true
      ensures x in VisibleIn(c, states).contexts <==> x in c.contexts && !IsTombstoned(x.contextId, states)
      ensures MakeEdge(HasSource, NodeId(ContextKind, x.contextId), NodeId(SourceKind, x.contextId))
              == Link("context_has_source", HasSource, "context", x.contextId, "source_provenance", x.contextId, map[])
    {
      VisibleContext(c, states, x);
      LinkIsMade(HasSource, ContextKind, x.contextId, SourceKind, x.contextId, map[]);
    }
  }

  lemma VersionsLinked(c: Chronicle, states: StateMap, edge: Edge)
    requires edge.edgeType == HasVersion
    ensures FromHasVersion(c, VisibleIn(c, states), edge)
            <==> exists a, w :: VersionShows(c, states, a, w) && LinksVersion(c, states, a, w, edge)
  {
    forall a: Artifact, w: Version | true
      ensures ExportedVersion(c, VisibleIn(c, states), a, w) <==> VersionShows(c, states, a, w)
      ensures MakeEdge(HasVersion, NodeId(ArtifactKind, a.artifactId), NodeId(VersionKind, w.versionId))
              == Link("artifact_has_version", HasVersion, "artifact", a.artifactId, "artifact_version", w.versionId,
                      map[])
    {
      ShownVersions(c, states, a, w);
      LinkIsMade(HasVersion, ArtifactKind, a.artifactId, VersionKind, w.versionId, map[]);
    }
  }

  lemma VersionSourcesLinked(c: Chronicle, states: StateMap, edge: Edge)
    requires edge.edgeType == VersionSourceEvent
    ensures FromVersionSource(c, VisibleIn(c, states), edge) && !Dangling(c, states, edge)
            <==> exists a, w :: VersionShows(c, states, a, w) && LinksVersion(c, states, a, w, edge)
  {
    forall a: Artifact, w: Version | true
      ensures ExportedVersion(c, VisibleIn(c, states), a, w) <==> VersionShows(c, states, a, w)
      ensures w.sourceEventId in VisibleIn(c, states).EventIds()
              <==> exists e :: EventShows(c, states, e) && e.eventId == w.sourceEventId
      ensures MakeEdge(VersionSourceEvent, NodeId(VersionKind, w.versionId), NodeId(EventKind, w.sourceEventId))
              == Link("version_source_event", VersionSourceEvent, "artifact_version", w.versionId, "event",
                      w.sourceEventId, map[])
      ensures NodeId(EventKind, w.sourceEventId) == NodeId(EventKind, "") <==> w.sourceEventId == ""
    {
      ShownVersions(c, states, a, w);
      ShownEventIds(c, states, w.sourceEventId);
      LinkIsMade(VersionSourceEvent, VersionKind, w.versionId, EventKind, w.sourceEventId, map[]);
      NodeIdAmbiguity(EventKind, w.sourceEventId, EventKind, "");
    }
  }

  lemma DecisionsLinked(c: Chronicle, states: StateMap, edge: Edge)
    ensures FromDecisionSource(VisibleIn(c, states), edge)
            <==> exists d :: d in c.decisions && !IsTombstoned(d.decisionId, states)
                   && LinksDecision(c, states, d, edge)
  {
    forall d: Decision | true
      ensures d in VisibleIn(c, states).decisions <==> d in c.decisions && !IsTombstoned(d.decisionId, states)
      ensures d.eventId.Some? ==>
                (d.eventId.value in VisibleIn(c, states).EventIds()
                 <==> exists e :: EventShows(c, states, e) && e.eventId == d.eventId.value)
      ensures d.eventId.Some? ==>
                MakeEdge(DecisionSourceEvent, NodeId(DecisionKind, d.decisionId), NodeId(EventKind, d.eventId.value))
                == Link("decision_source_event", DecisionSourceEvent, "decision", d.decisionId, "event",
                        d.eventId.value, map[])
    {
      VisibleDecision(c, states, d);
      if d.eventId.Some? {
        ShownEventIds(c, states, d.eventId.value);
        LinkIsMade(DecisionSourceEvent, DecisionKind, d.decisionId, EventKind, d.eventId.value, map[]);
      }
    }
  }

  lemma ExportedEdge(c: Chronicle, states: StateMap, edge: Edge)
    requires Export(c, states).Success?
    ensures edge in Export(c, states).value.edges
            <==> EdgeOrigin(c, VisibleIn(c, states), edge) && !Dangling(c, states, edge)
  {
    EndpointFilterIsExact(c, states, edge);
  }

  lemma EventKindOrigin(c: Chronicle, v: Visible, edge: Edge)
    requires edge.edgeType in {HasEvent, CreatesArtifact, UpdatesArtifact, RecordsDecision, RecordsPlan}
    ensures EdgeOrigin(c, v, edge) <==> FromEventEdge(c, v, edge)
  {
  }

  lemma RecordKindOrigin(c: Chronicle, v: Visible, edge: Edge)
    ensures edge.edgeType == HasSource ==> (EdgeOrigin(c, v, edge) <==> FromSourceEdge(v, edge))
    ensures edge.edgeType == HasVersion ==> (EdgeOrigin(c, v, edge) <==> FromHasVersion(c, v, edge))
    ensures edge.edgeType == VersionSourceEvent ==> (EdgeOrigin(c, v, edge) <==> FromVersionSource(c, v, edge))
    ensures edge.edgeType == DecisionSourceEvent ==> (EdgeOrigin(c, v, edge) <==> FromDecisionSource(v, edge))
  {
  }

  lemma NeverDangling(c: Chronicle, states: StateMap, edge: Edge)
    requires edge.edgeType != RecordsRde && edge.edgeType != VersionSourceEvent
    ensures !Dangling(c, states, edge)
  {
  }

  ghost predicate LinkedExactly(c: Chronicle, states: StateMap, edge: Edge) {
    edge in ExportEdges(c, states) <==> SaysWhatIsLinked(c, states, edge)
  }

  lemma EventLinksExactly(c: Chronicle, states: StateMap, edge: Edge)
    requires PlansReadable(VisibleIn(c, states))
    requires edge.edgeType in {HasEvent, CreatesArtifact, UpdatesArtifact, RecordsDecision, RecordsPlan}
    ensures LinkedExactly(c, states, edge)
  {
    EndpointFilterIsExact(c, states, edge);
    NeverDangling(c, states, edge);
    EventKindOrigin(c, VisibleIn(c, states), edge);
    EventEdgesLinked(c, states, edge);
  }

  lemma SourceLinksExactly(c: Chronicle, states: StateMap, edge: Edge)
    requires edge.edgeType == HasSource
    ensures LinkedExactly(c, states, edge)
  {
    EndpointFilterIsExact(c, states, edge);
    NeverDangling(c, states, edge);
    RecordKindOrigin(c, VisibleIn(c, states), edge);
    SourcesLinked(c, states, edge);
  }

  lemma VersionLinksExactly(c: Chronicle, states: StateMap, edge: Edge)
    requires edge.edgeType == HasVersion
    ensures LinkedExactly(c, states, edge)
  {
    EndpointFilterIsExact(c, states, edge);
    NeverDangling(c, states, edge);
    RecordKindOrigin(c, VisibleIn(c, states), edge);
    VersionsLinked(c, states, edge);
  }

  lemma VersionSourceLinksExactly(c: Chronicle, states: StateMap, edge: Edge)
    requires edge.edgeType == VersionSourceEvent
    ensures LinkedExactly(c, states, edge)
  {
    EndpointFilterIsExact(c, states, edge);
    RecordKindOrigin(c, VisibleIn(c, states), edge);
    VersionSourcesLinked(c, states, edge);
  }

  lemma DecisionLinksExactly(c: Chronicle, states: StateMap, edge: Edge)
    requires edge.edgeType == DecisionSourceEvent
    ensures LinkedExactly(c, states, edge)
  {
    EndpointFilterIsExact(c, states, edge);
    NeverDangling(c, states, edge);
    RecordKindOrigin(c, VisibleIn(c, states), edge);
    DecisionsLinked(c, states, edge);
  }

  lemma RdeLinksExactly(c: Chronicle, states: StateMap, edge: Edge)
    requires edge.edgeType == RecordsRde
    ensures LinkedExactly(c, states, edge)
  {
    EndpointFilterIsExact(c, states, edge);
  }

  lemma SectionSaid(c: Chronicle, states: StateMap, edge: Edge)
    requires PlansReadable(VisibleIn(c, states))
    requires edge.edgeType == Selects || edge.edgeType == Warns || edge.edgeType == Excludes
    ensures edge in ExportEdges(c, states) <==> SaysSection(c, states, edge)
  {
    var section := if edge.edgeType == Selects then KSelected
                   else if edge.edgeType == Warns then KWarned else KExcluded;
    SectionExported(c, states, edge.edgeType, section, edge);
  }

  lemma SectionLinksExactly(c: Chronicle, states: StateMap, edge: Edge)
    requires PlansReadable(VisibleIn(c, states))
    requires edge.edgeType == Selects || edge.edgeType == Warns || edge.edgeType == Excludes
    ensures LinkedExactly(c, states, edge)
  {
    SectionSaid(c, states, edge);
  }

  /** The exported edges are exactly those that say what is stored to belong together. */
  lemma EdgesAsStored(c: Chronicle, states: StateMap, edge: Edge)
    requires Export(c, states).Success?
    ensures edge in Export(c, states).value.edges <==> SaysWhatIsLinked(c, states, edge)
  {
    match edge.edgeType
    case HasSource => SourceLinksExactly(c, states, edge);
    case HasVersion => VersionLinksExactly(c, states, edge);
    case VersionSourceEvent => VersionSourceLinksExactly(c, states, edge);
    case DecisionSourceEvent => DecisionLinksExactly(c, states, edge);
    case Selects => SectionLinksExactly(c, states, edge);
    case Warns => SectionLinksExactly(c, states, edge);
    case Excludes => SectionLinksExactly(c, states, edge);
    case RecordsRde => RdeLinksExactly(c, states, edge);
    case _ => EventLinksExactly(c, states, edge);
  }

  // ----- Order and notes ----------------------------------------------------------------------------

  /** Nodes come by type and id, edges by type and ends, in string order. */
  lemma ExportInOrder(c: Chronicle, states: StateMap, i: nat, j: nat)
    requires Export(c, states).Success? && i < j
    ensures var nodes := Export(c, states).value.nodes;
            j < |nodes| ==>
              TupleLeq([KindName(nodes[i].nodeType), nodes[i].sourceId],
                       [KindName(nodes[j].nodeType), nodes[j].sourceId])
    ensures var edges := Export(c, states).value.edges;
            j < |edges| ==>
              TupleLeq([EdgeTypeName(edges[i].edgeType), edges[i].fromNodeId, edges[i].toNodeId],
                       [EdgeTypeName(edges[j].edgeType), edges[j].fromNodeId, edges[j].toNodeId])
  {
    var v := VisibleIn(c, states);
    SortSorted(NodeKey, RawNodes(c, v, states));
    SortSorted(EdgeKey, Filter(Closed(NodeIds(ExportNodes(c, states))), RawEdges(c, v)));
  }

  /** The ids of the records that are shown, those of artifacts first. */
  ghost function ShownIds(c: Chronicle, states: StateMap): seq<string> {
    Filter((id: string) => !IsTombstoned(id, states), RecordIds(c))
  }

  /** The notes give the three numbers that are not zero: tombstoned records, hidden events, sealed records. */
  ghost predicate NotesCount(records: nat, events: nat, isSealed: nat, notes: seq<Note>) {
    notes == (if records != 0 then [RecordsExcluded(records)] else [])
             + (if events != 0 then [EventsExcluded(events)] else [])
             + (if isSealed != 0 then [SealedRecords(isSealed)] else [])
  }

  lemma NotesAsCounted(c: Chronicle, states: StateMap)
    requires Export(c, states).Success?
    ensures NotesCount(|Filter((id: string) => IsTombstoned(id, states), RecordIds(c))|,
                       |Filter((e: ChronicleEvent) => exists id :: id in TargetIds(e, true) && IsTombstoned(id, states),
                               c.events)|,
                       |Filter((id: string) => IsSealed(id, states), ShownIds(c, states))|,
                       Export(c, states).value.notes)
  {
    CountsAreConserved(c, states);
    SameFilter(TombstonedIn(states), (id: string) => IsTombstoned(id, states), RecordIds(c));
    SameFilter(EventHidden(states),
               (e: ChronicleEvent) => exists id :: id in TargetIds(e, true) && IsTombstoned(id, states), c.events);
    ShownIdsAre(c, states);
    SameFilter(SealedIn(states), (id: string) => IsSealed(id, states), ShownIds(c, states));
  }

  lemma {:induction false} SameFilter<T>(p: T -> bool, q: T -> bool, s: seq<T>)
    requires forall x :: x in s ==> p(x) == q(x)
    ensures Filter(p, s) == Filter(q, s)
  {
    if s != [] {
      SameFilter(p, q, s[1..]);
    }
  }

  lemma {:induction false} FilterIds<T>(shown: T -> bool, id: T -> string, states: StateMap, s: seq<T>)
    requires forall x :: x in s ==> (shown(x) <==> !IsTombstoned(id(x), states))
    ensures Filter((i: string) => !IsTombstoned(i, states), Map(id, s)) == Map(id, Filter(shown, s))
  {
    if s != [] {
      FilterIds(shown, id, states, s[1..]);
      assert Map(id, s)[1..] == Map(id, s[1..]);
      assert Map(id, [s[0]] + Filter(shown, s[1..])) == [id(s[0])] + Map(id, Filter(shown, s[1..]));
    }
  }

  lemma ShownIdsAre(c: Chronicle, states: StateMap)
    ensures VisibleIds(VisibleIn(c, states)) == ShownIds(c, states)
  {
    var p := (i: string) => !IsTombstoned(i, states);
    var a, x := (a: Artifact) => a.artifactId, (x: Context) => x.contextId;
    var d, r := (d: Decision) => d.decisionId, (r: BoundaryRule) => r.ruleId;
    FilterIds(ArtifactShown(states), a, states, c.artifacts);
    FilterIds(ContextShown(states), x, states, c.contexts);
    FilterIds(DecisionShown(states), d, states, c.decisions);
    FilterIds(RuleShown(states), r, states, c.rules);
    FilterAppend(p, Map(a, c.artifacts), Map(x, c.contexts));
    FilterAppend(p, Map(a, c.artifacts) + Map(x, c.contexts), Map(d, c.decisions));
    FilterAppend(p, Map(a, c.artifacts) + Map(x, c.contexts) + Map(d, c.decisions), Map(r, c.rules));
    assert RecordIds(c) == Map(a, c.artifacts) + Map(x, c.contexts) + Map(d, c.decisions) + Map(r, c.rules);
    var v := VisibleIn(c, states);
    assert VisibleIds(v) == Map(a, v.artifacts) + Map(x, v.contexts) + Map(d, v.decisions) + Map(r, v.rules);
  }
}
