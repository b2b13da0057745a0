/** The export procedure: loops that grow the node and edge lists, then sort and filter them. */
module GraphExporter {
  import opened Wrappers
  import opened Sequences
  import opened Ordering
  import opened Records
  import opened Lifecycle
  import opened GraphExport

  method VisibleRecords(c: Chronicle, states: StateMap) returns (v: Visible)
    ensures v == VisibleIn(c, states)
  {
    var events: seq<ChronicleEvent> := [];
    for i := 0 to |c.events|
      invariant events == Filter(EventShown(states), c.events[..i])
    {
      FilterStep(EventShown(states), c.events, i);
      var hidden := EventReferencesTombstonedTarget(c.events[i], states, true);
      if !hidden {
        events := events + [c.events[i]];
      }
    }
    assert c.events[..|c.events|] == c.events;
    v := Visible(events, Filter(ContextShown(states), c.contexts), Filter(ArtifactShown(states), c.artifacts),
                 Filter(DecisionShown(states), c.decisions), Filter(RuleShown(states), c.rules));
  }

  /** The targets are visited in whatever order the set yields them. */
  method SealMetadataOf(ids: set<string>, states: StateMap) returns (metadata: Fields)
    ensures metadata == SealOfAny(ids, states)
  {
    metadata := map[];
    var todo := ids;
    ghost var seen: set<string> := {};
    while todo != {}
      invariant seen + todo == ids
      invariant metadata == SealOfAny(seen, states)
      decreases |todo|
    {
      var id :| id in todo;
      metadata := metadata + SealMetadata(id, states);
      todo, seen := todo - {id}, seen + {id};
    }
    assert seen == ids;
  }

  method EventPart(c: Chronicle, v: Visible, states: StateMap)
    returns (readable: bool, nodes: seq<Node>, edges: seq<Edge>)
    ensures readable <==> PlansReadable(v)
    ensures readable ==> nodes == FlatMap(EventNodes(states), v.events)
    ensures readable ==> edges == FlatMap(EventEdges(c.chronicleId, v), v.events)
  {
    nodes, edges := [], [];
    var artifactIds, decisionIds := v.ArtifactIds(), v.DecisionIds();
    for i := 0 to |v.events|
      invariant nodes == FlatMap(EventNodes(states), v.events[..i])
      invariant edges == FlatMap(EventEdges(c.chronicleId, v), v.events[..i])
      invariant AllReadable(v.events[..i])
    {
      var e := v.events[i];
      FlatMapStep(EventNodes(states), v.events, i);
      FlatMapStep(EventEdges(c.chronicleId, v), v.events, i);
      var plan := PlanFor(e);
      if plan.Failure? {
        Unreadable(v, i);
        return false, [], [];
      }
      var node := OneEventNode(e, states);
      var mine := OneEventEdges(c.chronicleId, artifactIds, decisionIds, v, e, plan.value);
      nodes, edges := nodes + node, edges + mine;
      ReadableStep(v.events, i);
    }
    assert v.events[..|v.events|] == v.events;
    AllAreReadable(v);
    readable := true;
  }

  ghost predicate AllReadable(events: seq<ChronicleEvent>) {
    forall j :: 0 <= j < |events| ==> Readable(events[j])
  }

  lemma ReadableStep(events: seq<ChronicleEvent>, i: nat)
    requires i < |events| && AllReadable(events[..i]) && Readable(events[i])
    ensures AllReadable(events[..i + 1])
  {
    assert events[..i + 1] == events[..i] + [events[i]];
  }

  lemma AllAreReadable(v: Visible)
    requires AllReadable(v.events)
    ensures PlansReadable(v)
  {
  }

  lemma Unreadable(v: Visible, i: nat)
    requires i < |v.events| && !Readable(v.events[i])
    ensures !PlansReadable(v)
  {
    assert v.events[i] in v.events;
  }

  method OneEventNode(e: ChronicleEvent, states: StateMap) returns (nodes: seq<Node>)
    ensures nodes == EventNodes(states)(e)
  {
    var ids := EventLifecycleTargetIds(e, true);
    var metadata := SealMetadataOf(ids, states);
    nodes := [EventNode(e, metadata)];
  }

  function ArtifactLink(e: ChronicleEvent, artifactIds: set<string>): seq<Edge> {
    if Given(e.artifactId) && e.artifactId.value in artifactIds then [EventArtifactEdge(e)] else []
  }

  function DecisionLink(e: ChronicleEvent, decisionIds: set<string>): seq<Edge> {
    if Given(e.decisionId) && e.decisionId.value in decisionIds
    then [MakeEdge(RecordsDecision, NodeId(EventKind, e.eventId), NodeId(DecisionKind, e.decisionId.value))] else []
  }

  function RdeLink(e: ChronicleEvent): seq<Edge> {
    if Given(e.rdeRecordId)
    then [MakeEdge(RecordsRde, NodeId(EventKind, e.eventId), NodeId(RdeKind, e.rdeRecordId.value))] else []
  }

  lemma EventEdgesByLink(chronicleId: string, v: Visible, e: ChronicleEvent)
    ensures EventEdges(chronicleId, v)(e)
            == [MakeEdge(HasEvent, NodeId(ChronicleKind, chronicleId), NodeId(EventKind, e.eventId))]
               + ArtifactLink(e, v.ArtifactIds()) + DecisionLink(e, v.DecisionIds()) + RdeLink(e) + EventPlanEdges(e)
  {
  }

  method OneEventEdges(chronicleId: string, artifactIds: set<string>, decisionIds: set<string>, ghost v: Visible,
                       e: ChronicleEvent, plan: Option<Plan>) returns (edges: seq<Edge>)
    requires artifactIds == v.ArtifactIds() && decisionIds == v.DecisionIds()
    requires PlanFor(e) == Success(plan)
    ensures edges == EventEdges(chronicleId, v)(e)
  {
    var from := NodeId(EventKind, e.eventId);
    edges := [MakeEdge(HasEvent, NodeId(ChronicleKind, chronicleId), from)];
    ghost var first := edges;
    if Given(e.artifactId) && e.artifactId.value in artifactIds {
      edges := edges + [EventArtifactEdge(e)];
    }
    assert edges == first + ArtifactLink(e, artifactIds);
    if Given(e.decisionId) && e.decisionId.value in decisionIds {
      edges := edges + [MakeEdge(RecordsDecision, from, NodeId(DecisionKind, e.decisionId.value))];
    }
    assert edges == first + ArtifactLink(e, artifactIds) + DecisionLink(e, decisionIds);
    if Given(e.rdeRecordId) {
      edges := edges + [MakeEdge(RecordsRde, from, NodeId(RdeKind, e.rdeRecordId.value))];
    }
    assert edges == first + ArtifactLink(e, artifactIds) + DecisionLink(e, decisionIds) + RdeLink(e);
    EventEdgesByLink(chronicleId, v, e);
    if plan.Some? {
      assert EventPlanEdges(e) == [MakeEdge(RecordsPlan, from, NodeId(PlanKind, plan.value.planId))];
      edges := edges + [MakeEdge(RecordsPlan, from, NodeId(PlanKind, plan.value.planId))];
    } else {
      assert EventPlanEdges(e) == [];
    }
  }

  method ContextPart(v: Visible, states: StateMap) returns (nodes: seq<Node>, edges: seq<Edge>)
    ensures nodes == FlatMap(ContextNodes(states), v.contexts)
    ensures edges == FlatMap(ContextEdges(), v.contexts)
  {
    nodes, edges := [], [];
    for i := 0 to |v.contexts|
      invariant nodes == FlatMap(ContextNodes(states), v.contexts[..i])
      invariant edges == FlatMap(ContextEdges(), v.contexts[..i])
    {
      var x := v.contexts[i];
      FlatMapStep(ContextNodes(states), v.contexts, i);
      FlatMapStep(ContextEdges(), v.contexts, i);
      nodes := nodes + [ContextNode(x, states)];
      if x.source.Some? {
        nodes := nodes + [SourceNode(x, x.source.value)];
        edges := edges + [MakeEdge(HasSource, NodeId(ContextKind, x.contextId), NodeId(SourceKind, x.contextId))];
      }
    }
    assert v.contexts[..|v.contexts|] == v.contexts;
  }

  method VersionPart(artifactId: string, versions: seq<Version>, eventIds: set<string>)
    returns (nodes: seq<Node>, edges: seq<Edge>)
    ensures nodes == FlatMap(VersionNodes(eventIds), versions)
    ensures edges == FlatMap(VersionEdges(artifactId, eventIds), versions)
  {
    nodes, edges := [], [];
    for i := 0 to |versions|
      invariant nodes == FlatMap(VersionNodes(eventIds), versions[..i])
      invariant edges == FlatMap(VersionEdges(artifactId, eventIds), versions[..i])
    {
      var w := versions[i];
      FlatMapStep(VersionNodes(eventIds), versions, i);
      FlatMapStep(VersionEdges(artifactId, eventIds), versions, i);
      if w.sourceEventId != "" && w.sourceEventId !in eventIds {
        continue;
      }
      var ver := NodeId(VersionKind, w.versionId);
      nodes := nodes + [VersionNode(w)];
      edges := edges + [MakeEdge(HasVersion, NodeId(ArtifactKind, artifactId), ver),
                        MakeEdge(VersionSourceEvent, ver, NodeId(EventKind, w.sourceEventId))];
    }
    assert versions[..|versions|] == versions;
  }

  method ArtifactPart(c: Chronicle, v: Visible, states: StateMap) returns (nodes: seq<Node>, edges: seq<Edge>)
    ensures nodes == FlatMap(ArtifactNodes(c.versions, v.EventIds(), states), v.artifacts)
    ensures edges == FlatMap(ArtifactEdges(c.versions, v.EventIds()), v.artifacts)
  {
    nodes, edges := [], [];
    var eventIds := v.EventIds();
    for i := 0 to |v.artifacts|
      invariant nodes == FlatMap(ArtifactNodes(c.versions, eventIds, states), v.artifacts[..i])
      invariant edges == FlatMap(ArtifactEdges(c.versions, eventIds), v.artifacts[..i])
    {
      var a := v.artifacts[i];
      FlatMapStep(ArtifactNodes(c.versions, eventIds, states), v.artifacts, i);
      FlatMapStep(ArtifactEdges(c.versions, eventIds), v.artifacts, i);
      var versionNodes, versionEdges := VersionPart(a.artifactId, VersionsOf(c.versions, a.artifactId), eventIds);
      nodes := nodes + ([ArtifactNode(a, states)] + versionNodes);
      edges := edges + versionEdges;
    }
    assert v.artifacts[..|v.artifacts|] == v.artifacts;
  }

  method DecisionPart(v: Visible, states: StateMap) returns (nodes: seq<Node>, edges: seq<Edge>)
    ensures nodes == FlatMap(DecisionNodes(states), v.decisions)
    ensures edges == FlatMap(DecisionEdges(v.EventIds()), v.decisions)
  {
    nodes, edges := [], [];
    var eventIds := v.EventIds();
    for i := 0 to |v.decisions|
      invariant nodes == FlatMap(DecisionNodes(states), v.decisions[..i])
      invariant edges == FlatMap(DecisionEdges(eventIds), v.decisions[..i])
    {
      var d := v.decisions[i];
      FlatMapStep(DecisionNodes(states), v.decisions, i);
      FlatMapStep(DecisionEdges(eventIds), v.decisions, i);
      nodes := nodes + [DecisionNode(d, states)];
      if Given(d.eventId) && d.eventId.value in eventIds {
        edges := edges + [MakeEdge(DecisionSourceEvent, NodeId(DecisionKind, d.decisionId),
            NodeId(EventKind, d.eventId.value))];
      }
    }
    assert v.decisions[..|v.decisions|] == v.decisions;
  }

  method RulePart(v: Visible, states: StateMap) returns (nodes: seq<Node>)
    ensures nodes == FlatMap(RuleNodes(states), v.rules)
  {
    nodes := [];
    for i := 0 to |v.rules|
      invariant nodes == FlatMap(RuleNodes(states), v.rules[..i])
    {
      FlatMapStep(RuleNodes(states), v.rules, i);
      nodes := nodes + [RuleNode(v.rules[i], states)];
    }
    assert v.rules[..|v.rules|] == v.rules;
  }

  method SectionPart(k: EdgeKind, planId: string, refs: seq<PlanRef>, contextIds: set<string>)
      returns (edges: seq<Edge>)
    ensures edges == FlatMap(RefEdges(k, planId, contextIds), refs)
  {
    edges := [];
    for i := 0 to |refs|
      invariant edges == FlatMap(RefEdges(k, planId, contextIds), refs[..i])
    {
      FlatMapStep(RefEdges(k, planId, contextIds), refs, i);
      if refs[i].contextId !in contextIds {
        continue;
      }
      edges := edges + [MakeEdge(k, NodeId(PlanKind, planId), NodeId(ContextKind, refs[i].contextId),
          RefMetadata(k, refs[i]))];
    }
    assert refs[..|refs|] == refs;
  }

  method PlanPart(v: Visible) returns (nodes: seq<Node>, edges: seq<Edge>)
    requires PlansReadable(v)
    ensures nodes == FlatMap(PlanNodes(), v.events)
    ensures edges == FlatMap(PlanEdges(v.ContextIds()), v.events)
  {
    nodes, edges := [], [];
    var contextIds := v.ContextIds();
    for i := 0 to |v.events|
      invariant nodes == FlatMap(PlanNodes(), v.events[..i])
      invariant edges == FlatMap(PlanEdges(contextIds), v.events[..i])
    {
      var e := v.events[i];
      FlatMapStep(PlanNodes(), v.events, i);
      FlatMapStep(PlanEdges(contextIds), v.events, i);
      var plan := PlanFor(e);
      if plan.Success? && plan.value.Some? {
        var p := plan.value.value;
        var selects := SectionPart(Selects, p.planId, p.selected, contextIds);
        var warns := SectionPart(Warns, p.planId, p.warned, contextIds);
        var excludes := SectionPart(Excludes, p.planId, p.excluded, contextIds);
        OnePlan(e, p, contextIds);
        nodes := nodes + [PlanNode(p)];
        edges := edges + (selects + warns + excludes);
      }
    }
    assert v.events[..|v.events|] == v.events;
  }

  lemma OnePlan(e: ChronicleEvent, p: Plan, contextIds: set<string>)
    requires PlanFor(e) == Success(Some(p))
    ensures PlanNodes()(e) == [PlanNode(p)]
    ensures PlanEdges(contextIds)(e) == SectionEdges(contextIds)(p)
  {
    assert PlansIn(e) == [p];
    assert FlatMap(SectionEdges(contextIds), [p]) == SectionEdges(contextIds)(p)
        + FlatMap(SectionEdges(contextIds), []);
  }

  method RawGraph(c: Chronicle, v: Visible, states: StateMap)
    returns (readable: bool, nodes: seq<Node>, edges: seq<Edge>)
    ensures readable <==> PlansReadable(v)
    ensures readable ==> nodes == RawNodes(c, v, states) && edges == RawEdges(c, v)
  {
    readable, nodes, edges := EventPart(c, v, states);
    if !readable {
      return;
    }
    nodes := [MakeNode(ChronicleKind, c.chronicleId, c.title, "", map[])] + nodes;
    var ns, es := ContextPart(v, states);
    nodes, edges := nodes + ns, edges + es;
    ns, es := ArtifactPart(c, v, states);
    nodes, edges := nodes + ns, edges + es;
    ns, es := DecisionPart(v, states);
    nodes, edges := nodes + ns, edges + es;
    ns := RulePart(v, states);
    nodes := nodes + ns;
    ns, es := PlanPart(v);
    nodes, edges := nodes + ns, edges + es;
  }

  method BuildNotes(c: Chronicle, v: Visible, states: StateMap, sealedCount: nat) returns (notes: seq<Note>)
    requires sealedCount == SealedCount(v, states)
    ensures notes == Notes(c, v, states)
  {
    notes := [];
    if RecordsHidden(c, v) != 0 {
      notes := notes + [RecordsExcluded(RecordsHidden(c, v))];
    }
    if EventsHidden(c, v) != 0 {
      notes := notes + [EventsExcluded(EventsHidden(c, v))];
    }
    if sealedCount != 0 {
      notes := notes + [SealedRecords(sealedCount)];
    }
  }

  method ExportGraph(c: Chronicle, log: seq<LifecycleEvent>) returns (r: Result<GraphView, ExportError>)
    ensures r == Export(c, StatesOf(log))
  {
    var states := LifecycleStateByTarget(log);
    var v := VisibleRecords(c, states);
    var sealedCount := CountSealedTargets(VisibleIds(v), states);
    var readable, nodes, edges := RawGraph(c, v, states);
    if !readable {
      return Failure(MalformedPlan);
    }
    nodes := Sort(NodeKey, nodes);
    edges := Sort(EdgeKey, Filter(Closed(NodeIds(nodes)), edges));
    var notes := BuildNotes(c, v, states, sealedCount);
    r := Success(GraphView(c.chronicleId, nodes, edges, notes));
  }
}
