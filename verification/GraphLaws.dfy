/** The endpoint filter, what tombstones hide, node identity, and the reported counts. */
module GraphLaws {
  import opened Wrappers
  import opened Sequences
  import opened Ordering
  import opened Records
  import opened Lifecycle
  import opened GraphExport
  import opened GraphContents

  // ----- Which node ids are exported -----------------------------------------------------------

  ghost predicate Exported(c: Chronicle, states: StateMap, nodeId: string) {
    nodeId in NodeIds(ExportNodes(c, states))
  }

  lemma ExportedById(c: Chronicle, states: StateMap, n: Node)
    requires NodeOrigin(c, VisibleIn(c, states), states, n)
    ensures Exported(c, states, n.nodeId)
  {
    ExportedNodes(c, states, n);
  }

  /** The node behind an exported id. */
  lemma NodeBehind(c: Chronicle, states: StateMap, id: string) returns (n: Node)
    requires Exported(c, states, id)
    ensures NodeOrigin(c, VisibleIn(c, states), states, n)
    ensures n.nodeId == id == NodeId(n.nodeType, n.sourceId)
  {
    n :| n in ExportNodes(c, states) && n.nodeId == id;
    ExportedNodes(c, states, n);
    OriginId(c, VisibleIn(c, states), states, n);
  }

  lemma EventExported(c: Chronicle, states: StateMap, id: string)
    ensures Exported(c, states, NodeId(EventKind, id)) <==> id in VisibleIn(c, states).EventIds()
  {
    var v := VisibleIn(c, states);
    if Exported(c, states, NodeId(EventKind, id)) {
      var n := NodeBehind(c, states, NodeId(EventKind, id));
      NodeIdAmbiguity(n.nodeType, n.sourceId, EventKind, id);
      assert FromEvent(v, states, n);
    }
    if id in v.EventIds() {
      var e :| e in v.events && e.eventId == id;
      assert FromEvent(v, states, EventNode(e, EventSeal(e, states)));
      ExportedById(c, states, EventNode(e, EventSeal(e, states)));
    }
  }

  lemma RdeNeverExported(c: Chronicle, states: StateMap, id: string)
    ensures !Exported(c, states, NodeId(RdeKind, id))
  {
    if Exported(c, states, NodeId(RdeKind, id)) {
      var n := NodeBehind(c, states, NodeId(RdeKind, id));
      NodeIdAmbiguity(n.nodeType, n.sourceId, RdeKind, id);
    }
  }

  lemma ContextExported(c: Chronicle, states: StateMap, id: string)
    requires id in VisibleIn(c, states).ContextIds()
    ensures Exported(c, states, NodeId(ContextKind, id))
  {
    var v := VisibleIn(c, states);
    var x :| x in v.contexts && x.contextId == id;
    assert FromContext(v, states, ContextNode(x, states));
    ExportedById(c, states, ContextNode(x, states));
  }

  lemma ArtifactExported(c: Chronicle, states: StateMap, id: string)
    requires id in VisibleIn(c, states).ArtifactIds()
    ensures Exported(c, states, NodeId(ArtifactKind, id))
  {
    var v := VisibleIn(c, states);
    var a :| a in v.artifacts && a.artifactId == id;
    assert FromArtifact(v, states, ArtifactNode(a, states));
    ExportedById(c, states, ArtifactNode(a, states));
  }

  lemma DecisionExported(c: Chronicle, states: StateMap, id: string)
    requires id in VisibleIn(c, states).DecisionIds()
    ensures Exported(c, states, NodeId(DecisionKind, id))
  {
    var v := VisibleIn(c, states);
    var d :| d in v.decisions && d.decisionId == id;
    assert FromDecision(v, states, DecisionNode(d, states));
    ExportedById(c, states, DecisionNode(d, states));
  }

  lemma PlanExported(c: Chronicle, states: StateMap, e: ChronicleEvent, p: Plan)
    requires e in VisibleIn(c, states).events && p in PlansIn(e)
    ensures Exported(c, states, NodeId(PlanKind, p.planId))
  {
    assert FromPlan(VisibleIn(c, states), PlanNode(p));
    ExportedById(c, states, PlanNode(p));
  }

  lemma VersionExported(c: Chronicle, states: StateMap, a: Artifact, w: Version)
    requires ExportedVersion(c, VisibleIn(c, states), a, w)
    ensures Exported(c, states, NodeId(VersionKind, w.versionId))
  {
    assert FromVersion(c, VisibleIn(c, states), VersionNode(w));
    ExportedById(c, states, VersionNode(w));
  }

  lemma ChronicleExported(c: Chronicle, states: StateMap)
    ensures Exported(c, states, NodeId(ChronicleKind, c.chronicleId))
  {
    ExportedById(c, states, MakeNode(ChronicleKind, c.chronicleId, c.title, "", map[]));
  }

  // ----- The endpoint filter ---------------------------------------------------------------------

  ghost predicate BothEnds(c: Chronicle, states: StateMap, edge: Edge) {
    Exported(c, states, edge.fromNodeId) && Exported(c, states, edge.toNodeId)
  }

  /** The two kinds of raw edge without a node at the far end. */
  ghost predicate Dangling(c: Chronicle, states: StateMap, edge: Edge) {
    edge.edgeType == RecordsRde ||
    (edge.edgeType == VersionSourceEvent && edge.toNodeId == NodeId(EventKind, "")
     && "" !in VisibleIn(c, states).EventIds())
  }

  lemma EventEdgeEnds(c: Chronicle, states: StateMap, e: ChronicleEvent, edge: Edge)
    requires e in VisibleIn(c, states).events
    requires EventEdgeOrigin(c.chronicleId, VisibleIn(c, states), e, edge)
    ensures BothEnds(c, states, edge) <==> edge.edgeType != RecordsRde
  {
    ChronicleExported(c, states);
    EventExported(c, states, e.eventId);
    match edge.edgeType
    case CreatesArtifact => ArtifactExported(c, states, e.artifactId.value);
    case UpdatesArtifact => ArtifactExported(c, states, e.artifactId.value);
    case RecordsDecision => DecisionExported(c, states, e.decisionId.value);
    case RecordsRde => RdeNeverExported(c, states, e.rdeRecordId.value);
    case RecordsPlan =>
      var p :| p in PlansIn(e)
               && edge == MakeEdge(RecordsPlan, NodeId(EventKind, e.eventId), NodeId(PlanKind, p.planId));
      PlanExported(c, states, e, p);
    case _ =>
  }

  lemma SectionEdgeEnds(c: Chronicle, states: StateMap, edge: Edge)
    requires FromSection(VisibleIn(c, states), edge)
    ensures BothEnds(c, states, edge)
  {
    var v := VisibleIn(c, states);
    var e :| e in v.events && FromPlans(v.ContextIds(), PlansIn(e), edge);
    var p, ref :| p in PlansIn(e) && RefEdgeOrigin(v.ContextIds(), p, ref, edge);
    PlanExported(c, states, e, p);
    ContextExported(c, states, ref.contextId);
  }

  lemma SourceEdgeEnds(c: Chronicle, states: StateMap, edge: Edge)
    requires FromSourceEdge(VisibleIn(c, states), edge)
    ensures BothEnds(c, states, edge)
  {
    var v := VisibleIn(c, states);
    var x :| x in v.contexts && x.source.Some?
               && edge == MakeEdge(HasSource, NodeId(ContextKind, x.contextId), NodeId(SourceKind, x.contextId));
    ContextExported(c, states, x.contextId);
    assert FromSource(v, SourceNode(x, x.source.value));
    ExportedById(c, states, SourceNode(x, x.source.value));
  }

  lemma HasVersionEnds(c: Chronicle, states: StateMap, edge: Edge)
    requires FromHasVersion(c, VisibleIn(c, states), edge)
    ensures BothEnds(c, states, edge)
  {
    var v := VisibleIn(c, states);
    var a, w :| ExportedVersion(c, v, a, w)
                && edge == MakeEdge(HasVersion, NodeId(ArtifactKind, a.artifactId), NodeId(VersionKind, w.versionId));
    ArtifactExported(c, states, a.artifactId);
    VersionExported(c, states, a, w);
  }

  lemma VersionSourceEnds(c: Chronicle, states: StateMap, edge: Edge)
    requires FromVersionSource(c, VisibleIn(c, states), edge) && edge.edgeType == VersionSourceEvent
    ensures BothEnds(c, states, edge) <==> !Dangling(c, states, edge)
  {
    var v := VisibleIn(c, states);
    var a, w :| ExportedVersion(c, v, a, w)
                && edge == MakeEdge(VersionSourceEvent, NodeId(VersionKind, w.versionId),
                                    NodeId(EventKind, w.sourceEventId));
    VersionExported(c, states, a, w);
    EventExported(c, states, w.sourceEventId);
    NodeIdAmbiguity(EventKind, w.sourceEventId, EventKind, "");
  }

  lemma DecisionSourceEnds(c: Chronicle, states: StateMap, edge: Edge)
    requires FromDecisionSource(VisibleIn(c, states), edge)
    ensures BothEnds(c, states, edge)
  {
    var v := VisibleIn(c, states);
    var d :| d in v.decisions && Given(d.eventId) && d.eventId.value in v.EventIds()
      && edge == MakeEdge(DecisionSourceEvent, NodeId(DecisionKind, d.decisionId), NodeId(EventKind, d.eventId.value));
    DecisionExported(c, states, d.decisionId);
    EventExported(c, states, d.eventId.value);
  }

  lemma EdgeEnds(c: Chronicle, states: StateMap, edge: Edge)
    requires EdgeOrigin(c, VisibleIn(c, states), edge)
    ensures BothEnds(c, states, edge) <==> !Dangling(c, states, edge)
  {
    match edge.edgeType
    case HasSource => SourceEdgeEnds(c, states, edge);
    case HasVersion => HasVersionEnds(c, states, edge);
    case VersionSourceEvent => VersionSourceEnds(c, states, edge);
    case DecisionSourceEvent => DecisionSourceEnds(c, states, edge);
    case Selects => SectionEdgeEnds(c, states, edge);
    case Warns => SectionEdgeEnds(c, states, edge);
    case Excludes => SectionEdgeEnds(c, states, edge);
    case _ =>
      var e :| e in VisibleIn(c, states).events && EventEdgeOrigin(c.chronicleId, VisibleIn(c, states), e, edge);
      EventEdgeEnds(c, states, e, edge);
  }

  /**
   * The endpoint filter drops the RDE edges and the source edges of versions without a source
   * event, and nothing else: what it keeps is exactly the rest of the edges with an origin.
   */
  lemma EndpointFilterIsExact(c: Chronicle, states: StateMap, edge: Edge)
    ensures edge in ExportEdges(c, states) <==>
              EdgeOrigin(c, VisibleIn(c, states), edge) && !Dangling(c, states, edge)
    ensures edge in ExportEdges(c, states) ==> BothEnds(c, states, edge)
  {
    var v := VisibleIn(c, states);
    var keep := Closed(NodeIds(ExportNodes(c, states)));
    InSorted(EdgeKey, Filter(keep, RawEdges(c, v)), edge);
    FilterMember(keep, RawEdges(c, v), edge);
    RawEdgeOrigin(c, v, edge);
    if EdgeOrigin(c, v, edge) {
      EdgeEnds(c, states, edge);
    }
  }

  // ----- What tombstones hide ----------------------------------------------------------------------

  lemma VisibleEvent(c: Chronicle, states: StateMap, x: ChronicleEvent)
    ensures x in VisibleIn(c, states).events <==> x in c.events && !ReferencesTombstoned(x, states, true)
  {
    FilterMember(EventShown(states), c.events, x);
  }
  lemma VisibleContext(c: Chronicle, states: StateMap, x: Context)
    ensures x in VisibleIn(c, states).contexts <==> x in c.contexts && !IsTombstoned(x.contextId, states)
  {
    FilterMember(ContextShown(states), c.contexts, x);
  }
  lemma VisibleArtifact(c: Chronicle, states: StateMap, x: Artifact)
    ensures x in VisibleIn(c, states).artifacts <==> x in c.artifacts && !IsTombstoned(x.artifactId, states)
  {
    FilterMember(ArtifactShown(states), c.artifacts, x);
  }
  lemma VisibleDecision(c: Chronicle, states: StateMap, x: Decision)
    ensures x in VisibleIn(c, states).decisions <==> x in c.decisions && !IsTombstoned(x.decisionId, states)
  {
    FilterMember(DecisionShown(states), c.decisions, x);
  }
  lemma VisibleRule(c: Chronicle, states: StateMap, x: BoundaryRule)
    ensures x in VisibleIn(c, states).rules <==> x in c.rules && !IsTombstoned(x.ruleId, states)
  {
    FilterMember(RuleShown(states), c.rules, x);
  }

  predicate RecordKind(k: NodeKind) {
    k == ContextKind || k == SourceKind || k == ArtifactKind || k == DecisionKind || k == RuleKind
  }

  /** No node stands for a tombstoned record. */
  lemma RecordNodesAreUntouched(c: Chronicle, states: StateMap, n: Node)
    requires n in ExportNodes(c, states) && RecordKind(n.nodeType)
    ensures !IsTombstoned(n.sourceId, states)
  {
    var v := VisibleIn(c, states);
    ExportedNodes(c, states, n);
    if n.nodeType == ContextKind || n.nodeType == SourceKind {
      ContextBehind(c, states, n);
    } else if n.nodeType == ArtifactKind {
      var a :| a in v.artifacts && n == ArtifactNode(a, states);
      VisibleArtifact(c, states, a);
    } else if n.nodeType == DecisionKind {
      var d :| d in v.decisions && n == DecisionNode(d, states);
      VisibleDecision(c, states, d);
    } else {
      var r :| r in v.rules && n == RuleNode(r, states);
      VisibleRule(c, states, r);
    }
  }

  lemma ContextBehind(c: Chronicle, states: StateMap, n: Node)
    requires NodeOrigin(c, VisibleIn(c, states), states, n) && (n.nodeType == ContextKind || n.nodeType == SourceKind)
    ensures !IsTombstoned(n.sourceId, states)
  {
    var v := VisibleIn(c, states);
    if n.nodeType == ContextKind {
      var x :| x in v.contexts && n == ContextNode(x, states);
      VisibleContext(c, states, x);
    } else {
      var x :| x in v.contexts && x.source.Some? && n == SourceNode(x, x.source.value);
      VisibleContext(c, states, x);
    }
  }

  /** An event's node, and the node of a plan it records, come from an event that names no tombstoned target. */
  lemma EventNodesAreUntouched(c: Chronicle, states: StateMap, n: Node)
    requires n in ExportNodes(c, states)
    ensures n.nodeType == EventKind ==>
              exists e :: e in c.events && !ReferencesTombstoned(e, states, true) && e.eventId == n.sourceId
    ensures n.nodeType == PlanKind ==>
              exists e, p :: e in c.events && !ReferencesTombstoned(e, states, true) && p in PlansIn(e)
                  && n == PlanNode(p)
  {
    if n.nodeType == EventKind {
      var e := EventBehind(c, states, n);
    }
    if n.nodeType == PlanKind {
      var e, p := PlanBehind(c, states, n);
    }
  }

  lemma EventBehind(c: Chronicle, states: StateMap, n: Node) returns (e: ChronicleEvent)
    requires n in ExportNodes(c, states) && n.nodeType == EventKind
    ensures e in c.events && !ReferencesTombstoned(e, states, true) && e.eventId == n.sourceId
  {
    ExportedNodes(c, states, n);
    e :| e in VisibleIn(c, states).events && n == EventNode(e, EventSeal(e, states));
    VisibleEvent(c, states, e);
  }

  lemma PlanBehind(c: Chronicle, states: StateMap, n: Node) returns (e: ChronicleEvent, p: Plan)
    requires n in ExportNodes(c, states) && n.nodeType == PlanKind
    ensures e in c.events && !ReferencesTombstoned(e, states, true) && p in PlansIn(e) && n == PlanNode(p)
  {
    ExportedNodes(c, states, n);
    e, p :| e in VisibleIn(c, states).events && p in PlansIn(e) && n == PlanNode(p);
    VisibleEvent(c, states, e);
  }

  /** A version's node belongs to an artifact that is not tombstoned, and its source event is not hidden. */
  lemma VersionNodesAreUntouched(c: Chronicle, states: StateMap, n: Node)
    requires n in ExportNodes(c, states) && n.nodeType == VersionKind
    ensures exists a, w :: a in c.artifacts && !IsTombstoned(a.artifactId, states)
              && w in VersionsOf(c.versions, a.artifactId) && n == VersionNode(w)
              && (w.sourceEventId == "" || w.sourceEventId in VisibleIn(c, states).EventIds())
  {
    ExportedNodes(c, states, n);
    var a, w :| ExportedVersion(c, VisibleIn(c, states), a, w) && n == VersionNode(w);
    VisibleArtifact(c, states, a);
  }

  ghost predicate Touches(edge: Edge, nodeId: string) {
    edge.fromNodeId == nodeId || edge.toNodeId == nodeId
  }

  /** Both ends of an edge are exported nodes, and neither stands for a tombstoned record. */
  lemma EdgesAreUntouched(c: Chronicle, states: StateMap, edge: Edge) returns (n: Node, m: Node)
    requires edge in ExportEdges(c, states)
    ensures n in ExportNodes(c, states) && n.nodeId == edge.fromNodeId
    ensures m in ExportNodes(c, states) && m.nodeId == edge.toNodeId
    ensures RecordKind(n.nodeType) ==> !IsTombstoned(n.sourceId, states)
    ensures RecordKind(m.nodeType) ==> !IsTombstoned(m.sourceId, states)
  {
    EndpointFilterIsExact(c, states, edge);
    n := NodeBehind(c, states, edge.fromNodeId);
    m := NodeBehind(c, states, edge.toNodeId);
    ExportedNodes(c, states, n);
    ExportedNodes(c, states, m);
    if RecordKind(n.nodeType) {
      RecordNodesAreUntouched(c, states, n);
    }
    if RecordKind(m.nodeType) {
      RecordNodesAreUntouched(c, states, m);
    }
  }

  /** No edge touches an event all of whose namesakes are hidden. */
  lemma HiddenEventsAreUntouched(c: Chronicle, states: StateMap, edge: Edge, id: string)
    requires edge in ExportEdges(c, states)
    requires forall e :: e in c.events && e.eventId == id ==> ReferencesTombstoned(e, states, true)
    ensures !Touches(edge, NodeId(EventKind, id))
  {
    EndpointFilterIsExact(c, states, edge);
    EventExported(c, states, id);
    forall e | e in VisibleIn(c, states).events ensures e.eventId != id {
      VisibleEvent(c, states, e);
    }
  }

  /** `id` reads like the version part of an exported version's node id. */
  ghost predicate NamesVersion(c: Chronicle, states: StateMap, id: string) {
    exists a, w :: ExportedVersion(c, VisibleIn(c, states), a, w) && id == "version_" + w.versionId
  }

  lemma TombstonedExported(c: Chronicle, states: StateMap, k: NodeKind, id: string)
    requires RecordKind(k) && IsTombstoned(id, states) && Exported(c, states, NodeId(k, id))
    ensures k == ArtifactKind && NamesVersion(c, states, id)
  {
    var n := NodeBehind(c, states, NodeId(k, id));
    NodeIdAmbiguity(n.nodeType, n.sourceId, k, id);
    ExportedNodes(c, states, n);
    if RecordKind(n.nodeType) {
      RecordNodesAreUntouched(c, states, n);
    }
    assert n.nodeType == VersionKind;
    var a, w :| ExportedVersion(c, VisibleIn(c, states), a, w) && n == VersionNode(w);
    assert id == "version_" + w.versionId;
  }

  lemma VersionIsTouched(c: Chronicle, states: StateMap, a: Artifact, w: Version) returns (edge: Edge)
    requires ExportedVersion(c, VisibleIn(c, states), a, w)
    ensures edge in ExportEdges(c, states) && Touches(edge, NodeId(ArtifactKind, "version_" + w.versionId))
  {
    edge := MakeEdge(HasVersion, NodeId(ArtifactKind, a.artifactId), NodeId(VersionKind, w.versionId));
    assert FromHasVersion(c, VisibleIn(c, states), edge);
    EndpointFilterIsExact(c, states, edge);
    ArtifactVersionClash("version_" + w.versionId, w.versionId);
  }

  /**
   * Some edge touches the node id of a tombstoned record in one case only: the record is an artifact
   * whose id is `version_` followed by the id of an exported version, which has that node id.
   */
  lemma TombstonedIdTouched(c: Chronicle, states: StateMap, k: NodeKind, id: string)
    requires RecordKind(k) && IsTombstoned(id, states)
    ensures (exists edge :: edge in ExportEdges(c, states) && Touches(edge, NodeId(k, id)))
            <==> k == ArtifactKind && NamesVersion(c, states, id)
  {
    if edge :| edge in ExportEdges(c, states) && Touches(edge, NodeId(k, id)) {
      EndpointFilterIsExact(c, states, edge);
      TombstonedExported(c, states, k, id);
    }
    if k == ArtifactKind && NamesVersion(c, states, id) {
      var a, w :| ExportedVersion(c, VisibleIn(c, states), a, w) && id == "version_" + w.versionId;
      var edge := VersionIsTouched(c, states, a, w);
    }
  }

  /**
   * The case arises: an artifact `a` with a version `v`, and a tombstoned artifact `version_v`, whose
   * node id an edge of the export touches.
   */
  lemma TombstonedIdExample(c: Chronicle, a: Artifact, b: Artifact, w: Version, tombstone: LifecycleEvent)
    returns (edge: Edge)
    requires c.artifacts == [a, b] && a.artifactId == "a" && b.artifactId == "version_v"
    requires c.versions == map["a" := [w]] && w.versionId == "v" && w.sourceEventId == ""
    requires tombstone.action == Tombstone && tombstone.targetId == b.artifactId
    ensures var states := StatesOf([tombstone]);
            IsTombstoned(b.artifactId, states)
            && edge in ExportEdges(c, states) && Touches(edge, NodeId(ArtifactKind, b.artifactId))
  {
    var states := StatesOf([tombstone]);
    OneTombstone(tombstone, "version_v");
    OneTombstone(tombstone, "a");
    OnlyVersionExported(c, states, a, w);
    edge := VersionIsTouched(c, states, a, w);
    assert "version_" + "v" == "version_v";
  }

  lemma OnlyVersionExported(c: Chronicle, states: StateMap, a: Artifact, w: Version)
    requires a in c.artifacts && c.versions == map[a.artifactId := [w]] && w.sourceEventId == ""
    requires !IsTombstoned(a.artifactId, states)
    ensures ExportedVersion(c, VisibleIn(c, states), a, w)
  {
    VisibleArtifact(c, states, a);
  }

  lemma OneTombstone(tombstone: LifecycleEvent, id: string)
    requires tombstone.action == Tombstone
    ensures IsTombstoned(id, StatesOf([tombstone])) <==> id == tombstone.targetId
  {
    TombstonedMeans([tombstone], id);
    assert tombstone in [tombstone];
  }

  // ----- Node identity -------------------------------------------------------------------------------

  /** Records with the same id are the same record; plans likewise. */
  ghost predicate IdsIdentify(c: Chronicle) {
    && (forall x, y :: x in c.events && y in c.events && x.eventId == y.eventId ==> x == y)
    && (forall x, y :: x in c.contexts && y in c.contexts && x.contextId == y.contextId ==> x == y)
    && (forall x, y :: x in c.artifacts && y in c.artifacts && x.artifactId == y.artifactId ==> x == y)
    && (forall x, y :: x in c.decisions && y in c.decisions && x.decisionId == y.decisionId ==> x == y)
    && (forall x, y :: x in c.rules && y in c.rules && x.ruleId == y.ruleId ==> x == y)
    && (forall a, b, x, y :: (a in c.artifacts && b in c.artifacts && x in VersionsOf(c.versions, a.artifactId)
                              && y in VersionsOf(c.versions, b.artifactId) && x.versionId == y.versionId) ==> x == y)
    && (forall x, y, p, q :: (x in c.events && y in c.events && p in PlansIn(x) && q in PlansIn(y)
                              && p.planId == q.planId) ==> p == q)
  }

  lemma EventRecordKeysDetermine(c: Chronicle, states: StateMap, n: Node, m: Node)
    requires IdsIdentify(c)
    requires NodeOrigin(c, VisibleIn(c, states), states, n) && NodeOrigin(c, VisibleIn(c, states), states, m)
    requires n.nodeType == m.nodeType && n.sourceId == m.sourceId
    requires n.nodeType in {EventKind, PlanKind, DecisionKind, RuleKind}
    ensures n == m
  {
    var v := VisibleIn(c, states);
    match n.nodeType
    case EventKind =>
      var x :| x in v.events && n == EventNode(x, EventSeal(x, states));
      var y :| y in v.events && m == EventNode(y, EventSeal(y, states));
      VisibleEvent(c, states, x);
      VisibleEvent(c, states, y);
    case PlanKind =>
      var x, p :| x in v.events && p in PlansIn(x) && n == PlanNode(p);
      var y, q :| y in v.events && q in PlansIn(y) && m == PlanNode(q);
      VisibleEvent(c, states, x);
      VisibleEvent(c, states, y);
      assert p == q;
    case DecisionKind =>
      var x :| x in v.decisions && n == DecisionNode(x, states);
      var y :| y in v.decisions && m == DecisionNode(y, states);
      VisibleDecision(c, states, x);
      VisibleDecision(c, states, y);
    case RuleKind =>
      var x :| x in v.rules && n == RuleNode(x, states);
      var y :| y in v.rules && m == RuleNode(y, states);
      VisibleRule(c, states, x);
      VisibleRule(c, states, y);
  }

  lemma ContextKeysDetermine(c: Chronicle, states: StateMap, n: Node, m: Node)
    requires IdsIdentify(c)
    requires NodeOrigin(c, VisibleIn(c, states), states, n) && NodeOrigin(c, VisibleIn(c, states), states, m)
    requires n.nodeType == m.nodeType && n.sourceId == m.sourceId
    requires n.nodeType == ContextKind || n.nodeType == SourceKind
    ensures n == m
  {
    var v := VisibleIn(c, states);
    if n.nodeType == ContextKind {
      var x :| x in v.contexts && n == ContextNode(x, states);
      var y :| y in v.contexts && m == ContextNode(y, states);
      VisibleContext(c, states, x);
      VisibleContext(c, states, y);
    } else {
      var x :| x in v.contexts && x.source.Some? && n == SourceNode(x, x.source.value);
      var y :| y in v.contexts && y.source.Some? && m == SourceNode(y, y.source.value);
      VisibleContext(c, states, x);
      VisibleContext(c, states, y);
    }
  }

  lemma ArtifactKeysDetermine(c: Chronicle, states: StateMap, n: Node, m: Node)
    requires IdsIdentify(c)
    requires NodeOrigin(c, VisibleIn(c, states), states, n) && NodeOrigin(c, VisibleIn(c, states), states, m)
    requires n.nodeType == m.nodeType && n.sourceId == m.sourceId
    requires n.nodeType == ArtifactKind || n.nodeType == VersionKind
    ensures n == m
  {
    var v := VisibleIn(c, states);
    if n.nodeType == ArtifactKind {
      var x :| x in v.artifacts && n == ArtifactNode(x, states);
      var y :| y in v.artifacts && m == ArtifactNode(y, states);
      VisibleArtifact(c, states, x);
      VisibleArtifact(c, states, y);
    } else {
      var a, x :| ExportedVersion(c, v, a, x) && n == VersionNode(x);
      var b, y :| ExportedVersion(c, v, b, y) && m == VersionNode(y);
      VisibleArtifact(c, states, a);
      VisibleArtifact(c, states, b);
      assert x == y;
    }
  }

  lemma NodeKeysDetermine(c: Chronicle, states: StateMap, n: Node, m: Node)
    requires IdsIdentify(c)
    requires NodeOrigin(c, VisibleIn(c, states), states, n) && NodeOrigin(c, VisibleIn(c, states), states, m)
    requires n.nodeType == m.nodeType && n.sourceId == m.sourceId
    ensures n == m
  {
    if n.nodeType in {EventKind, PlanKind, DecisionKind, RuleKind} {
      EventRecordKeysDetermine(c, states, n, m);
    } else if n.nodeType == ContextKind || n.nodeType == SourceKind {
      ContextKeysDetermine(c, states, n, m);
    } else if n.nodeType == ArtifactKind || n.nodeType == VersionKind {
      ArtifactKeysDetermine(c, states, n, m);
    }
  }

  /** With the repository's id prefixes, a node id names one node. */
  lemma NodeIdsIdentify(c: Chronicle, states: StateMap, n: Node, m: Node)
    requires IdsIdentify(c)
    requires forall a :: a in c.artifacts ==> "art_" <= a.artifactId
    requires n in ExportNodes(c, states) && m in ExportNodes(c, states) && n.nodeId == m.nodeId
    ensures n == m
  {
    ExportedNodes(c, states, n);
    ExportedNodes(c, states, m);
    OriginId(c, VisibleIn(c, states), states, n);
    OriginId(c, VisibleIn(c, states), states, m);
    NodeIdAmbiguity(n.nodeType, n.sourceId, m.nodeType, m.sourceId);
    ArtifactPrefix(c, states, n);
    ArtifactPrefix(c, states, m);
    if n.nodeType == ArtifactKind {
      PrefixedIdIsClear(n.sourceId, m.sourceId);
    }
    if m.nodeType == ArtifactKind {
      PrefixedIdIsClear(m.sourceId, n.sourceId);
    }
    NodeKeysDetermine(c, states, n, m);
  }

  lemma ArtifactPrefix(c: Chronicle, states: StateMap, n: Node)
    requires forall a :: a in c.artifacts ==> "art_" <= a.artifactId
    requires NodeOrigin(c, VisibleIn(c, states), states, n)
    ensures n.nodeType == ArtifactKind ==> "art_" <= n.sourceId
  {
    if n.nodeType == ArtifactKind {
      var a :| a in VisibleIn(c, states).artifacts && n == ArtifactNode(a, states);
      VisibleArtifact(c, states, a);
    }
  }

  lemma PrefixedIdIsClear(artifactId: string, versionId: string)
    requires "art_" <= artifactId
    ensures artifactId != "version_" + versionId
  {
    assert artifactId[0] == 'a';
    assert ("version_" + versionId)[0] == 'v';
  }

  // ----- Counts --------------------------------------------------------------------------------------

  ghost function EventHidden(states: StateMap): ChronicleEvent -> bool {
    (e: ChronicleEvent) => ReferencesTombstoned(e, states, true)
  }

  function TombstonedIn(states: StateMap): string -> bool {
    id => IsTombstoned(id, states)
  }

  function RecordIds(c: Chronicle): seq<string> {
    Map((a: Artifact) => a.artifactId, c.artifacts) + Map((x: Context) => x.contextId, c.contexts)
    + Map((d: Decision) => d.decisionId, c.decisions) + Map((r: BoundaryRule) => r.ruleId, c.rules)
  }

  lemma {:induction false} HiddenCount<T>(shown: T -> bool, id: T -> string, states: StateMap, s: seq<T>)
    requires forall x :: x in s ==> (shown(x) <==> !IsTombstoned(id(x), states))
    ensures |Filter(TombstonedIn(states), Map(id, s))| == |s| - |Filter(shown, s)|
  {
    if s != [] {
      HiddenCount(shown, id, states, s[1..]);
      assert Map(id, s)[1..] == Map(id, s[1..]);
    }
  }

  /** The manifest's differences count the tombstoned records and the hidden events. */
  lemma CountsAreConserved(c: Chronicle, states: StateMap)
    ensures RecordsHidden(c, VisibleIn(c, states)) == |Filter(TombstonedIn(states), RecordIds(c))|
    ensures EventsHidden(c, VisibleIn(c, states)) == |Filter(EventHidden(states), c.events)|
  {
    FilterSplitsLength(EventShown(states), EventHidden(states), c.events);
    HiddenCount(ArtifactShown(states), (a: Artifact) => a.artifactId, states, c.artifacts);
    HiddenCount(ContextShown(states), (x: Context) => x.contextId, states, c.contexts);
    HiddenCount(DecisionShown(states), (d: Decision) => d.decisionId, states, c.decisions);
    HiddenCount(RuleShown(states), (r: BoundaryRule) => r.ruleId, states, c.rules);
    var t := TombstonedIn(states);
    var a, x := Map((a: Artifact) => a.artifactId, c.artifacts), Map((x: Context) => x.contextId, c.contexts);
    var d, r := Map((d: Decision) => d.decisionId, c.decisions), Map((r: BoundaryRule) => r.ruleId, c.rules);
    FilterAppend(t, a, x);
    FilterAppend(t, a + x, d);
    FilterAppend(t, a + x + d, r);
  }
}
