/** Exactly which nodes and edges an export holds, and what tombstones hide. */
module GraphContents {
  import opened Wrappers
  import opened Sequences
  import opened Ordering
  import opened Records
  import opened Lifecycle
  import opened GraphExport

  // ----- The identifier encoding ------------------------------------------------------------------

  function Letters(k: NodeKind): (char, char) {
    match k
    case ChronicleKind => ('c', 'h')
    case EventKind => ('e', 'v')
    case ContextKind => ('c', 'o')
    case SourceKind => ('s', 'o')
    case ArtifactKind => ('a', 'r')
    case VersionKind => ('a', 'r')
    case DecisionKind => ('d', 'e')
    case RuleKind => ('b', 'o')
    case PlanKind => ('i', 'n')
    case RdeKind => ('r', 'd')
  }

  lemma KindLetters(k: NodeKind)
    ensures |KindName(k)| >= 2 && Letters(k) == (KindName(k)[0], KindName(k)[1])
  {
  }

  lemma NodeIdLetters(k: NodeKind, id: string)
    ensures |NodeId(k, id)| >= 4 && Letters(k) == (NodeId(k, id)[2], NodeId(k, id)[3])
    ensures NodeId(k, id)[|KindName(k)| + 3..] == id
  {
    KindLetters(k);
  }

  /** An artifact id spelt like a version id with `version_` in front of it. */
  predicate Clashes(k1: NodeKind, id1: string, k2: NodeKind, id2: string) {
    k1.ArtifactKind? && k2.VersionKind? && id1 == "version_" + id2
  }

  /** Node ids are ambiguous in exactly one way. */
  lemma NodeIdAmbiguity(k1: NodeKind, id1: string, k2: NodeKind, id2: string)
    ensures NodeId(k1, id1) == NodeId(k2, id2) <==>
              (k1 == k2 && id1 == id2) || Clashes(k1, id1, k2, id2) || Clashes(k2, id2, k1, id1)
  {
    NodeIdLetters(k1, id1);
    NodeIdLetters(k2, id2);
    if k1.ArtifactKind? && k2.VersionKind? {
      ArtifactVersionClash(id1, id2);
    } else if k2.ArtifactKind? && k1.VersionKind? {
      ArtifactVersionClash(id2, id1);
    } else if Letters(k1) == Letters(k2) {
      assert k1 == k2;
    }
  }

  lemma ArtifactVersionClash(a: string, v: string)
    ensures NodeId(ArtifactKind, a) == NodeId(VersionKind, v) <==> a == "version_" + v
  {
    var p := "n_artifact_";
    assert NodeId(ArtifactKind, a) == p + a;
    assert NodeId(VersionKind, v) == p + ("version_" + v);
    assert (p + a)[|p|..] == a;
    assert (p + ("version_" + v))[|p|..] == "version_" + v;
  }

  lemma KindNamesDiffer(k1: NodeKind, k2: NodeKind)
    requires KindName(k1) == KindName(k2)
    ensures k1 == k2
  {
    KindLetters(k1);
    KindLetters(k2);
    assert |KindName(ArtifactKind)| == 8 && |KindName(VersionKind)| == 16;
  }

  function EdgeSignature(k: EdgeKind): (nat, char, char) {
    match k
    case HasEvent => (19, 'c', 'c')
    case CreatesArtifact => (22, 'e', 'c')
    case UpdatesArtifact => (22, 'e', 'u')
    case RecordsDecision => (22, 'e', 'r')
    case RecordsRde => (17, 'e', 'r')
    case RecordsPlan => (28, 'e', 'r')
    case HasSource => (18, 'c', 't')
    case HasVersion => (20, 'a', 'c')
    case VersionSourceEvent => (29, 'a', 'c')
    case DecisionSourceEvent => (21, 'd', 'o')
    case Selects => (30, 'i', 'i')
    case Warns => (28, 'i', 'i')
    case Excludes => (31, 'i', 'i')
  }

  lemma EdgeTypeNamesDiffer(k1: EdgeKind, k2: EdgeKind)
    requires EdgeTypeName(k1) == EdgeTypeName(k2)
    ensures k1 == k2
  {
    EdgeTypeSignature(k1);
    EdgeTypeSignature(k2);
  }

  lemma EdgeTypeSignature(k: EdgeKind)
    ensures |EdgeTypeName(k)| > 6 && EdgeSignature(k) == (|EdgeTypeName(k)|, EdgeTypeName(k)[0], EdgeTypeName(k)[6])
  {
  }

  // ----- Where each node comes from --------------------------------------------------------------

  /** `v` is a listed version of a visible artifact, and its source event is not hidden. */
  ghost predicate ExportedVersion(c: Chronicle, v: Visible, a: Artifact, version: Version) {
    a in v.artifacts && version in VersionsOf(c.versions, a.artifactId) && VersionShown(version, v.EventIds())
  }

  ghost predicate FromEvent(v: Visible, states: StateMap, n: Node) {
    exists e :: e in v.events && n == EventNode(e, EventSeal(e, states))
  }
  ghost predicate FromContext(v: Visible, states: StateMap, n: Node) {
    exists x :: x in v.contexts && n == ContextNode(x, states)
  }
  ghost predicate FromSource(v: Visible, n: Node) {
    exists x :: x in v.contexts && x.source.Some? && n == SourceNode(x, x.source.value)
  }
  ghost predicate FromArtifact(v: Visible, states: StateMap, n: Node) {
    exists a :: a in v.artifacts && n == ArtifactNode(a, states)
  }
  ghost predicate FromVersion(c: Chronicle, v: Visible, n: Node) {
    exists a, w :: ExportedVersion(c, v, a, w) && n == VersionNode(w)
  }
  ghost predicate FromDecision(v: Visible, states: StateMap, n: Node) {
    exists d :: d in v.decisions && n == DecisionNode(d, states)
  }
  ghost predicate FromRule(v: Visible, states: StateMap, n: Node) {
    exists r :: r in v.rules && n == RuleNode(r, states)
  }
  ghost predicate FromPlan(v: Visible, n: Node) {
    exists e, p :: e in v.events && p in PlansIn(e) && n == PlanNode(p)
  }

  ghost predicate NodeOrigin(c: Chronicle, v: Visible, states: StateMap, n: Node) {
    match n.nodeType
    case ChronicleKind => n == MakeNode(ChronicleKind, c.chronicleId, c.title, "", map[])
    case EventKind => FromEvent(v, states, n)
    case ContextKind => FromContext(v, states, n)
    case SourceKind => FromSource(v, n)
    case ArtifactKind => FromArtifact(v, states, n)
    case VersionKind => FromVersion(c, v, n)
    case DecisionKind => FromDecision(v, states, n)
    case RuleKind => FromRule(v, states, n)
    case PlanKind => FromPlan(v, n)
    case RdeKind => false
  }

  lemma InAppend<T>(x: T, a: seq<T>, b: seq<T>)
    ensures x in a + b <==> x in a || x in b
  {
  }

  lemma InFive<T>(x: T, a: seq<T>, b: seq<T>, c: seq<T>, d: seq<T>, e: seq<T>)
    ensures x in a + b + c + d + e <==> x in a || x in b || x in c || x in d || x in e
  {
    InAppend(x, a, b);
    InAppend(x, a + b, c);
    InAppend(x, a + b + c, d);
    InAppend(x, a + b + c + d, e);
  }

  lemma EventNodeMember(v: Visible, states: StateMap, n: Node)
    ensures n in FlatMap(EventNodes(states), v.events) <==> FromEvent(v, states, n)
    ensures FromEvent(v, states, n) ==> n.nodeType == EventKind
  {
    FlatMapMember(EventNodes(states), v.events, n);
  }

  lemma ContextNodeMember(v: Visible, states: StateMap, n: Node)
    ensures n in FlatMap(ContextNodes(states), v.contexts) <==> FromContext(v, states, n) || FromSource(v, n)
    ensures FromContext(v, states, n) ==> n.nodeType == ContextKind
    ensures FromSource(v, n) ==> n.nodeType == SourceKind
  {
    FlatMapMember(ContextNodes(states), v.contexts, n);
  }

  lemma ArtifactNodeMember(c: Chronicle, v: Visible, states: StateMap, n: Node)
    ensures n in FlatMap(ArtifactNodes(c.versions, v.EventIds(), states), v.artifacts)
            <==> FromArtifact(v, states, n) || FromVersion(c, v, n)
    ensures FromArtifact(v, states, n) ==> n.nodeType == ArtifactKind
    ensures FromVersion(c, v, n) ==> n.nodeType == VersionKind
  {
    var f := ArtifactNodes(c.versions, v.EventIds(), states);
    FlatMapMember(f, v.artifacts, n);
    forall a: Artifact | a in v.artifacts
      ensures n in f(a) <==>
                n == ArtifactNode(a, states) || exists w :: ExportedVersion(c, v, a, w) && n == VersionNode(w)
    {
      OneArtifactNodes(c, v, states, a, n);
    }
  }

  lemma OneArtifactNodes(c: Chronicle, v: Visible, states: StateMap, a: Artifact, n: Node)
    requires a in v.artifacts
    ensures n in ArtifactNodes(c.versions, v.EventIds(), states)(a)
            <==> n == ArtifactNode(a, states) || exists w :: ExportedVersion(c, v, a, w) && n == VersionNode(w)
  {
    var vs := FlatMap(VersionNodes(v.EventIds()), VersionsOf(c.versions, a.artifactId));
    FlatMapMember(VersionNodes(v.EventIds()), VersionsOf(c.versions, a.artifactId), n);
    InAppend(n, [ArtifactNode(a, states)], vs);
  }

  lemma DecisionNodeMember(v: Visible, states: StateMap, n: Node)
    ensures n in FlatMap(DecisionNodes(states), v.decisions) <==> FromDecision(v, states, n)
    ensures FromDecision(v, states, n) ==> n.nodeType == DecisionKind
  {
    FlatMapMember(DecisionNodes(states), v.decisions, n);
  }

  lemma RuleNodeMember(v: Visible, states: StateMap, n: Node)
    ensures n in FlatMap(RuleNodes(states), v.rules) <==> FromRule(v, states, n)
    ensures FromRule(v, states, n) ==> n.nodeType == RuleKind
  {
    FlatMapMember(RuleNodes(states), v.rules, n);
  }

  lemma PlanNodeMember(v: Visible, n: Node)
    ensures n in FlatMap(PlanNodes(), v.events) <==> FromPlan(v, n)
    ensures FromPlan(v, n) ==> n.nodeType == PlanKind
  {
    FlatMapMember(PlanNodes(), v.events, n);
    forall e: ChronicleEvent ensures n in PlanNodes()(e) <==> exists p :: p in PlansIn(e) && n == PlanNode(p) {
      MapMember(PlanNode, PlansIn(e), n);
    }
  }

  lemma MapMember<A, B>(f: A -> B, s: seq<A>, y: B)
    ensures y in Map(f, s) <==> exists x :: x in s && y == f(x)
  {
    if y in Map(f, s) {
      var i :| 0 <= i < |s| && Map(f, s)[i] == y;
      assert s[i] in s;
    }
    forall x | x in s && y == f(x) ensures y in Map(f, s) {
      var i :| 0 <= i < |s| && s[i] == x;
      assert Map(f, s)[i] == y;
    }
  }

  lemma RawNodeParts(c: Chronicle, v: Visible, states: StateMap, n: Node)
    ensures n in RawNodes(c, v, states) <==>
              n == MakeNode(ChronicleKind, c.chronicleId, c.title, "", map[])
              || n in FlatMap(EventNodes(states), v.events) || n in FlatMap(ContextNodes(states), v.contexts)
              || n in FlatMap(ArtifactNodes(c.versions, v.EventIds(), states), v.artifacts)
              || n in FlatMap(DecisionNodes(states), v.decisions) || n in FlatMap(RuleNodes(states), v.rules)
              || n in FlatMap(PlanNodes(), v.events)
  {
    var p0 := [MakeNode(ChronicleKind, c.chronicleId, c.title, "", map[])];
    var p1, p2 := FlatMap(EventNodes(states), v.events), FlatMap(ContextNodes(states), v.contexts);
    var p3 := FlatMap(ArtifactNodes(c.versions, v.EventIds(), states), v.artifacts);
    var p4, p5 := FlatMap(DecisionNodes(states), v.decisions), FlatMap(RuleNodes(states), v.rules);
    var p6 := FlatMap(PlanNodes(), v.events);
    InFive(n, p0, p1, p2, p3, p4);
    InAppend(n, p0 + p1 + p2 + p3 + p4, p5);
    InAppend(n, p0 + p1 + p2 + p3 + p4 + p5, p6);
  }

  lemma RawNodeOrigin(c: Chronicle, v: Visible, states: StateMap, n: Node)
    ensures n in RawNodes(c, v, states) <==> NodeOrigin(c, v, states, n)
  {
    RawNodeParts(c, v, states, n);
    if n in FlatMap(EventNodes(states), v.events) || n.nodeType == EventKind {
      EventNodeMember(v, states, n);
    }
    if n in FlatMap(ContextNodes(states), v.contexts) || n.nodeType == ContextKind || n.nodeType == SourceKind {
      ContextNodeMember(v, states, n);
    }
    if n in FlatMap(ArtifactNodes(c.versions, v.EventIds(), states), v.artifacts)
       || n.nodeType == ArtifactKind || n.nodeType == VersionKind {
      ArtifactNodeMember(c, v, states, n);
    }
    if n in FlatMap(DecisionNodes(states), v.decisions) || n.nodeType == DecisionKind {
      DecisionNodeMember(v, states, n);
    }
    if n in FlatMap(RuleNodes(states), v.rules) || n.nodeType == RuleKind {
      RuleNodeMember(v, states, n);
    }
    if n in FlatMap(PlanNodes(), v.events) || n.nodeType == PlanKind {
      PlanNodeMember(v, n);
    }
  }

  lemma OriginId(c: Chronicle, v: Visible, states: StateMap, n: Node)
    requires NodeOrigin(c, v, states, n)
    ensures n.nodeId == NodeId(n.nodeType, n.sourceId)
  {
  }

  /** The export holds exactly the nodes with a visible origin. */
  lemma ExportedNodes(c: Chronicle, states: StateMap, n: Node)
    ensures n in ExportNodes(c, states) <==> NodeOrigin(c, VisibleIn(c, states), states, n)
  {
    InSorted(NodeKey, RawNodes(c, VisibleIn(c, states), states), n);
    RawNodeOrigin(c, VisibleIn(c, states), states, n);
  }

  lemma InSorted<T>(key: T -> seq<string>, s: seq<T>, x: T)
    ensures x in Sort(key, s) <==> x in s
  {
    SortSorted(key, s);
    PermutesMembers(Sort(key, s), s);
  }

  // ----- Where each edge comes from --------------------------------------------------------------

  ghost predicate EventEdgeOrigin(chronicleId: string, v: Visible, e: ChronicleEvent, edge: Edge) {
    var from := NodeId(EventKind, e.eventId);
    match edge.edgeType
    case HasEvent => edge == MakeEdge(HasEvent, NodeId(ChronicleKind, chronicleId), from)
    case CreatesArtifact =>
      e.eventType.ArtifactCreated? && Given(e.artifactId) && e.artifactId.value in v.ArtifactIds()
      && edge == MakeEdge(CreatesArtifact, from, NodeId(ArtifactKind, e.artifactId.value))
    case UpdatesArtifact =>
      !e.eventType.ArtifactCreated? && Given(e.artifactId) && e.artifactId.value in v.ArtifactIds()
      && edge == MakeEdge(UpdatesArtifact, from, NodeId(ArtifactKind, e.artifactId.value))
    case RecordsDecision =>
      Given(e.decisionId) && e.decisionId.value in v.DecisionIds()
      && edge == MakeEdge(RecordsDecision, from, NodeId(DecisionKind, e.decisionId.value))
    case RecordsRde =>
      Given(e.rdeRecordId) && edge == MakeEdge(RecordsRde, from, NodeId(RdeKind, e.rdeRecordId.value))
    case RecordsPlan =>
      exists p :: p in PlansIn(e) && edge == MakeEdge(RecordsPlan, from, NodeId(PlanKind, p.planId))
    case _ => false
  }

  /** The section of a plan an edge kind stands for. */
  function SectionOf(k: EdgeKind, p: Plan): seq<PlanRef> {
    match k
    case Selects => p.selected
    case Warns => p.warned
    case Excludes => p.excluded
    case _ => []
  }

  ghost predicate RefEdgeOrigin(contextIds: set<string>, p: Plan, ref: PlanRef, edge: Edge) {
    ref in SectionOf(edge.edgeType, p) && ref.contextId in contextIds
    && edge == MakeEdge(edge.edgeType, NodeId(PlanKind, p.planId), NodeId(ContextKind, ref.contextId),
                        RefMetadata(edge.edgeType, ref))
  }

  ghost predicate FromSourceEdge(v: Visible, edge: Edge) {
    exists x :: x in v.contexts && x.source.Some?
      && edge == MakeEdge(HasSource, NodeId(ContextKind, x.contextId), NodeId(SourceKind, x.contextId))
  }

  ghost predicate FromHasVersion(c: Chronicle, v: Visible, edge: Edge) {
    exists a, w :: ExportedVersion(c, v, a, w)
      && edge == MakeEdge(HasVersion, NodeId(ArtifactKind, a.artifactId), NodeId(VersionKind, w.versionId))
  }

  ghost predicate FromVersionSource(c: Chronicle, v: Visible, edge: Edge) {
    exists a, w :: ExportedVersion(c, v, a, w)
      && edge == MakeEdge(VersionSourceEvent, NodeId(VersionKind, w.versionId), NodeId(EventKind, w.sourceEventId))
  }

  ghost predicate FromDecisionSource(v: Visible, edge: Edge) {
    exists d :: d in v.decisions && Given(d.eventId) && d.eventId.value in v.EventIds()
      && edge == MakeEdge(DecisionSourceEvent, NodeId(DecisionKind, d.decisionId), NodeId(EventKind, d.eventId.value))
  }

  ghost predicate FromPlans(contextIds: set<string>, plans: seq<Plan>, edge: Edge) {
    exists p, ref :: p in plans && RefEdgeOrigin(contextIds, p, ref, edge)
  }

  ghost predicate FromSection(v: Visible, edge: Edge) {
    exists e :: e in v.events && FromPlans(v.ContextIds(), PlansIn(e), edge)
  }

  ghost predicate FromEventEdge(c: Chronicle, v: Visible, edge: Edge) {
    exists e :: e in v.events && EventEdgeOrigin(c.chronicleId, v, e, edge)
  }

  ghost predicate EdgeOrigin(c: Chronicle, v: Visible, edge: Edge) {
    match edge.edgeType
    case HasSource => FromSourceEdge(v, edge)
    case HasVersion => FromHasVersion(c, v, edge)
    case VersionSourceEvent => FromVersionSource(c, v, edge)
    case DecisionSourceEvent => FromDecisionSource(v, edge)
    case Selects => FromSection(v, edge)
    case Warns => FromSection(v, edge)
    case Excludes => FromSection(v, edge)
    case _ => FromEventEdge(c, v, edge)
  }

  lemma EventEdgeMember(id: string, v: Visible, e: ChronicleEvent, edge: Edge)
    ensures edge in EventEdges(id, v)(e) <==> EventEdgeOrigin(id, v, e, edge)
  {
    var from := NodeId(EventKind, e.eventId);
    var p1 := [MakeEdge(HasEvent, NodeId(ChronicleKind, id), from)];
    var p2 := if Given(e.artifactId) && e.artifactId.value in v.ArtifactIds() then [EventArtifactEdge(e)] else [];
    var p3 := if Given(e.decisionId) && e.decisionId.value in v.DecisionIds()
              then [MakeEdge(RecordsDecision, from, NodeId(DecisionKind, e.decisionId.value))] else [];
    var p4 := if Given(e.rdeRecordId) then [MakeEdge(RecordsRde, from, NodeId(RdeKind, e.rdeRecordId.value))] else [];
    var p5 := EventPlanEdges(e);
    assert EventEdges(id, v)(e) == p1 + p2 + p3 + p4 + p5;
    InFive(edge, p1, p2, p3, p4, p5);
    EventPlanEdgeMember(e, edge);
  }

  lemma EventPlanEdgeMember(e: ChronicleEvent, edge: Edge)
    ensures edge in EventPlanEdges(e) <==>
              exists p :: p in PlansIn(e)
                  && edge == MakeEdge(RecordsPlan, NodeId(EventKind, e.eventId), NodeId(PlanKind, p.planId))
  {
    if edge in EventPlanEdges(e) {
      var i :| 0 <= i < |EventPlanEdges(e)| && EventPlanEdges(e)[i] == edge;
      assert PlansIn(e)[i] in PlansIn(e);
    }
    forall p | p in PlansIn(e)
               && edge == MakeEdge(RecordsPlan, NodeId(EventKind, e.eventId), NodeId(PlanKind, p.planId))
      ensures edge in EventPlanEdges(e)
    {
      var i :| 0 <= i < |PlansIn(e)| && PlansIn(e)[i] == p;
      assert EventPlanEdges(e)[i] == edge;
    }
  }

  lemma EventEdgesMember(c: Chronicle, v: Visible, edge: Edge)
    ensures edge in FlatMap(EventEdges(c.chronicleId, v), v.events) <==> FromEventEdge(c, v, edge)
  {
    FlatMapMember(EventEdges(c.chronicleId, v), v.events, edge);
    forall e: ChronicleEvent
      ensures edge in EventEdges(c.chronicleId, v)(e) <==> EventEdgeOrigin(c.chronicleId, v, e, edge)
    {
      EventEdgeMember(c.chronicleId, v, e, edge);
    }
  }

  lemma SourceEdgeMember(v: Visible, edge: Edge)
    ensures edge in FlatMap(ContextEdges(), v.contexts) <==> FromSourceEdge(v, edge)
    ensures FromSourceEdge(v, edge) ==> edge.edgeType == HasSource
  {
    FlatMapMember(ContextEdges(), v.contexts, edge);
  }

  lemma OneArtifactEdges(c: Chronicle, v: Visible, a: Artifact, edge: Edge)
    requires a in v.artifacts
    ensures edge in ArtifactEdges(c.versions, v.EventIds())(a) <==>
              exists w :: ExportedVersion(c, v, a, w) && edge in VersionEdges(a.artifactId, v.EventIds())(w)
  {
    FlatMapMember(VersionEdges(a.artifactId, v.EventIds()), VersionsOf(c.versions, a.artifactId), edge);
  }

  lemma VersionEdgeMember(c: Chronicle, v: Visible, edge: Edge)
    ensures edge in FlatMap(ArtifactEdges(c.versions, v.EventIds()), v.artifacts)
            <==> FromHasVersion(c, v, edge) || FromVersionSource(c, v, edge)
    ensures FromHasVersion(c, v, edge) ==> edge.edgeType == HasVersion
    ensures FromVersionSource(c, v, edge) ==> edge.edgeType == VersionSourceEvent
  {
    var f := ArtifactEdges(c.versions, v.EventIds());
    FlatMapMember(f, v.artifacts, edge);
    forall a: Artifact | a in v.artifacts
      ensures edge in f(a) <==>
                exists w :: ExportedVersion(c, v, a, w) && edge in VersionEdges(a.artifactId, v.EventIds())(w)
    {
      OneArtifactEdges(c, v, a, edge);
    }
  }

  lemma DecisionEdgeMember(v: Visible, edge: Edge)
    ensures edge in FlatMap(DecisionEdges(v.EventIds()), v.decisions) <==> FromDecisionSource(v, edge)
    ensures FromDecisionSource(v, edge) ==> edge.edgeType == DecisionSourceEvent
  {
    FlatMapMember(DecisionEdges(v.EventIds()), v.decisions, edge);
  }

  lemma RefEdgeMember(k: EdgeKind, contextIds: set<string>, p: Plan, edge: Edge)
    requires k == Selects || k == Warns || k == Excludes
    ensures edge in FlatMap(RefEdges(k, p.planId, contextIds), SectionOf(k, p))
            <==> edge.edgeType == k && exists ref :: RefEdgeOrigin(contextIds, p, ref, edge)
  {
    FlatMapMember(RefEdges(k, p.planId, contextIds), SectionOf(k, p), edge);
    forall ref: PlanRef
      ensures ref in SectionOf(k, p) && edge in RefEdges(k, p.planId, contextIds)(ref)
              <==> edge.edgeType == k && RefEdgeOrigin(contextIds, p, ref, edge)
    {
    }
  }

  lemma SectionEdgeMember(contextIds: set<string>, p: Plan, edge: Edge)
    ensures edge in SectionEdges(contextIds)(p) <==> exists ref :: RefEdgeOrigin(contextIds, p, ref, edge)
  {
    var s := FlatMap(RefEdges(Selects, p.planId, contextIds), p.selected);
    var w := FlatMap(RefEdges(Warns, p.planId, contextIds), p.warned);
    var x := FlatMap(RefEdges(Excludes, p.planId, contextIds), p.excluded);
    RefEdgeMember(Selects, contextIds, p, edge);
    RefEdgeMember(Warns, contextIds, p, edge);
    RefEdgeMember(Excludes, contextIds, p, edge);
    InAppend(edge, s, w);
    InAppend(edge, s + w, x);
  }

  lemma PlansEdgeMember(contextIds: set<string>, plans: seq<Plan>, edge: Edge)
    ensures edge in FlatMap(SectionEdges(contextIds), plans) <==> FromPlans(contextIds, plans, edge)
  {
    FlatMapMember(SectionEdges(contextIds), plans, edge);
    forall p: Plan
      ensures edge in SectionEdges(contextIds)(p) <==> exists ref :: RefEdgeOrigin(contextIds, p, ref, edge)
    {
      SectionEdgeMember(contextIds, p, edge);
    }
  }

  lemma FromPlansKind(contextIds: set<string>, plans: seq<Plan>, edge: Edge)
    requires FromPlans(contextIds, plans, edge)
    ensures edge.edgeType == Selects || edge.edgeType == Warns || edge.edgeType == Excludes
  {
  }

  lemma FromSectionKind(v: Visible, edge: Edge)
    requires FromSection(v, edge)
    ensures edge.edgeType == Selects || edge.edgeType == Warns || edge.edgeType == Excludes
  {
    var e :| e in v.events && FromPlans(v.ContextIds(), PlansIn(e), edge);
    FromPlansKind(v.ContextIds(), PlansIn(e), edge);
  }

  lemma PlanEdgeMember(v: Visible, edge: Edge)
    ensures edge in FlatMap(PlanEdges(v.ContextIds()), v.events) <==> FromSection(v, edge)
  {
    FlatMapMember(PlanEdges(v.ContextIds()), v.events, edge);
    forall e: ChronicleEvent
      ensures edge in PlanEdges(v.ContextIds())(e) <==> FromPlans(v.ContextIds(), PlansIn(e), edge)
    {
      PlansEdgeMember(v.ContextIds(), PlansIn(e), edge);
    }
  }

  ghost predicate SomeOrigin(c: Chronicle, v: Visible, edge: Edge) {
    FromEventEdge(c, v, edge) || FromSourceEdge(v, edge) || FromHasVersion(c, v, edge) || FromVersionSource(c, v, edge)
    || FromDecisionSource(v, edge) || FromSection(v, edge)
  }

  ghost predicate EventEdgeKind(k: EdgeKind) {
    k in {HasEvent, CreatesArtifact, UpdatesArtifact, RecordsDecision, RecordsRde, RecordsPlan}
  }

  lemma FromEventKind(c: Chronicle, v: Visible, edge: Edge)
    requires FromEventEdge(c, v, edge)
    ensures EventEdgeKind(edge.edgeType)
  {
  }

  lemma OriginByKind(c: Chronicle, v: Visible, edge: Edge)
    ensures SomeOrigin(c, v, edge) <==> EdgeOrigin(c, v, edge)
  {
    if FromEventEdge(c, v, edge) {
      FromEventKind(c, v, edge);
    }
    if FromSection(v, edge) {
      FromSectionKind(v, edge);
    }
    SourceEdgeMember(v, edge);
    VersionEdgeMember(c, v, edge);
    DecisionEdgeMember(v, edge);
  }

  lemma RawEdgeSomeOrigin(c: Chronicle, v: Visible, edge: Edge)
    ensures edge in RawEdges(c, v) <==> SomeOrigin(c, v, edge)
  {
    EventEdgesMember(c, v, edge);
    SourceEdgeMember(v, edge);
    VersionEdgeMember(c, v, edge);
    DecisionEdgeMember(v, edge);
    PlanEdgeMember(v, edge);
    InFive(edge, FlatMap(EventEdges(c.chronicleId, v), v.events), FlatMap(ContextEdges(), v.contexts),
           FlatMap(ArtifactEdges(c.versions, v.EventIds()), v.artifacts),
           FlatMap(DecisionEdges(v.EventIds()), v.decisions), FlatMap(PlanEdges(v.ContextIds()), v.events));
  }

  lemma RawEdgeOrigin(c: Chronicle, v: Visible, edge: Edge)
    ensures edge in RawEdges(c, v) <==> EdgeOrigin(c, v, edge)
  {
    RawEdgeSomeOrigin(c, v, edge);
    OriginByKind(c, v, edge);
  }
}
