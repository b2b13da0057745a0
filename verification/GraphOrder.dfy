/** The export does not depend on the order in which records are stored or iterated. */
module GraphOrder {
  import opened Wrappers
  import opened Sequences
  import opened Ordering
  import opened Records
  import opened Lifecycle
  import opened GraphExport
  import opened GraphContents
  import opened GraphLaws

  /** The same records in another order, every version list included. */
  ghost predicate Reordered(c: Chronicle, d: Chronicle) {
    c.chronicleId == d.chronicleId && c.title == d.title
    && Permutes(c.events, d.events) && Permutes(c.contexts, d.contexts) && Permutes(c.artifacts, d.artifacts)
    && Permutes(c.decisions, d.decisions) && Permutes(c.rules, d.rules)
    && forall id :: Permutes(VersionsOf(c.versions, id), VersionsOf(d.versions, id))
  }

  lemma VisibleReordered(c: Chronicle, d: Chronicle, states: StateMap)
    requires Reordered(c, d)
    ensures var v, w := VisibleIn(c, states), VisibleIn(d, states);
            Permutes(v.events, w.events) && Permutes(v.contexts, w.contexts) && Permutes(v.artifacts, w.artifacts)
            && Permutes(v.decisions, w.decisions) && Permutes(v.rules, w.rules)
            && v.EventIds() == w.EventIds() && v.ContextIds() == w.ContextIds()
            && v.ArtifactIds() == w.ArtifactIds() && v.DecisionIds() == w.DecisionIds()
  {
    var v, w := VisibleIn(c, states), VisibleIn(d, states);
    PermutesFilter(EventShown(states), c.events, d.events);
    PermutesFilter(ContextShown(states), c.contexts, d.contexts);
    PermutesFilter(ArtifactShown(states), c.artifacts, d.artifacts);
    PermutesFilter(DecisionShown(states), c.decisions, d.decisions);
    PermutesFilter(RuleShown(states), c.rules, d.rules);
    PermutesMembers(v.events, w.events);
    PermutesMembers(v.contexts, w.contexts);
    PermutesMembers(v.artifacts, w.artifacts);
    PermutesMembers(v.decisions, w.decisions);
    PermutesMembers(v.rules, w.rules);
  }

  lemma PermutesAppend<T>(a1: seq<T>, b1: seq<T>, a2: seq<T>, b2: seq<T>)
    requires Permutes(a1, b1) && Permutes(a2, b2)
    ensures Permutes(a1 + a2, b1 + b2)
  {
  }

  lemma RawNodesReordered(c: Chronicle, d: Chronicle, states: StateMap)
    requires Reordered(c, d)
    ensures Permutes(RawNodes(c, VisibleIn(c, states), states), RawNodes(d, VisibleIn(d, states), states))
  {
    VisibleReordered(c, d, states);
    var v, w := VisibleIn(c, states), VisibleIn(d, states);
    var ids := v.EventIds();
    var f, g := ArtifactNodes(c.versions, ids, states), ArtifactNodes(d.versions, ids, states);
    forall a | a in v.artifacts ensures Permutes(f(a), g(a)) {
      var x, y := VersionsOf(c.versions, a.artifactId), VersionsOf(d.versions, a.artifactId);
      PermutesFlatMap(VersionNodes(ids), VersionNodes(ids), x, y);
      PermutesAppend([ArtifactNode(a, states)], [ArtifactNode(a, states)],
                     FlatMap(VersionNodes(ids), x), FlatMap(VersionNodes(ids), y));
    }
    PermutesFlatMap(EventNodes(states), EventNodes(states), v.events, w.events);
    PermutesFlatMap(ContextNodes(states), ContextNodes(states), v.contexts, w.contexts);
    PermutesFlatMap(f, g, v.artifacts, w.artifacts);
    PermutesFlatMap(DecisionNodes(states), DecisionNodes(states), v.decisions, w.decisions);
    PermutesFlatMap(RuleNodes(states), RuleNodes(states), v.rules, w.rules);
    PermutesFlatMap(PlanNodes(), PlanNodes(), v.events, w.events);
  }

  lemma RawNodeKeysDetermine(c: Chronicle, states: StateMap)
    requires IdsIdentify(c)
    ensures KeyDetermines(NodeKey, RawNodes(c, VisibleIn(c, states), states))
  {
    var v := VisibleIn(c, states);
    forall n, m | n in RawNodes(c, v, states) && m in RawNodes(c, v, states) && NodeKey(n) == NodeKey(m)
      ensures n == m
    {
      RawNodeOrigin(c, v, states, n);
      RawNodeOrigin(c, v, states, m);
      assert NodeKey(n)[0] == KindName(n.nodeType) && NodeKey(m)[0] == KindName(m.nodeType);
      assert NodeKey(n)[1] == n.sourceId && NodeKey(m)[1] == m.sourceId;
      KindNamesDiffer(n.nodeType, m.nodeType);
      NodeKeysDetermine(c, states, n, m);
    }
  }

  // ----- Edges within one key ---------------------------------------------------------------------

  /** All edges but those of plan sections. */
  function PlainEdges(c: Chronicle, v: Visible): seq<Edge> {
    FlatMap(EventEdges(c.chronicleId, v), v.events) + FlatMap(ContextEdges(), v.contexts)
    + FlatMap(ArtifactEdges(c.versions, v.EventIds()), v.artifacts) + FlatMap(DecisionEdges(v.EventIds()), v.decisions)
  }

  lemma PlainEdgeOrigin(c: Chronicle, v: Visible, e: Edge)
    requires e in PlainEdges(c, v)
    ensures EdgeOrigin(c, v, e) && e.edgeType != Selects && e.edgeType != Warns && e.edgeType != Excludes
  {
    EventEdgesMember(c, v, e);
    SourceEdgeMember(v, e);
    VersionEdgeMember(c, v, e);
    DecisionEdgeMember(v, e);
    InFive(e, FlatMap(EventEdges(c.chronicleId, v), v.events), FlatMap(ContextEdges(), v.contexts),
           FlatMap(ArtifactEdges(c.versions, v.EventIds()), v.artifacts),
           FlatMap(DecisionEdges(v.EventIds()), v.decisions), []);
    assert PlainEdges(c, v) + [] == PlainEdges(c, v);
  }

  /** Such an edge is decided by its type and ends. */
  lemma PlainEdgeIsMade(c: Chronicle, v: Visible, e: Edge)
    requires EdgeOrigin(c, v, e) && e.edgeType != Selects && e.edgeType != Warns && e.edgeType != Excludes
    ensures e == MakeEdge(e.edgeType, e.fromNodeId, e.toNodeId)
  {
  }

  lemma PlainKeysDetermine(c: Chronicle, v: Visible)
    ensures KeyDetermines(EdgeKey, PlainEdges(c, v))
  {
    forall e, f | e in PlainEdges(c, v) && f in PlainEdges(c, v) && EdgeKey(e) == EdgeKey(f) ensures e == f {
      PlainEdgeOrigin(c, v, e);
      PlainEdgeOrigin(c, v, f);
      PlainEdgeIsMade(c, v, e);
      PlainEdgeIsMade(c, v, f);
      assert EdgeKey(e)[0] == EdgeTypeName(e.edgeType) && EdgeKey(f)[0] == EdgeTypeName(f.edgeType);
      assert EdgeKey(e)[1] == e.fromNodeId && EdgeKey(f)[1] == f.fromNodeId;
      assert EdgeKey(e)[2] == e.toNodeId && EdgeKey(f)[2] == f.toNodeId;
      EdgeTypeNamesDiffer(e.edgeType, f.edgeType);
    }
  }

  lemma PlainReordered(c: Chronicle, d: Chronicle, states: StateMap)
    requires Reordered(c, d)
    ensures Permutes(PlainEdges(c, VisibleIn(c, states)), PlainEdges(d, VisibleIn(d, states)))
  {
    VisibleReordered(c, d, states);
    var v, w := VisibleIn(c, states), VisibleIn(d, states);
    var ids := v.EventIds();
    var f, g := ArtifactEdges(c.versions, ids), ArtifactEdges(d.versions, ids);
    forall a | a in v.artifacts ensures Permutes(f(a), g(a)) {
      PermutesFlatMap(VersionEdges(a.artifactId, ids), VersionEdges(a.artifactId, ids),
                      VersionsOf(c.versions, a.artifactId), VersionsOf(d.versions, a.artifactId));
    }
    forall e | e in v.events ensures Permutes(EventEdges(c.chronicleId, v)(e), EventEdges(d.chronicleId, w)(e)) {
    }
    PermutesFlatMap(EventEdges(c.chronicleId, v), EventEdges(d.chronicleId, w), v.events, w.events);
    PermutesFlatMap(ContextEdges(), ContextEdges(), v.contexts, w.contexts);
    PermutesFlatMap(f, g, v.artifacts, w.artifacts);
    PermutesFlatMap(DecisionEdges(ids), DecisionEdges(ids), v.decisions, w.decisions);
  }

  /** An event's plan edges of one key name the plan it records. */
  lemma PlanBehindKey(contextIds: set<string>, e: ChronicleEvent, k: seq<string>) returns (p: Plan)
    requires Contributes(PlanEdges(contextIds), AtKey(EdgeKey, k))(e)
    ensures PlansIn(e) == [p] && |k| == 3 && k[1] == NodeId(PlanKind, p.planId)
  {
    var mine := Filter(AtKey(EdgeKey, k), PlanEdges(contextIds)(e));
    var edge := mine[0];
    FilterMember(AtKey(EdgeKey, k), PlanEdges(contextIds)(e), edge);
    PlansEdgeMember(contextIds, PlansIn(e), edge);
    OnePlanOrNone(e);
    p := PlansIn(e)[0];
    assert EdgeKey(edge) == k && k[1] == edge.fromNodeId;
    PlanEdgeStart(contextIds, p, edge);
  }

  lemma OnePlanOrNone(e: ChronicleEvent)
    ensures PlansIn(e) == [] || PlansIn(e) == [PlansIn(e)[0]]
  {
  }

  lemma PlanEdgeStart(contextIds: set<string>, p: Plan, edge: Edge)
    requires FromPlans(contextIds, [p], edge)
    ensures edge.fromNodeId == NodeId(PlanKind, p.planId)
  {
  }

  /** Two events with plan edges of one key record the same plan, so they add the same edges in the same order. */
  lemma SamePlanSameEdges(c: Chronicle, contextIds: set<string>, x: ChronicleEvent, y: ChronicleEvent, k: seq<string>)
    requires IdsIdentify(c) && x in c.events && y in c.events
    requires Contributes(PlanEdges(contextIds), AtKey(EdgeKey, k))(x)
              && Contributes(PlanEdges(contextIds), AtKey(EdgeKey, k))(y)
    ensures PlanEdges(contextIds)(x) == PlanEdges(contextIds)(y)
  {
    var p := PlanBehindKey(contextIds, x, k);
    var q := PlanBehindKey(contextIds, y, k);
    NodeIdAmbiguity(PlanKind, p.planId, PlanKind, q.planId);
    assert p in PlansIn(x) && q in PlansIn(y);
    assert p == q;
  }

  lemma PlanEdgesSameByKey(c: Chronicle, contextIds: set<string>, a: seq<ChronicleEvent>, b: seq<ChronicleEvent>)
    requires IdsIdentify(c) && Permutes(a, b) && forall e :: e in a ==> e in c.events
    ensures SameByKey(EdgeKey, FlatMap(PlanEdges(contextIds), a), FlatMap(PlanEdges(contextIds), b))
  {
    forall k | true
      ensures Filter(AtKey(EdgeKey, k), FlatMap(PlanEdges(contextIds), a))
                == Filter(AtKey(EdgeKey, k), FlatMap(PlanEdges(contextIds), b))
    {
      var f, p := PlanEdges(contextIds), AtKey(EdgeKey, k);
      forall x, y | x in a && y in a && Contributes(f, p)(x) && Contributes(f, p)(y)
        ensures Filter(p, f(x)) == Filter(p, f(y))
      {
        SamePlanSameEdges(c, contextIds, x, y, k);
      }
      FlatMapUniform(f, p, a, b);
    }
  }

  lemma SameByKeyAppend<T>(key: T -> seq<string>, a1: seq<T>, b1: seq<T>, a2: seq<T>, b2: seq<T>)
    requires SameByKey(key, a1, b1) && SameByKey(key, a2, b2)
    ensures SameByKey(key, a1 + a2, b1 + b2)
  {
    forall k | true ensures Filter(AtKey(key, k), a1 + a2) == Filter(AtKey(key, k), b1 + b2) {
      FilterAppend(AtKey(key, k), a1, a2);
      FilterAppend(AtKey(key, k), b1, b2);
      assert Filter(AtKey(key, k), a1) == Filter(AtKey(key, k), b1)
          && Filter(AtKey(key, k), a2) == Filter(AtKey(key, k), b2);
    }
  }

  lemma SameByKeyFilter<T>(key: T -> seq<string>, p: T -> bool, a: seq<T>, b: seq<T>)
    requires SameByKey(key, a, b)
    ensures SameByKey(key, Filter(p, a), Filter(p, b))
  {
    forall k | true ensures Filter(AtKey(key, k), Filter(p, a)) == Filter(AtKey(key, k), Filter(p, b)) {
      FilterCommutes(AtKey(key, k), p, a);
      FilterCommutes(AtKey(key, k), p, b);
      assert Filter(AtKey(key, k), a) == Filter(AtKey(key, k), b);
    }
  }

  lemma RawEdgesSameByKey(c: Chronicle, d: Chronicle, states: StateMap)
    requires Reordered(c, d) && IdsIdentify(c)
    ensures SameByKey(EdgeKey, RawEdges(c, VisibleIn(c, states)), RawEdges(d, VisibleIn(d, states)))
  {
    var v, w := VisibleIn(c, states), VisibleIn(d, states);
    VisibleReordered(c, d, states);
    PlainReordered(c, d, states);
    PlainKeysDetermine(c, v);
    PermutationSameByKey(EdgeKey, PlainEdges(c, v), PlainEdges(d, w));
    forall e | e in v.events ensures e in c.events {
      VisibleEvent(c, states, e);
    }
    PlanEdgesSameByKey(c, v.ContextIds(), v.events, w.events);
    SameByKeyAppend(EdgeKey, PlainEdges(c, v), PlainEdges(d, w),
                    FlatMap(PlanEdges(v.ContextIds()), v.events), FlatMap(PlanEdges(w.ContextIds()), w.events));
  }

  lemma PermutesMap<A, B>(f: A -> B, a: seq<A>, b: seq<A>)
    requires Permutes(a, b)
    ensures Permutes(Map(f, a), Map(f, b))
  {
    PermutesMembers(a, b);
    if a == [] {
      assert b == [];
    } else {
      var i := RemoveHead(a, b);
      PermutesMap(f, a[1..], b[..i] + b[i + 1..]);
      assert Map(f, a) == [f(a[0])] + Map(f, a[1..]);
      assert Map(f, b) == Map(f, b[..i]) + [f(b[i])] + Map(f, b[i + 1..]);
      assert Map(f, b[..i] + b[i + 1..]) == Map(f, b[..i]) + Map(f, b[i + 1..]);
    }
  }

  lemma VisibleIdsReordered(v: Visible, w: Visible)
    requires Permutes(v.contexts, w.contexts) && Permutes(v.artifacts, w.artifacts)
    requires Permutes(v.decisions, w.decisions) && Permutes(v.rules, w.rules)
    ensures Permutes(VisibleIds(v), VisibleIds(w))
  {
    var f, g := (a: Artifact) => a.artifactId, (x: Context) => x.contextId;
    var h, k := (x: Decision) => x.decisionId, (r: BoundaryRule) => r.ruleId;
    PermutesMap(f, v.artifacts, w.artifacts);
    PermutesMap(g, v.contexts, w.contexts);
    PermutesMap(h, v.decisions, w.decisions);
    PermutesMap(k, v.rules, w.rules);
    assert VisibleIds(v) == Map(f, v.artifacts) + Map(g, v.contexts) + Map(h, v.decisions) + Map(k, v.rules);
    assert VisibleIds(w) == Map(f, w.artifacts) + Map(g, w.contexts) + Map(h, w.decisions) + Map(k, w.rules);
    PermutesAppend(Map(f, v.artifacts), Map(f, w.artifacts), Map(g, v.contexts), Map(g, w.contexts));
    PermutesAppend(Map(f, v.artifacts) + Map(g, v.contexts), Map(f, w.artifacts) + Map(g, w.contexts),
                   Map(h, v.decisions), Map(h, w.decisions));
    PermutesAppend(Map(f, v.artifacts) + Map(g, v.contexts) + Map(h, v.decisions),
                   Map(f, w.artifacts) + Map(g, w.contexts) + Map(h, w.decisions), Map(k, v.rules), Map(k, w.rules));
  }

  lemma SameLength<T>(a: seq<T>, b: seq<T>)
    requires Permutes(a, b)
    ensures |a| == |b|
  {
    PermutesMembers(a, b);
  }

  lemma CountsReordered(c: Chronicle, d: Chronicle, states: StateMap)
    requires Reordered(c, d)
    ensures RecordsHidden(c, VisibleIn(c, states)) == RecordsHidden(d, VisibleIn(d, states))
    ensures EventsHidden(c, VisibleIn(c, states)) == EventsHidden(d, VisibleIn(d, states))
  {
    VisibleReordered(c, d, states);
    var v, w := VisibleIn(c, states), VisibleIn(d, states);
    SameLength(c.events, d.events);
    SameLength(c.contexts, d.contexts);
    SameLength(c.artifacts, d.artifacts);
    SameLength(c.decisions, d.decisions);
    SameLength(c.rules, d.rules);
    SameLength(v.events, w.events);
    SameLength(v.contexts, w.contexts);
    SameLength(v.artifacts, w.artifacts);
    SameLength(v.decisions, w.decisions);
    SameLength(v.rules, w.rules);
  }

  lemma SealedReordered(v: Visible, w: Visible, states: StateMap)
    requires Permutes(VisibleIds(v), VisibleIds(w))
    ensures SealedCount(v, states) == SealedCount(w, states)
  {
    PermutesFilter(SealedIn(states), VisibleIds(v), VisibleIds(w));
    SameLength(Filter(SealedIn(states), VisibleIds(v)), Filter(SealedIn(states), VisibleIds(w)));
  }

  lemma NotesReordered(c: Chronicle, d: Chronicle, states: StateMap)
    requires Reordered(c, d)
    ensures Notes(c, VisibleIn(c, states), states) == Notes(d, VisibleIn(d, states), states)
  {
    CountsReordered(c, d, states);
    SealedCountReordered(c, d, states);
  }

  lemma SealedCountReordered(c: Chronicle, d: Chronicle, states: StateMap)
    requires Reordered(c, d)
    ensures SealedCount(VisibleIn(c, states), states) == SealedCount(VisibleIn(d, states), states)
  {
    VisibleReordered(c, d, states);
    VisibleIdsReordered(VisibleIn(c, states), VisibleIn(d, states));
    SealedReordered(VisibleIn(c, states), VisibleIn(d, states), states);
  }

  lemma NodesReordered(c: Chronicle, d: Chronicle, states: StateMap)
    requires Reordered(c, d) && IdsIdentify(c)
    ensures ExportNodes(c, states) == ExportNodes(d, states)
  {
    RawNodesReordered(c, d, states);
    RawNodeKeysDetermine(c, states);
    SortPermutation(NodeKey, RawNodes(c, VisibleIn(c, states), states), RawNodes(d, VisibleIn(d, states), states));
  }

  lemma EdgesReordered(c: Chronicle, d: Chronicle, states: StateMap)
    requires Reordered(c, d) && IdsIdentify(c)
    ensures ExportEdges(c, states) == ExportEdges(d, states)
  {
    NodesReordered(c, d, states);
    var keep := Closed(NodeIds(ExportNodes(c, states)));
    var a, b := RawEdges(c, VisibleIn(c, states)), RawEdges(d, VisibleIn(d, states));
    RawEdgesSameByKey(c, d, states);
    SameByKeyFilter(EdgeKey, keep, a, b);
    SortDecidedByKey(EdgeKey, Filter(keep, a), Filter(keep, b));
  }

  /**
   * Reordering events, indexes and version lists leaves the export as it was when ids identify
   * records. A plan may name a context twice: the sort is stable, so its entries keep their order.
   */
  lemma ExportOrderIndependent(c: Chronicle, d: Chronicle, states: StateMap)
    requires Reordered(c, d) && IdsIdentify(c)
    ensures Export(c, states) == Export(d, states)
  {
    assert PlansReadable(VisibleIn(c, states)) <==> PlansReadable(VisibleIn(d, states)) by {
      VisibleReordered(c, d, states);
      PermutesMembers(VisibleIn(c, states).events, VisibleIn(d, states).events);
    }
    NodesReordered(c, d, states);
    EdgesReordered(c, d, states);
    NotesReordered(c, d, states);
  }

  /**
   * Ids must identify records: of two events that record one plan id with different tasks, the stable
   * sort shows the log order, so the two orders of the log give different exports.
   */
  lemma PlanOrderShows(c: Chronicle, d: Chronicle, x: ChronicleEvent, y: ChronicleEvent, p: Plan, q: Plan,
                       states: StateMap)
    requires c.events == [x, y] && d == c.(events := [y, x])
    requires c.contexts == [] && c.artifacts == [] && c.decisions == [] && c.rules == []
    requires PlanFor(x) == Success(Some(p)) && PlanFor(y) == Success(Some(q))
    requires p.planId == q.planId && p.task != q.task
    requires !ReferencesTombstoned(x, states, true) && !ReferencesTombstoned(y, states, true)
    ensures Export(c, states).Success? && Export(d, states).Success? && Export(c, states) != Export(d, states)
  {
    var k := NodeKey(PlanNode(p));
    TwoEvents(c, x, y, states);
    TwoEvents(d, y, x, states);
    TwoPlanNodes(c, x, y, p, q, states);
    TwoPlanNodes(d, y, x, q, p, states);
    SortStable(NodeKey, RawNodes(c, VisibleIn(c, states), states), k);
    SortStable(NodeKey, RawNodes(d, VisibleIn(d, states), states), k);
    assert [PlanNode(p), PlanNode(q)][0].title != [PlanNode(q), PlanNode(p)][0].title;
  }

  lemma TwoEvents(c: Chronicle, x: ChronicleEvent, y: ChronicleEvent, states: StateMap)
    requires c.events == [x, y] && c.contexts == [] && c.artifacts == [] && c.decisions == [] && c.rules == []
    requires PlanFor(x).Success? && PlanFor(y).Success?
    requires !ReferencesTombstoned(x, states, true) && !ReferencesTombstoned(y, states, true)
    ensures VisibleIn(c, states) == Visible([x, y], [], [], [], []) && Export(c, states).Success?
  {
    assert [x, y][1..] == [y] && [y][1..] == [];
    assert Filter(EventShown(states), [y]) == [y];
    assert Filter(EventShown(states), [x, y]) == [x] + [y];
  }

  lemma TwoPlanNodes(c: Chronicle, x: ChronicleEvent, y: ChronicleEvent, p: Plan, q: Plan, states: StateMap)
    requires PlanFor(x) == Success(Some(p)) && PlanFor(y) == Success(Some(q)) && p.planId == q.planId
    ensures var v := Visible([x, y], [], [], [], []);
            Filter(AtKey(NodeKey, NodeKey(PlanNode(p))), RawNodes(c, v, states)) == [PlanNode(p), PlanNode(q)]
  {
    var chronicle := MakeNode(ChronicleKind, c.chronicleId, c.title, "", map[]);
    var e1, e2 := EventNode(x, EventSeal(x, states)), EventNode(y, EventSeal(y, states));
    NodesOfTwoEvents(c, x, y, p, q, states);
    AtPlanKey(p, chronicle);
    AtPlanKey(p, e1);
    AtPlanKey(p, e2);
    AtPlanKey(p, PlanNode(p));
    AtPlanKey(p, PlanNode(q));
    LastTwo(AtKey(NodeKey, NodeKey(PlanNode(p))), chronicle, e1, e2, PlanNode(p), PlanNode(q));
  }

  lemma NodesOfTwoEvents(c: Chronicle, x: ChronicleEvent, y: ChronicleEvent, p: Plan, q: Plan, states: StateMap)
    requires PlanFor(x) == Success(Some(p)) && PlanFor(y) == Success(Some(q))
    ensures RawNodes(c, Visible([x, y], [], [], [], []), states) ==
              [MakeNode(ChronicleKind, c.chronicleId, c.title, "", map[])]
              + [EventNode(x, EventSeal(x, states))] + [EventNode(y, EventSeal(y, states))]
              + [PlanNode(p)] + [PlanNode(q)]
  {
    NodesOfEvents(c, [x, y], states);
    OneByOne(EventNodes(states), x, y);
    OneByOne(PlanNodes(), x, y);
    assert PlanNodes()(x) == [PlanNode(p)] && PlanNodes()(y) == [PlanNode(q)];
    Regroup(MakeNode(ChronicleKind, c.chronicleId, c.title, "", map[]), EventNode(x, EventSeal(x, states)),
            EventNode(y, EventSeal(y, states)), PlanNode(p), PlanNode(q));
  }

  lemma NodesOfEvents(c: Chronicle, events: seq<ChronicleEvent>, states: StateMap)
    ensures RawNodes(c, Visible(events, [], [], [], []), states) ==
              [MakeNode(ChronicleKind, c.chronicleId, c.title, "", map[])]
              + FlatMap(EventNodes(states), events) + FlatMap(PlanNodes(), events)
  {
  }

  lemma Regroup<T>(a: T, b: T, c: T, p: T, q: T)
    ensures [a] + ([b] + [c]) + ([p] + [q]) == [a] + [b] + [c] + [p] + [q]
  {
  }

  lemma AtPlanKey(p: Plan, n: Node)
    requires n.nodeType == ChronicleKind || n.nodeType == EventKind
             || (n.nodeType == PlanKind && n.sourceId == p.planId)
    ensures AtKey(NodeKey, NodeKey(PlanNode(p)))(n) <==> n.nodeType == PlanKind
  {
    KindNames();
    assert NodeKey(n)[0] == KindName(n.nodeType) && NodeKey(PlanNode(p))[0] == KindName(PlanKind);
  }

  lemma KindNames()
    ensures KindName(ChronicleKind) != KindName(PlanKind) && KindName(EventKind) != KindName(PlanKind)
  {
    assert KindName(PlanKind)[0] == 'i' && KindName(ChronicleKind)[0] == 'c' && KindName(EventKind)[0] == 'e';
  }

  lemma OneByOne<A, B>(f: A -> seq<B>, x: A, y: A)
    ensures FlatMap(f, [x, y]) == f(x) + f(y)
  {
    assert [x, y][1..] == [y] && [y][1..] == [];
    assert FlatMap(f, [y]) == f(y) + [];
  }

  lemma FilterLast<T>(f: T -> bool, s: seq<T>, x: T)
    ensures Filter(f, s + [x]) == Filter(f, s) + (if f(x) then [x] else [])
  {
    FilterAppend(f, s, [x]);
    assert [x][1..] == [];
  }

  lemma LastTwo<T>(f: T -> bool, a: T, b: T, c: T, p: T, q: T)
    requires !f(a) && !f(b) && !f(c) && f(p) && f(q)
    ensures Filter(f, [a] + [b] + [c] + [p] + [q]) == [p, q]
  {
    FilterLast(f, [], a);
    assert [] + [a] == [a];
    FilterLast(f, [a], b);
    FilterLast(f, [a] + [b], c);
    FilterLast(f, [a] + [b] + [c], p);
    FilterLast(f, [a] + [b] + [c] + [p], q);
  }
}
