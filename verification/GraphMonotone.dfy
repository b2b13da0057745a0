/** The export only shrinks as the lifecycle log grows. */
module GraphMonotone {
  import opened Wrappers
  import opened Sequences
  import opened Ordering
  import opened Records
  import opened Lifecycle
  import opened GraphExport

  /** Every target tombstoned in `s` is tombstoned in `t`. */
  ghost predicate FewerTombstones(s: StateMap, t: StateMap) {
    forall id :: IsTombstoned(id, s) ==> IsTombstoned(id, t)
  }

  ghost predicate SameSeals(s: StateMap, t: StateMap) {
    forall id :: IsSealed(id, s) <==> IsSealed(id, t)
  }

  function WithoutWarning(n: Node): Node {
    n.(metadata := n.metadata - {KLifecycleWarning})
  }

  /** Equal nodes, but for the advisory seal warning. */
  ghost predicate SameButSeal(n: Node, m: Node) {
    WithoutWarning(n) == WithoutWarning(m)
  }

  ghost function NodeRelation(exact: bool): (Node, Node) -> bool {
    if exact then Same else SameButSeal
  }

  lemma NodeRelationLaws(exact: bool)
    ensures Reflexive(NodeRelation(exact))
    ensures KeepsKey(NodeRelation(exact), NodeKey)
  {
    forall x, y | NodeRelation(exact)(x, y) ensures NodeKey(x) == NodeKey(y) {
      if !exact {
        assert WithoutWarning(x).nodeType == WithoutWarning(y).nodeType;
        assert WithoutWarning(x).sourceId == WithoutWarning(y).sourceId;
      }
    }
  }

  // ----- Visible records ------------------------------------------------------------------------

  lemma VisibleShrinks(c: Chronicle, s: StateMap, t: StateMap)
    requires FewerTombstones(s, t)
    ensures var v, w := VisibleIn(c, s), VisibleIn(c, t);
            SublistBy(Same, w.events, v.events) && SublistBy(Same, w.contexts, v.contexts)
            && SublistBy(Same, w.artifacts, v.artifacts) && SublistBy(Same, w.decisions, v.decisions)
            && SublistBy(Same, w.rules, v.rules)
  {
    forall e | ReferencesTombstoned(e, s, true) ensures ReferencesTombstoned(e, t, true) {
      var id :| id in TargetIds(e, true) && IsTombstoned(id, s);
      assert IsTombstoned(id, t);
    }
    SublistRefl(Same, c.events);
    SublistFilter(Same, EventShown(t), EventShown(s), c.events, c.events);
    SublistRefl(Same, c.contexts);
    SublistFilter(Same, ContextShown(t), ContextShown(s), c.contexts, c.contexts);
    SublistRefl(Same, c.artifacts);
    SublistFilter(Same, ArtifactShown(t), ArtifactShown(s), c.artifacts, c.artifacts);
    SublistRefl(Same, c.decisions);
    SublistFilter(Same, DecisionShown(t), DecisionShown(s), c.decisions, c.decisions);
    SublistRefl(Same, c.rules);
    SublistFilter(Same, RuleShown(t), RuleShown(s), c.rules, c.rules);
  }

  lemma SublistMembers<T>(a: seq<T>, b: seq<T>)
    requires SublistBy(Same, a, b)
    ensures forall x :: x in a ==> x in b
  {
    forall x | x in a ensures x in b {
      SublistMember(a, b, x);
    }
  }

  lemma VisibleIdsShrink(v: Visible, w: Visible)
    requires SublistBy(Same, w.events, v.events) && SublistBy(Same, w.contexts, v.contexts)
    requires SublistBy(Same, w.artifacts, v.artifacts) && SublistBy(Same, w.decisions, v.decisions)
    ensures w.EventIds() <= v.EventIds() && w.ContextIds() <= v.ContextIds()
    ensures w.ArtifactIds() <= v.ArtifactIds() && w.DecisionIds() <= v.DecisionIds()
  {
    SublistMembers(w.events, v.events);
    SublistMembers(w.contexts, v.contexts);
    SublistMembers(w.artifacts, v.artifacts);
    SublistMembers(w.decisions, v.decisions);
  }

  lemma WhenShrinks<T(!new)>(rel: (T, T) -> bool, p: bool, q: bool, x: T)
    requires Reflexive(rel) && (p ==> q)
    ensures SublistBy(rel, When(p, x), When(q, x))
  {
    SublistRefl(rel, When(p, x));
  }

  lemma OneOne<T>(rel: (T, T) -> bool, x: T, y: T)
    requires rel(x, y)
    ensures SublistBy(rel, [x], [y])
  {
  }

  // ----- Nodes --------------------------------------------------------------------------------------

  lemma VersionNodesShrink(rel: (Node, Node) -> bool, vs: seq<Version>, small: set<string>, big: set<string>)
    requires Reflexive(rel) && small <= big
    ensures SublistBy(rel, FlatMap(VersionNodes(small), vs), FlatMap(VersionNodes(big), vs))
  {
    forall v | v in vs ensures SublistBy(rel, VersionNodes(small)(v), VersionNodes(big)(v)) {
      WhenShrinks(rel, VersionShown(v, small), VersionShown(v, big), VersionNode(v));
    }
    SublistRefl(Same, vs);
    SublistFlatMap(rel, VersionNodes(small), VersionNodes(big), vs, vs);
  }

  lemma SealedNodesRelated(exact: bool, k: NodeKind, id: string, title: string, summary: string, base: Fields,
                           s: StateMap, t: StateMap)
    requires exact ==> SameSeals(s, t)
    ensures NodeRelation(exact)(
              MakeNode(k, id, title, summary, base + SealMetadata(id, t)),
              MakeNode(k, id, title, summary, base + SealMetadata(id, s)))
  {
    assert (base + SealMetadata(id, s)) - {KLifecycleWarning} == base - {KLifecycleWarning};
    assert (base + SealMetadata(id, t)) - {KLifecycleWarning} == base - {KLifecycleWarning};
    assert IsSealed(id, s) == IsSealed(id, t) ==> SealMetadata(id, s) == SealMetadata(id, t);
  }

  lemma EventNodesShrink(exact: bool, s: StateMap, t: StateMap, big: seq<ChronicleEvent>, small: seq<ChronicleEvent>)
    requires (exact ==> SameSeals(s, t)) && SublistBy(Same, small, big)
    ensures SublistBy(NodeRelation(exact), FlatMap(EventNodes(t), small), FlatMap(EventNodes(s), big))
  {
    forall e | e in small ensures SublistBy(NodeRelation(exact), EventNodes(t)(e), EventNodes(s)(e)) {
      var a, b := EventNode(e, EventSeal(e, t)), EventNode(e, EventSeal(e, s));
      if exact {
        assert forall id :: IsSealed(id, s) <==> IsSealed(id, t);
        assert EventSeal(e, t) == EventSeal(e, s);
      } else {
        assert EventSeal(e, t) - {KLifecycleWarning} == map[] == EventSeal(e, s) - {KLifecycleWarning};
      }
      OneOne(NodeRelation(exact), a, b);
    }
    SublistFlatMap(NodeRelation(exact), EventNodes(t), EventNodes(s), small, big);
  }

  lemma ContextNodesShrink(exact: bool, s: StateMap, t: StateMap, big: seq<Context>, small: seq<Context>)
    requires (exact ==> SameSeals(s, t)) && SublistBy(Same, small, big)
    ensures SublistBy(NodeRelation(exact), FlatMap(ContextNodes(t), small), FlatMap(ContextNodes(s), big))
  {
    var rel := NodeRelation(exact);
    NodeRelationLaws(exact);
    forall x | x in small ensures SublistBy(rel, ContextNodes(t)(x), ContextNodes(s)(x)) {
      SealedNodesRelated(exact, ContextKind, x.contextId, x.title, x.summary,
                         map[KScope := Str(x.scope), KVisibility := Str(x.visibilityHint)], s, t);
      OneOne(rel, ContextNode(x, t), ContextNode(x, s));
      var source := if x.source.Some? then [SourceNode(x, x.source.value)] else [];
      SublistRefl(rel, source);
      SublistAppend(rel, [ContextNode(x, t)], [ContextNode(x, s)], source, source);
    }
    SublistFlatMap(rel, ContextNodes(t), ContextNodes(s), small, big);
  }

  lemma ArtifactNodesShrink(exact: bool, s: StateMap, t: StateMap, versions: map<string, seq<Version>>,
                            bigIds: set<string>, smallIds: set<string>, big: seq<Artifact>, small: seq<Artifact>)
    requires (exact ==> SameSeals(s, t)) && SublistBy(Same, small, big) && smallIds <= bigIds
    ensures SublistBy(NodeRelation(exact), FlatMap(ArtifactNodes(versions, smallIds, t), small),
                      FlatMap(ArtifactNodes(versions, bigIds, s), big))
  {
    var rel := NodeRelation(exact);
    NodeRelationLaws(exact);
    var f, g := ArtifactNodes(versions, smallIds, t), ArtifactNodes(versions, bigIds, s);
    forall x | x in small ensures SublistBy(rel, f(x), g(x)) {
      var vs := VersionsOf(versions, x.artifactId);
      SealedNodesRelated(exact, ArtifactKind, x.artifactId, x.title, x.artifactType,
                         map[KVisibility := Str(x.visibilityHint)], s, t);
      OneOne(rel, ArtifactNode(x, t), ArtifactNode(x, s));
      VersionNodesShrink(rel, vs, smallIds, bigIds);
      SublistAppend(rel, [ArtifactNode(x, t)], [ArtifactNode(x, s)],
                    FlatMap(VersionNodes(smallIds), vs), FlatMap(VersionNodes(bigIds), vs));
    }
    SublistFlatMap(rel, f, g, small, big);
  }

  lemma DecisionNodesShrink(exact: bool, s: StateMap, t: StateMap, big: seq<Decision>, small: seq<Decision>)
    requires (exact ==> SameSeals(s, t)) && SublistBy(Same, small, big)
    ensures SublistBy(NodeRelation(exact), FlatMap(DecisionNodes(t), small), FlatMap(DecisionNodes(s), big))
  {
    forall x | x in small ensures SublistBy(NodeRelation(exact), DecisionNodes(t)(x), DecisionNodes(s)(x)) {
      SealedNodesRelated(exact, DecisionKind, x.decisionId, OrElse(x.reason, x.decisionType), "",
                         map[KDecisionType := Str(x.decisionType), KEventId := Str(OrEmpty(x.eventId))], s, t);
      OneOne(NodeRelation(exact), DecisionNode(x, t), DecisionNode(x, s));
    }
    SublistFlatMap(NodeRelation(exact), DecisionNodes(t), DecisionNodes(s), small, big);
  }

  lemma RuleNodesShrink(exact: bool, s: StateMap, t: StateMap, big: seq<BoundaryRule>, small: seq<BoundaryRule>)
    requires (exact ==> SameSeals(s, t)) && SublistBy(Same, small, big)
    ensures SublistBy(NodeRelation(exact), FlatMap(RuleNodes(t), small), FlatMap(RuleNodes(s), big))
  {
    forall x | x in small ensures SublistBy(NodeRelation(exact), RuleNodes(t)(x), RuleNodes(s)(x)) {
      SealedNodesRelated(exact, RuleKind, x.ruleId, RuleNode(x, s).title, "",
                         map[KRuleType := Str(x.ruleType), KField := Str(x.field), KOperator := Str(x.operator)], s, t);
      OneOne(NodeRelation(exact), RuleNode(x, t), RuleNode(x, s));
    }
    SublistFlatMap(NodeRelation(exact), RuleNodes(t), RuleNodes(s), small, big);
  }

  lemma PlanNodesShrink(exact: bool, big: seq<ChronicleEvent>, small: seq<ChronicleEvent>)
    requires SublistBy(Same, small, big)
    ensures SublistBy(NodeRelation(exact), FlatMap(PlanNodes(), small), FlatMap(PlanNodes(), big))
  {
    NodeRelationLaws(exact);
    forall e | e in small ensures SublistBy(NodeRelation(exact), PlanNodes()(e), PlanNodes()(e)) {
      SublistRefl(NodeRelation(exact), PlanNodes()(e));
    }
    SublistFlatMap(NodeRelation(exact), PlanNodes(), PlanNodes(), small, big);
  }

  lemma RawNodesShrink(exact: bool, c: Chronicle, s: StateMap, t: StateMap)
    requires FewerTombstones(s, t) && (exact ==> SameSeals(s, t))
    ensures SublistBy(NodeRelation(exact), RawNodes(c, VisibleIn(c, t), t), RawNodes(c, VisibleIn(c, s), s))
  {
    var rel, v, w := NodeRelation(exact), VisibleIn(c, s), VisibleIn(c, t);
    VisibleShrinks(c, s, t);
    VisibleIdsShrink(v, w);
    var top := [MakeNode(ChronicleKind, c.chronicleId, c.title, "", map[])];
    assert SublistBy(rel, top, top) by {
      NodeRelationLaws(exact);
      SublistRefl(rel, top);
    }
    EventNodesShrink(exact, s, t, v.events, w.events);
    ContextNodesShrink(exact, s, t, v.contexts, w.contexts);
    ArtifactNodesShrink(exact, s, t, c.versions, v.EventIds(), w.EventIds(), v.artifacts, w.artifacts);
    DecisionNodesShrink(exact, s, t, v.decisions, w.decisions);
    RuleNodesShrink(exact, s, t, v.rules, w.rules);
    PlanNodesShrink(exact, v.events, w.events);
    var e1, e2 := FlatMap(EventNodes(t), w.events), FlatMap(EventNodes(s), v.events);
    var c1, c2 := FlatMap(ContextNodes(t), w.contexts), FlatMap(ContextNodes(s), v.contexts);
    var a1 := FlatMap(ArtifactNodes(c.versions, w.EventIds(), t), w.artifacts);
    var a2 := FlatMap(ArtifactNodes(c.versions, v.EventIds(), s), v.artifacts);
    var d1, d2 := FlatMap(DecisionNodes(t), w.decisions), FlatMap(DecisionNodes(s), v.decisions);
    var r1, r2 := FlatMap(RuleNodes(t), w.rules), FlatMap(RuleNodes(s), v.rules);
    var p1, p2 := FlatMap(PlanNodes(), w.events), FlatMap(PlanNodes(), v.events);
    AppendFive(rel, top, top, e1, e2, c1, c2, a1, a2, d1, d2);
    SublistAppend(rel, top + e1 + c1 + a1 + d1, top + e2 + c2 + a2 + d2, r1, r2);
    SublistAppend(rel, top + e1 + c1 + a1 + d1 + r1, top + e2 + c2 + a2 + d2 + r2, p1, p2);
  }

  lemma AppendFive<T>(rel: (T, T) -> bool, a1: seq<T>, b1: seq<T>, a2: seq<T>, b2: seq<T>, a3: seq<T>, b3: seq<T>,
                      a4: seq<T>, b4: seq<T>, a5: seq<T>, b5: seq<T>)
    requires SublistBy(rel, a1, b1) && SublistBy(rel, a2, b2) && SublistBy(rel, a3, b3)
    requires SublistBy(rel, a4, b4) && SublistBy(rel, a5, b5)
    ensures SublistBy(rel, a1 + a2 + a3 + a4 + a5, b1 + b2 + b3 + b4 + b5)
  {
    SublistAppend(rel, a1, b1, a2, b2);
    SublistAppend(rel, a1 + a2, b1 + b2, a3, b3);
    SublistAppend(rel, a1 + a2 + a3, b1 + b2 + b3, a4, b4);
    SublistAppend(rel, a1 + a2 + a3 + a4, b1 + b2 + b3 + b4, a5, b5);
  }

  // ----- Edges ----------------------------------------------------------------------------------------

  lemma EventEdgesShrink(id: string, v: Visible, w: Visible, e: ChronicleEvent)
    requires w.ArtifactIds() <= v.ArtifactIds() && w.DecisionIds() <= v.DecisionIds()
    ensures SublistBy(Same, EventEdges(id, w)(e), EventEdges(id, v)(e))
  {
    var from := NodeId(EventKind, e.eventId);
    var first := [MakeEdge(HasEvent, NodeId(ChronicleKind, id), from)];
    var a1 := if Given(e.artifactId) && e.artifactId.value in w.ArtifactIds() then [EventArtifactEdge(e)] else [];
    var b1 := if Given(e.artifactId) && e.artifactId.value in v.ArtifactIds() then [EventArtifactEdge(e)] else [];
    var d := MakeEdge(RecordsDecision, from, NodeId(DecisionKind, OrEmpty(e.decisionId)));
    var a2 := if Given(e.decisionId) && e.decisionId.value in w.DecisionIds() then [d] else [];
    var b2 := if Given(e.decisionId) && e.decisionId.value in v.DecisionIds() then [d] else [];
    var r := if Given(e.rdeRecordId) then [MakeEdge(RecordsRde, from, NodeId(RdeKind, e.rdeRecordId.value))] else [];
    var p := EventPlanEdges(e);
    SublistRefl(Same, first);
    SublistRefl(Same, r);
    SublistRefl(Same, p);
    SublistRefl(Same, a1);
    SublistRefl(Same, a2);
    assert SublistBy(Same, a1, b1) && SublistBy(Same, a2, b2);
    AppendFive(Same, first, first, a1, b1, a2, b2, r, r, p, p);
    assert EventEdges(id, w)(e) == first + a1 + a2 + r + p;
    assert EventEdges(id, v)(e) == first + b1 + b2 + r + p;
  }

  lemma VersionEdgesShrink(artifactId: string, vs: seq<Version>, small: set<string>, big: set<string>)
    requires small <= big
    ensures SublistBy(Same, FlatMap(VersionEdges(artifactId, small), vs), FlatMap(VersionEdges(artifactId, big), vs))
  {
    forall x | x in vs ensures SublistBy(Same, VersionEdges(artifactId, small)(x), VersionEdges(artifactId, big)(x)) {
      SublistRefl(Same, VersionEdges(artifactId, small)(x));
    }
    SublistRefl(Same, vs);
    SublistFlatMap(Same, VersionEdges(artifactId, small), VersionEdges(artifactId, big), vs, vs);
  }

  lemma RefEdgesShrink(k: EdgeKind, planId: string, refs: seq<PlanRef>, small: set<string>, big: set<string>)
    requires small <= big
    ensures SublistBy(Same, FlatMap(RefEdges(k, planId, small), refs), FlatMap(RefEdges(k, planId, big), refs))
  {
    forall r | r in refs ensures SublistBy(Same, RefEdges(k, planId, small)(r), RefEdges(k, planId, big)(r)) {
      SublistRefl(Same, RefEdges(k, planId, small)(r));
    }
    SublistRefl(Same, refs);
    SublistFlatMap(Same, RefEdges(k, planId, small), RefEdges(k, planId, big), refs, refs);
  }

  lemma PlanEdgesShrink(e: ChronicleEvent, small: set<string>, big: set<string>)
    requires small <= big
    ensures SublistBy(Same, PlanEdges(small)(e), PlanEdges(big)(e))
  {
    forall p: Plan | p in PlansIn(e) ensures SublistBy(Same, SectionEdges(small)(p), SectionEdges(big)(p)) {
      RefEdgesShrink(Selects, p.planId, p.selected, small, big);
      RefEdgesShrink(Warns, p.planId, p.warned, small, big);
      RefEdgesShrink(Excludes, p.planId, p.excluded, small, big);
      var x1, y1 := FlatMap(RefEdges(Selects, p.planId, small), p.selected),
          FlatMap(RefEdges(Selects, p.planId, big), p.selected);
      var x2, y2 := FlatMap(RefEdges(Warns, p.planId, small), p.warned),
          FlatMap(RefEdges(Warns, p.planId, big), p.warned);
      var x3, y3 := FlatMap(RefEdges(Excludes, p.planId, small), p.excluded),
          FlatMap(RefEdges(Excludes, p.planId, big), p.excluded);
      SublistAppend(Same, x1, y1, x2, y2);
      SublistAppend(Same, x1 + x2, y1 + y2, x3, y3);
    }
    SublistRefl(Same, PlansIn(e));
    SublistFlatMap(Same, SectionEdges(small), SectionEdges(big), PlansIn(e), PlansIn(e));
  }

  lemma RawEdgesShrink(c: Chronicle, s: StateMap, t: StateMap)
    requires FewerTombstones(s, t)
    ensures SublistBy(Same, RawEdges(c, VisibleIn(c, t)), RawEdges(c, VisibleIn(c, s)))
  {
    var v, w := VisibleIn(c, s), VisibleIn(c, t);
    VisibleShrinks(c, s, t);
    VisibleIdsShrink(v, w);
    forall e | e in w.events
      ensures SublistBy(Same, EventEdges(c.chronicleId, w)(e), EventEdges(c.chronicleId, v)(e))
      ensures SublistBy(Same, PlanEdges(w.ContextIds())(e), PlanEdges(v.ContextIds())(e))
    {
      EventEdgesShrink(c.chronicleId, v, w, e);
      PlanEdgesShrink(e, w.ContextIds(), v.ContextIds());
    }
    forall x | x in w.contexts ensures SublistBy(Same, ContextEdges()(x), ContextEdges()(x)) {
      SublistRefl(Same, ContextEdges()(x));
    }
    var f, g := ArtifactEdges(c.versions, w.EventIds()), ArtifactEdges(c.versions, v.EventIds());
    forall x | x in w.artifacts ensures SublistBy(Same, f(x), g(x)) {
      VersionEdgesShrink(x.artifactId, VersionsOf(c.versions, x.artifactId), w.EventIds(), v.EventIds());
    }
    forall x | x in w.decisions
      ensures SublistBy(Same, DecisionEdges(w.EventIds())(x), DecisionEdges(v.EventIds())(x))
    {
      SublistRefl(Same, DecisionEdges(w.EventIds())(x));
    }
    SublistFlatMap(Same, EventEdges(c.chronicleId, w), EventEdges(c.chronicleId, v), w.events, v.events);
    SublistFlatMap(Same, ContextEdges(), ContextEdges(), w.contexts, v.contexts);
    SublistFlatMap(Same, f, g, w.artifacts, v.artifacts);
    SublistFlatMap(Same, DecisionEdges(w.EventIds()), DecisionEdges(v.EventIds()), w.decisions, v.decisions);
    SublistFlatMap(Same, PlanEdges(w.ContextIds()), PlanEdges(v.ContextIds()), w.events, v.events);
    AppendFive(Same,
      FlatMap(EventEdges(c.chronicleId, w), w.events), FlatMap(EventEdges(c.chronicleId, v), v.events),
      FlatMap(ContextEdges(), w.contexts), FlatMap(ContextEdges(), v.contexts),
      FlatMap(f, w.artifacts), FlatMap(g, v.artifacts),
      FlatMap(DecisionEdges(w.EventIds()), w.decisions), FlatMap(DecisionEdges(v.EventIds()), v.decisions),
      FlatMap(PlanEdges(w.ContextIds()), w.events), FlatMap(PlanEdges(v.ContextIds()), v.events));
  }

  // ----- The export -----------------------------------------------------------------------------------

  lemma NodesShrink(exact: bool, c: Chronicle, s: StateMap, t: StateMap)
    requires FewerTombstones(s, t) && (exact ==> SameSeals(s, t))
    ensures SublistBy(NodeRelation(exact), ExportNodes(c, t), ExportNodes(c, s))
  {
    RawNodesShrink(exact, c, s, t);
    NodeRelationLaws(exact);
    SortSublist(NodeRelation(exact), NodeKey, RawNodes(c, VisibleIn(c, t), t), RawNodes(c, VisibleIn(c, s), s));
  }

  lemma {:induction false} RelatedMember(a: seq<Node>, b: seq<Node>, n: Node) returns (m: Node)
    requires SublistBy(SameButSeal, a, b) && n in a
    ensures m in b && SameButSeal(n, m)
  {
    if SameButSeal(a[0], b[0]) && SublistBy(SameButSeal, a[1..], b[1..]) {
      if n == a[0] {
        m := b[0];
      } else {
        m := RelatedMember(a[1..], b[1..], n);
      }
    } else {
      m := RelatedMember(a, b[1..], n);
    }
  }

  lemma RelatedIds(a: seq<Node>, b: seq<Node>)
    requires SublistBy(SameButSeal, a, b)
    ensures NodeIds(a) <= NodeIds(b)
  {
    forall n | n in a ensures n.nodeId in NodeIds(b) {
      var m := RelatedMember(a, b, n);
      assert n.nodeId == WithoutWarning(n).nodeId == WithoutWarning(m).nodeId == m.nodeId;
    }
  }

  lemma EdgesShrink(c: Chronicle, s: StateMap, t: StateMap)
    requires FewerTombstones(s, t)
    ensures NodeIds(ExportNodes(c, t)) <= NodeIds(ExportNodes(c, s))
    ensures SublistBy(Same, ExportEdges(c, t), ExportEdges(c, s))
  {
    NodesShrink(false, c, s, t);
    RelatedIds(ExportNodes(c, t), ExportNodes(c, s));
    RawEdgesShrink(c, s, t);
    var p, q := Closed(NodeIds(ExportNodes(c, t))), Closed(NodeIds(ExportNodes(c, s)));
    var a, b := RawEdges(c, VisibleIn(c, t)), RawEdges(c, VisibleIn(c, s));
    SublistFilter(Same, p, q, a, b);
    SortSublist(Same, EdgeKey, Filter(p, a), Filter(q, b));
  }

  lemma MoreTombstones(log: seq<LifecycleEvent>, more: seq<LifecycleEvent>)
    ensures FewerTombstones(StatesOf(log), StatesOf(log + more))
  {
    forall id: string ensures IsTombstoned(id, StatesOf(log)) ==> IsTombstoned(id, StatesOf(log + more)) {
      TombstonedMeans(log, id);
      TombstonedMeans(log + more, id);
      assert forall e :: e in log ==> e in log + more;
    }
  }

  lemma NoNewSeals(log: seq<LifecycleEvent>, more: seq<LifecycleEvent>)
    requires forall e :: e in more ==> e.action != Seal
    ensures SameSeals(StatesOf(log), StatesOf(log + more))
  {
    forall id: string ensures IsSealed(id, StatesOf(log)) <==> IsSealed(id, StatesOf(log + more)) {
      TombstonedMeans(log, id);
      TombstonedMeans(log + more, id);
      assert forall e :: e in log + more <==> e in log || e in more;
    }
  }

  lemma NoNewTombstones(log: seq<LifecycleEvent>, more: seq<LifecycleEvent>)
    requires forall e :: e in more ==> e.action != Tombstone && e.action != HardDelete
    ensures FewerTombstones(StatesOf(log + more), StatesOf(log))
  {
    forall id: string ensures IsTombstoned(id, StatesOf(log + more)) ==> IsTombstoned(id, StatesOf(log)) {
      TombstonedMeans(log, id);
      TombstonedMeans(log + more, id);
      assert forall e :: e in log + more <==> e in log || e in more;
    }
  }

  function EdgeIds(edges: seq<Edge>): set<string> {
    set e | e in edges :: e.edgeId
  }

  /**
   * More lifecycle entries never add anything: the nodes that remain are, in order, nodes of
   * the earlier export up to the seal warning, and the edges that remain are a sub-list.
   */
  lemma ExportAntitone(c: Chronicle, log: seq<LifecycleEvent>, more: seq<LifecycleEvent>)
    requires Export(c, StatesOf(log)).Success?
    ensures Export(c, StatesOf(log + more)).Success?
    ensures var before, after := Export(c, StatesOf(log)).value, Export(c, StatesOf(log + more)).value;
            SublistBy(SameButSeal, after.nodes, before.nodes) && SublistBy(Same, after.edges, before.edges)
            && NodeIds(after.nodes) <= NodeIds(before.nodes) && EdgeIds(after.edges) <= EdgeIds(before.edges)
  {
    var s, t := StatesOf(log), StatesOf(log + more);
    MoreTombstones(log, more);
    ReadableShrinks(c, s, t);
    NodesShrink(false, c, s, t);
    EdgesShrink(c, s, t);
    EdgeIdsShrink(ExportEdges(c, t), ExportEdges(c, s));
  }

  lemma EdgeIdsShrink(a: seq<Edge>, b: seq<Edge>)
    requires SublistBy(Same, a, b)
    ensures EdgeIds(a) <= EdgeIds(b)
  {
    SublistMembers(a, b);
  }

  lemma ReadableShrinks(c: Chronicle, s: StateMap, t: StateMap)
    requires FewerTombstones(s, t) && PlansReadable(VisibleIn(c, s))
    ensures PlansReadable(VisibleIn(c, t))
  {
    VisibleShrinks(c, s, t);
    SublistMembers(VisibleIn(c, t).events, VisibleIn(c, s).events);
  }

  /** Without new seals, the remaining nodes are a sub-list by value. */
  lemma TombstonesDelete(c: Chronicle, log: seq<LifecycleEvent>, more: seq<LifecycleEvent>)
    requires Export(c, StatesOf(log)).Success?
    requires forall e :: e in more ==> e.action != Seal
    ensures Export(c, StatesOf(log + more)).Success?
    ensures SublistBy(Same, Export(c, StatesOf(log + more)).value.nodes, Export(c, StatesOf(log)).value.nodes)
    ensures SublistBy(Same, Export(c, StatesOf(log + more)).value.edges, Export(c, StatesOf(log)).value.edges)
  {
    ExportAntitone(c, log, more);
    MoreTombstones(log, more);
    NoNewSeals(log, more);
    NodesShrink(true, c, StatesOf(log), StatesOf(log + more));
  }

  /** Entries that tombstone nothing keep every edge, and every node but for its seal warning. */
  lemma SealsAnnotate(c: Chronicle, log: seq<LifecycleEvent>, more: seq<LifecycleEvent>)
    requires forall e :: e in more ==> e.action != Tombstone && e.action != HardDelete
    ensures Export(c, StatesOf(log)).Success? <==> Export(c, StatesOf(log + more)).Success?
    ensures Export(c, StatesOf(log)).Success? ==>
              var before, after := Export(c, StatesOf(log)).value, Export(c, StatesOf(log + more)).value;
              after.edges == before.edges && |after.nodes| == |before.nodes|
              && forall i :: 0 <= i < |after.nodes| ==> SameButSeal(after.nodes[i], before.nodes[i])
  {
    var s, t := StatesOf(log), StatesOf(log + more);
    MoreTombstones(log, more);
    NoNewTombstones(log, more);
    if PlansReadable(VisibleIn(c, s)) {
      ReadableShrinks(c, s, t);
    }
    if PlansReadable(VisibleIn(c, t)) {
      ReadableShrinks(c, t, s);
    }
    SameNodesButSeal(c, s, t);
    EdgesShrink(c, s, t);
    EdgesShrink(c, t, s);
    MutualSublists(ExportEdges(c, s), ExportEdges(c, t));
  }

  lemma SameNodesButSeal(c: Chronicle, s: StateMap, t: StateMap)
    requires FewerTombstones(s, t) && FewerTombstones(t, s)
    ensures var before, after := ExportNodes(c, s), ExportNodes(c, t);
            |after| == |before| && forall i :: 0 <= i < |after| ==> SameButSeal(after[i], before[i])
  {
    NodesShrink(false, c, s, t);
    NodesShrink(false, c, t, s);
    SublistLength(SameButSeal, ExportNodes(c, t), ExportNodes(c, s));
    SublistLength(SameButSeal, ExportNodes(c, s), ExportNodes(c, t));
  }

  lemma MutualSublists<T>(a: seq<T>, b: seq<T>)
    requires SublistBy(Same, a, b) && SublistBy(Same, b, a)
    ensures a == b
  {
    SublistLength(Same, a, b);
    SublistLength(Same, b, a);
  }

  /** Redactions and expiries leave the graph and its notes as they were. */
  lemma RedactAndExpireAreInvisible(c: Chronicle, log: seq<LifecycleEvent>, more: seq<LifecycleEvent>)
    requires forall e :: e in more ==> e.action == Redact || e.action == Expire
    ensures Export(c, StatesOf(log + more)) == Export(c, StatesOf(log))
  {
    var s, t := StatesOf(log), StatesOf(log + more);
    SealsAnnotate(c, log, more);
    MoreTombstones(log, more);
    NoNewTombstones(log, more);
    NoNewSeals(log, more);
    NodesShrink(true, c, s, t);
    NodesShrink(true, c, t, s);
    MutualSublists(ExportNodes(c, s), ExportNodes(c, t));
    VisibleShrinks(c, s, t);
    VisibleShrinks(c, t, s);
    var v, w := VisibleIn(c, s), VisibleIn(c, t);
    MutualSublists(v.events, w.events);
    MutualSublists(v.contexts, w.contexts);
    MutualSublists(v.artifacts, w.artifacts);
    MutualSublists(v.decisions, w.decisions);
    MutualSublists(v.rules, w.rules);
    SublistRefl(Same, VisibleIds(v));
    SublistFilter(Same, SealedIn(s), SealedIn(t), VisibleIds(v), VisibleIds(v));
    SublistFilter(Same, SealedIn(t), SealedIn(s), VisibleIds(v), VisibleIds(v));
    MutualSublists(Filter(SealedIn(s), VisibleIds(v)), Filter(SealedIn(t), VisibleIds(v)));
  }
}
