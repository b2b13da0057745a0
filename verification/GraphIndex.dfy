/** The file-backed graph index: upserts on two lists that behave like maps. */
module GraphIndex {
  import opened Wrappers
  import opened Sequences
  import opened Ordering

  type Properties = map<string, string>

  datatype IndexNode = IndexNode(nodeId: string, labels: seq<string>, properties: Properties)

  datatype IndexEdge = IndexEdge(sourceId: string, targetId: string, relation: string, properties: Properties)

  datatype Snapshot = Snapshot(nodes: seq<IndexNode>, edges: seq<IndexEdge>)

  datatype IndexError = RecordNotFound(recordId: string)

  // ----- Labels ---------------------------------------------------------------------------------

  /** `dict.fromkeys`: first occurrences, in order. */
  function Distinct(labels: seq<string>): seq<string> {
    if labels == [] then []
    else
      var front := Distinct(labels[..|labels| - 1]);
      if labels[|labels| - 1] in front then front else front + [labels[|labels| - 1]]
  }

  /** No repeats, the same labels, and in the order in which they were first seen. */
  lemma {:induction false} DistinctMeans(labels: seq<string>)
    ensures forall i, j :: 0 <= i < j < |Distinct(labels)| ==> Distinct(labels)[i] != Distinct(labels)[j]
    ensures forall x :: x in Distinct(labels) <==> x in labels
    ensures SublistBy(Same, Distinct(labels), labels)
  {
    if labels != [] {
      var front := labels[..|labels| - 1];
      var last := labels[|labels| - 1];
      assert labels == front + [last];
      DistinctMeans(front);
      if last in Distinct(front) {
        SublistAppend(Same, Distinct(front), front, [], [last]);
        assert Distinct(front) + [] == Distinct(front);
      } else {
        SublistAppend(Same, Distinct(front), front, [last], [last]);
      }
    }
  }

  /** The first occurrences of one list stay when another is appended. */
  lemma {:induction false} DistinctAppend(a: seq<string>, b: seq<string>)
    ensures Distinct(a + b) == Distinct(Distinct(a) + b)
    ensures Distinct(a) <= Distinct(a + b)
    decreases |b|
  {
    if b == [] {
      assert a + b == a && Distinct(a) + b == Distinct(a);
      DistinctIdempotent(a);
    } else {
      var front, last := b[..|b| - 1], b[|b| - 1];
      DistinctAppend(a, front);
      assert (a + b)[..|a + b| - 1] == a + front;
      assert (Distinct(a) + b)[..|Distinct(a) + b| - 1] == Distinct(a) + front;
    }
  }

  lemma {:induction false} DistinctIdempotent(a: seq<string>)
    ensures Distinct(Distinct(a)) == Distinct(a)
  {
    DistinctMeans(a);
    NoRepeats(Distinct(a));
  }

  lemma {:induction false} NoRepeats(a: seq<string>)
    requires forall i, j :: 0 <= i < j < |a| ==> a[i] != a[j]
    ensures Distinct(a) == a
  {
    if a != [] {
      NoRepeats(a[..|a| - 1]);
      assert a == a[..|a| - 1] + [a[|a| - 1]];
    }
  }

  // ----- What a list means -------------------------------------------------------------------------

  ghost predicate NodeIdsUnique(nodes: seq<IndexNode>) {
    forall i, j :: 0 <= i < j < |nodes| ==> nodes[i].nodeId != nodes[j].nodeId
  }

  type Triple = (string, string, string)

  function TripleOf(e: IndexEdge): Triple {
    (e.sourceId, e.targetId, e.relation)
  }

  ghost predicate TriplesUnique(edges: seq<IndexEdge>) {
    forall i, j :: 0 <= i < j < |edges| ==> TripleOf(edges[i]) != TripleOf(edges[j])
  }

  ghost predicate Unique(s: Snapshot) {
    NodeIdsUnique(s.nodes) && TriplesUnique(s.edges)
  }

  /** The node list as a map. */
  ghost function NodeMap(nodes: seq<IndexNode>): map<string, IndexNode> {
    if nodes == [] then map[]
    else NodeMap(nodes[..|nodes| - 1])[nodes[|nodes| - 1].nodeId := nodes[|nodes| - 1]]
  }

  ghost function EdgeMap(edges: seq<IndexEdge>): map<Triple, IndexEdge> {
    if edges == [] then map[]
    else EdgeMap(edges[..|edges| - 1])[TripleOf(edges[|edges| - 1]) := edges[|edges| - 1]]
  }

  lemma {:induction false} NodeMapMeans(nodes: seq<IndexNode>)
    requires NodeIdsUnique(nodes)
    ensures forall id :: id in NodeMap(nodes) <==> exists i :: 0 <= i < |nodes| && nodes[i].nodeId == id
    ensures forall i :: 0 <= i < |nodes| ==>
              nodes[i].nodeId in NodeMap(nodes) && NodeMap(nodes)[nodes[i].nodeId] == nodes[i]
  {
    if nodes != [] {
      var front, last := nodes[..|nodes| - 1], nodes[|nodes| - 1];
      NodeMapMeans(front);
      assert NodeMap(nodes) == NodeMap(front)[last.nodeId := last];
      forall i | 0 <= i < |nodes|
        ensures nodes[i].nodeId in NodeMap(nodes) && NodeMap(nodes)[nodes[i].nodeId] == nodes[i]
      {
        if i < |front| {
          assert front[i] == nodes[i];
        }
      }
      forall id | id in NodeMap(nodes) ensures exists i :: 0 <= i < |nodes| && nodes[i].nodeId == id {
        if id in NodeMap(front) {
          var i :| 0 <= i < |front| && front[i].nodeId == id;
          assert nodes[i].nodeId == id;
        } else {
          assert last.nodeId == id;
        }
      }
    }
  }

  lemma {:induction false} EdgeMapMeans(edges: seq<IndexEdge>)
    requires TriplesUnique(edges)
    ensures forall t :: t in EdgeMap(edges) <==> exists i :: 0 <= i < |edges| && TripleOf(edges[i]) == t
    ensures forall i :: 0 <= i < |edges| ==>
              TripleOf(edges[i]) in EdgeMap(edges) && EdgeMap(edges)[TripleOf(edges[i])] == edges[i]
  {
    if edges != [] {
      var front, last := edges[..|edges| - 1], edges[|edges| - 1];
      EdgeMapMeans(front);
      assert EdgeMap(edges) == EdgeMap(front)[TripleOf(last) := last];
      forall i | 0 <= i < |edges|
        ensures TripleOf(edges[i]) in EdgeMap(edges) && EdgeMap(edges)[TripleOf(edges[i])] == edges[i]
      {
        if i < |front| {
          assert front[i] == edges[i];
        }
      }
      forall t | t in EdgeMap(edges) ensures exists i :: 0 <= i < |edges| && TripleOf(edges[i]) == t {
        if t in EdgeMap(front) {
          var i :| 0 <= i < |front| && TripleOf(front[i]) == t;
          assert TripleOf(edges[i]) == t;
        } else {
          assert TripleOf(last) == t;
        }
      }
    }
  }

  lemma StoredNode(nodes: seq<IndexNode>, i: nat)
    requires NodeIdsUnique(nodes) && i < |nodes|
    ensures Find(NodeMap(nodes), nodes[i].nodeId) == Some(nodes[i])
  {
    NodeMapMeans(nodes);
  }

  lemma NotStored(nodes: seq<IndexNode>, n: IndexNode)
    requires NodeIdsUnique(nodes) && forall i :: 0 <= i < |nodes| ==> nodes[i].nodeId != n.nodeId
    ensures NodeIdsUnique(nodes + [n]) && Find(NodeMap(nodes), n.nodeId) == None
    ensures NodeMap(nodes + [n]) == NodeMap(nodes)[n.nodeId := n]
  {
    NodeMapMeans(nodes);
    assert (nodes + [n])[..|nodes|] == nodes;
  }

  // ----- Upserts on maps -----------------------------------------------------------------------------

  /** The stored node after adding: merged into the earlier one, or as given. */
  function Merged(before: Option<IndexNode>, n: IndexNode): IndexNode {
    if before.None? then n
    else IndexNode(n.nodeId, Distinct(before.value.labels + n.labels), before.value.properties + n.properties)
  }

  /** The node map after `add_node`: a record the chronicle does not know is refused. */
  ghost function NodeAfter(m: map<string, IndexNode>, n: IndexNode, known: set<string>): map<string, IndexNode> {
    if n.nodeId in known then m[n.nodeId := Merged(Find(m, n.nodeId), n)] else m
  }

  /** The edge map after `add_edge`. */
  ghost function EdgeAfter(m: map<Triple, IndexEdge>, e: IndexEdge, known: set<string>): map<Triple, IndexEdge> {
    if e.sourceId in known && e.targetId in known then m[TripleOf(e) := e] else m
  }

  ghost function Find<K, V>(m: map<K, V>, k: K): Option<V> {
    if k in m then Some(m[k]) else None
  }

  // ----- The service -----------------------------------------------------------------------------------

  /** Each call is given the record ids the chronicle knows at that moment. */
  class GraphIndexService {
    var nodes: seq<IndexNode>
    var edges: seq<IndexEdge>

    ghost predicate Valid()
      reads this
    {
      Unique(Snapshot(nodes, edges))
    }

    constructor ()
      ensures Valid() && nodes == [] && edges == []
    {
      nodes, edges := [], [];
    }

    method AddNode(n: IndexNode, known: set<string>) returns (r: Result<IndexNode, IndexError>)
      requires Valid()
      modifies this`nodes
      ensures Valid()
      ensures n.nodeId !in known ==> r == Failure(RecordNotFound(n.nodeId)) && nodes == old(nodes)
      ensures n.nodeId in known ==> r == Success(Merged(Find(NodeMap(old(nodes)), n.nodeId), n))
      ensures NodeMap(nodes) == NodeAfter(NodeMap(old(nodes)), n, known)
      ensures |nodes| == |old(nodes)| || |nodes| == |old(nodes)| + 1
      ensures forall i :: 0 <= i < |old(nodes)| ==>
                nodes[i].nodeId == old(nodes)[i].nodeId && (nodes[i].nodeId != n.nodeId ==> nodes[i] == old(nodes)[i])
    {
      if n.nodeId !in known {
        return Failure(RecordNotFound(n.nodeId));
      }
      var i := 0;
      while i < |nodes|
        invariant 0 <= i <= |nodes| && nodes == old(nodes)
        invariant forall j :: 0 <= j < i ==> nodes[j].nodeId != n.nodeId
      {
        if nodes[i].nodeId == n.nodeId {
          var merged := IndexNode(n.nodeId, Distinct(nodes[i].labels + n.labels), nodes[i].properties + n.properties);
          StoredNode(nodes, i);
          ReplaceNode(nodes, i, merged);
          nodes := nodes[i := merged];
          return Success(merged);
        }
        i := i + 1;
      }
      NotStored(nodes, n);
      nodes := nodes + [n];
      r := Success(n);
    }

    method AddEdge(e: IndexEdge, known: set<string>) returns (r: Result<IndexEdge, IndexError>)
      requires Valid()
      modifies this`edges
      ensures Valid()
      ensures e.sourceId !in known ==> r == Failure(RecordNotFound(e.sourceId)) && edges == old(edges)
      ensures e.sourceId in known && e.targetId !in known ==>
                r == Failure(RecordNotFound(e.targetId)) && edges == old(edges)
      ensures e.sourceId in known && e.targetId in known ==>
                r == Success(e) && edges == Filter(OtherThan(TripleOf(e)), old(edges)) + [e]
      ensures EdgeMap(edges) == EdgeAfter(EdgeMap(old(edges)), e, known)
    {
      if e.sourceId !in known {
        return Failure(RecordNotFound(e.sourceId));
      }
      if e.targetId !in known {
        return Failure(RecordNotFound(e.targetId));
      }
      var kept: seq<IndexEdge> := [];
      for i := 0 to |edges|
        invariant edges == old(edges) && kept == Filter(OtherThan(TripleOf(e)), edges[..i])
      {
        FilterStep(OtherThan(TripleOf(e)), edges, i);
        if !(edges[i].sourceId == e.sourceId && edges[i].targetId == e.targetId && edges[i].relation == e.relation) {
          kept := kept + [edges[i]];
        }
      }
      assert edges[..|edges|] == edges;
      ReplaceEdge(edges, e);
      edges := kept + [e];
      r := Success(e);
    }

    method GetNode(id: string) returns (r: Option<IndexNode>)
      requires Valid()
      ensures r == Find(NodeMap(nodes), id)
    {
      NodeMapMeans(nodes);
      for i := 0 to |nodes|
        invariant forall j :: 0 <= j < i ==> nodes[j].nodeId != id
      {
        if nodes[i].nodeId == id {
          return Some(nodes[i]);
        }
      }
      r := None;
    }

    method GetEdge(t: Triple) returns (r: Option<IndexEdge>)
      requires Valid()
      ensures r == Find(EdgeMap(edges), t)
      ensures r.Some? ==> r.value in edges && (r.value.sourceId, r.value.targetId, r.value.relation) == t
      ensures r.None? ==> forall e :: e in edges ==> (e.sourceId, e.targetId, e.relation) != t
    {
      EdgeMapMeans(edges);
      for i := 0 to |edges|
        invariant forall j :: 0 <= j < i ==> TripleOf(edges[j]) != t
      {
        if TripleOf(edges[i]) == t {
          return Some(edges[i]);
        }
      }
      r := None;
    }

    method Neighbors(id: string, known: set<string>)
      returns (r: Result<(seq<IndexNode>, seq<IndexEdge>, seq<IndexEdge>), IndexError>)
      requires Valid()
      ensures id !in known ==> r == Failure(RecordNotFound(id))
      ensures id in known ==>
                r.Success? && r.value.0 == NeighborList(nodes, edges, id) && Sorted(NodeKey, r.value.0)
                && Permutes(r.value.0, Filter(IsNeighborOf(id, edges), nodes))
                && (forall n :: n in r.value.0 <==> n in nodes && Adjacent(edges, id, n.nodeId))
                && r.value.1 == Filter(From(id), edges) && r.value.2 == Filter(To(id), edges)
                && (forall e :: e in r.value.1 <==> e in edges && e.sourceId == id)
                && (forall e :: e in r.value.2 <==> e in edges && e.targetId == id)
                && (forall i, j :: 0 <= i < j < |r.value.0| ==> StringLeq(r.value.0[i].nodeId, r.value.0[j].nodeId))
    {
      if id !in known {
        return Failure(RecordNotFound(id));
      }
      var outgoing, incoming := Filter(From(id), edges), Filter(To(id), edges);
      var ids := (set e | e in outgoing :: e.targetId) + (set e | e in incoming :: e.sourceId);
      var found: seq<IndexNode> := [];
      AdjacentIds(edges, id);
      for i := 0 to |nodes|
        invariant found == Filter(IsNeighborOf(id, edges), nodes[..i])
      {
        FilterStep(IsNeighborOf(id, edges), nodes, i);
        if nodes[i].nodeId in ids {
          found := found + [nodes[i]];
        }
      }
      assert nodes[..|nodes|] == nodes;
      SortSorted(NodeKey, found);
      PermutesMembers(Sort(NodeKey, found), found);
      forall n | true ensures n in found <==> n in nodes && Adjacent(edges, id, n.nodeId) {
        FilterMember(IsNeighborOf(id, edges), nodes, n);
      }
      EdgesAt(edges, id);
      ByNodeId(Sort(NodeKey, found));
      r := Success((Sort(NodeKey, found), outgoing, incoming));
    }
  }

  function NodeKey(n: IndexNode): seq<string> {
    [n.nodeId]
  }

  function OtherThan(t: Triple): IndexEdge -> bool {
    (e: IndexEdge) => TripleOf(e) != t
  }

  function From(id: string): IndexEdge -> bool {
    (e: IndexEdge) => e.sourceId == id
  }

  function To(id: string): IndexEdge -> bool {
    (e: IndexEdge) => e.targetId == id
  }

  /** Some stored edge joins the two records, in either direction. */
  predicate Adjacent(edges: seq<IndexEdge>, a: string, b: string) {
    exists e :: e in edges && ((e.sourceId == a && e.targetId == b) || (e.sourceId == b && e.targetId == a))
  }

  function IsNeighborOf(id: string, edges: seq<IndexEdge>): IndexNode -> bool {
    (n: IndexNode) => Adjacent(edges, id, n.nodeId)
  }

  lemma AdjacentIds(edges: seq<IndexEdge>, id: string)
    ensures var ids := (set e | e in Filter(From(id), edges) :: e.targetId)
              + (set e | e in Filter(To(id), edges) :: e.sourceId);
            forall other :: other in ids <==> Adjacent(edges, id, other)
  {
    forall e | true ensures e in Filter(From(id), edges) <==> e in edges && e.sourceId == id {
      FilterMember(From(id), edges, e);
    }
    forall e | true ensures e in Filter(To(id), edges) <==> e in edges && e.targetId == id {
      FilterMember(To(id), edges, e);
    }
    var ids := (set e | e in Filter(From(id), edges) :: e.targetId)
        + (set e | e in Filter(To(id), edges) :: e.sourceId);
    forall other | Adjacent(edges, id, other) ensures other in ids {
      var e :| e in edges && ((e.sourceId == id && e.targetId == other) || (e.sourceId == other && e.targetId == id));
      if e.sourceId == id && e.targetId == other {
        assert e in Filter(From(id), edges);
      } else {
        assert e in Filter(To(id), edges);
      }
    }
  }

  lemma EdgesAt(edges: seq<IndexEdge>, id: string)
    ensures forall e :: e in Filter(From(id), edges) <==> e in edges && e.sourceId == id
    ensures forall e :: e in Filter(To(id), edges) <==> e in edges && e.targetId == id
  {
    forall e | true
      ensures e in Filter(From(id), edges) <==> e in edges && e.sourceId == id
      ensures e in Filter(To(id), edges) <==> e in edges && e.targetId == id
    {
      FilterMember(From(id), edges, e);
      FilterMember(To(id), edges, e);
    }
  }

  lemma ByNodeId(nodes: seq<IndexNode>)
    requires Sorted(NodeKey, nodes)
    ensures forall i, j :: 0 <= i < j < |nodes| ==> StringLeq(nodes[i].nodeId, nodes[j].nodeId)
  {
    forall i, j | 0 <= i < j < |nodes| ensures StringLeq(nodes[i].nodeId, nodes[j].nodeId) {
      assert TupleLeq(NodeKey(nodes[i]), NodeKey(nodes[j]));
      StringLeqTotal(nodes[i].nodeId, nodes[i].nodeId);
    }
  }

  /** The nodes `neighbors` returns. */
  function NeighborList(nodes: seq<IndexNode>, edges: seq<IndexEdge>, id: string): seq<IndexNode> {
    Sort(NodeKey, Filter(IsNeighborOf(id, edges), nodes))
  }

  lemma NeighborListMember(nodes: seq<IndexNode>, edges: seq<IndexEdge>, id: string, n: IndexNode)
    ensures n in NeighborList(nodes, edges, id) <==> n in nodes && Adjacent(edges, id, n.nodeId)
  {
    var found := Filter(IsNeighborOf(id, edges), nodes);
    SortSorted(NodeKey, found);
    PermutesMembers(Sort(NodeKey, found), found);
    FilterMember(IsNeighborOf(id, edges), nodes, n);
  }

  /** Of two stored nodes each is among the other's neighbours or neither is. */
  lemma NeighborsSymmetric(nodes: seq<IndexNode>, edges: seq<IndexEdge>, a: IndexNode, b: IndexNode)
    requires a in nodes && b in nodes
    ensures b in NeighborList(nodes, edges, a.nodeId) <==> a in NeighborList(nodes, edges, b.nodeId)
  {
    NeighborListMember(nodes, edges, a.nodeId, b);
    NeighborListMember(nodes, edges, b.nodeId, a);
  }

  lemma {:induction false} NodeMapUpdate(nodes: seq<IndexNode>, i: nat, n: IndexNode)
    requires NodeIdsUnique(nodes) && i < |nodes| && nodes[i].nodeId == n.nodeId
    ensures NodeMap(nodes[i := n]) == NodeMap(nodes)[n.nodeId := n]
  {
    var updated := nodes[i := n];
    var last := |nodes| - 1;
    if i == last {
      assert updated[..last] == nodes[..last];
    } else {
      NodeMapUpdate(nodes[..last], i, n);
      assert updated[..last] == nodes[..last][i := n];
      assert nodes[last].nodeId != n.nodeId;
    }
  }

  lemma ReplaceNode(nodes: seq<IndexNode>, i: nat, n: IndexNode)
    requires NodeIdsUnique(nodes) && i < |nodes| && nodes[i].nodeId == n.nodeId
    ensures NodeIdsUnique(nodes[i := n]) && NodeMap(nodes[i := n]) == NodeMap(nodes)[n.nodeId := n]
  {
    NodeMapUpdate(nodes, i, n);
  }

  lemma EdgeMapAppend(edges: seq<IndexEdge>, e: IndexEdge)
    ensures EdgeMap(edges + [e]) == EdgeMap(edges)[TripleOf(e) := e]
  {
    assert (edges + [e])[..|edges|] == edges;
  }

  lemma RemoveUpdate<K, V>(m: map<K, V>, t: K, k: K, v: V)
    ensures m[k := v] - {t} == if k == t then m - {t} else (m - {t})[k := v]
  {
  }

  lemma FilterLast(edges: seq<IndexEdge>, e: IndexEdge, t: Triple)
    ensures Filter(OtherThan(t), edges + [e]) ==
              if TripleOf(e) == t then Filter(OtherThan(t), edges) else Filter(OtherThan(t), edges) + [e]
  {
    FilterAppend(OtherThan(t), edges, [e]);
    assert Filter(OtherThan(t), [e]) == (if TripleOf(e) == t then [] else [e]) + Filter(OtherThan(t), []);
  }

  lemma {:induction false} EdgeMapFilter(edges: seq<IndexEdge>, t: Triple)
    ensures EdgeMap(Filter(OtherThan(t), edges)) == EdgeMap(edges) - {t}
    decreases |edges|
  {
    if edges == [] {
      assert EdgeMap(edges) - {t} == map[];
    } else {
      var front, e := edges[..|edges| - 1], edges[|edges| - 1];
      assert edges == front + [e];
      EdgeMapFilter(front, t);
      FilterLast(front, e, t);
      EdgeMapAppend(front, e);
      EdgeMapAppend(Filter(OtherThan(t), front), e);
      RemoveUpdate(EdgeMap(front), t, TripleOf(e), e);
    }
  }

  lemma {:induction false} FilterUnique(edges: seq<IndexEdge>, t: Triple)
    requires TriplesUnique(edges)
    ensures TriplesUnique(Filter(OtherThan(t), edges))
    decreases |edges|
  {
    if edges != [] {
      var last := |edges| - 1;
      FilterUnique(edges[..last], t);
      FilterStep(OtherThan(t), edges, last);
      assert edges[..last + 1] == edges;
      var front := Filter(OtherThan(t), edges[..last]);
      forall i | 0 <= i < |front| ensures TripleOf(front[i]) != TripleOf(edges[last]) {
        FilterMember(OtherThan(t), edges[..last], front[i]);
      }
    }
  }

  lemma ReplaceEdge(edges: seq<IndexEdge>, e: IndexEdge)
    requires TriplesUnique(edges)
    ensures var updated := Filter(OtherThan(TripleOf(e)), edges) + [e];
            TriplesUnique(updated) && EdgeMap(updated) == EdgeMap(edges)[TripleOf(e) := e]
  {
    var kept := Filter(OtherThan(TripleOf(e)), edges);
    EdgeMapFilter(edges, TripleOf(e));
    EdgeMapAppend(kept, e);
    RemoveThenAdd(EdgeMap(edges), TripleOf(e), e);
    FilterUnique(edges, TripleOf(e));
    UniqueAppend(kept, edges, e);
  }

  lemma RemoveThenAdd<K, V>(m: map<K, V>, k: K, v: V)
    ensures (m - {k})[k := v] == m[k := v]
  {
  }

  lemma UniqueAppend(kept: seq<IndexEdge>, edges: seq<IndexEdge>, e: IndexEdge)
    requires TriplesUnique(kept) && kept == Filter(OtherThan(TripleOf(e)), edges)
    ensures TriplesUnique(kept + [e])
  {
    forall i | 0 <= i < |kept| ensures TripleOf(kept[i]) != TripleOf(e) {
      FilterMember(OtherThan(TripleOf(e)), edges, kept[i]);
    }
  }

  // ----- Whole runs --------------------------------------------------------------------------------------

  /** What a run of `add_node` calls makes of the node map. */
  ghost function AfterCalls(m: map<string, IndexNode>, calls: seq<IndexNode>): map<string, IndexNode> {
    if calls == [] then m
    else
      var before, n := AfterCalls(m, calls[..|calls| - 1]), calls[|calls| - 1];
      before[n.nodeId := Merged(Find(before, n.nodeId), n)]
  }

  function ForNode(id: string): IndexNode -> bool {
    (n: IndexNode) => n.nodeId == id
  }

  ghost function AllLabels(calls: seq<IndexNode>): seq<string> {
    if calls == [] then [] else AllLabels(calls[..|calls| - 1]) + calls[|calls| - 1].labels
  }

  ghost function AllProperties(calls: seq<IndexNode>): Properties {
    if calls == [] then map[] else AllProperties(calls[..|calls| - 1]) + calls[|calls| - 1].properties
  }

  ghost function MergedCalls(id: string, mine: seq<IndexNode>): IndexNode
    requires mine != []
  {
    IndexNode(id, if |mine| == 1 then mine[0].labels else Distinct(AllLabels(mine)), AllProperties(mine))
  }

  lemma MergeOneMore(id: string, before: seq<IndexNode>, n: IndexNode)
    requires n.nodeId == id
    ensures MergedCalls(id, before + [n]) ==
              Merged(if before == [] then None else Some(MergedCalls(id, before)), n)
  {
    var mine := before + [n];
    assert mine[..|mine| - 1] == before;
    assert AllLabels(mine) == AllLabels(before) + n.labels;
    assert AllProperties(mine) == AllProperties(before) + n.properties;
    if |before| == 1 {
      assert before[..0] == [];
      assert AllLabels(before) == before[0].labels;
    } else if |before| > 1 {
      DistinctAppend(AllLabels(before), n.labels);
    }
  }

  /**
   * After any run from the empty index, a node's properties are those of all its calls with the
   * last write winning; its labels are all of theirs in first-seen order without repeats, except
   * that a node added once keeps its labels as given.
   */
  lemma {:induction false} RunMeaning(calls: seq<IndexNode>, id: string)
    ensures var m, mine := AfterCalls(map[], calls), Filter(ForNode(id), calls);
            Find(m, id) == if mine == [] then None else Some(MergedCalls(id, mine))
    decreases |calls|
  {
    if calls != [] {
      var front, n := calls[..|calls| - 1], calls[|calls| - 1];
      assert calls == front + [n];
      RunMeaning(front, id);
      FilterAppend(ForNode(id), front, [n]);
      var before := Filter(ForNode(id), front);
      assert Filter(ForNode(id), [n]) == if n.nodeId == id then [n] else [];
      if n.nodeId == id {
        MergeOneMore(id, before, n);
      } else {
        assert before + [] == before;
      }
    }
  }

  // ----- Runs of both kinds of calls, over a chronicle that changes ------------------------------------

  /** A call with the record ids the chronicle knows when it is made. */
  datatype Call = NodeCall(node: IndexNode, known: set<string>) | EdgeCall(edge: IndexEdge, known: set<string>)

  ghost function After(calls: seq<Call>): (map<string, IndexNode>, map<Triple, IndexEdge>) {
    if calls == [] then (map[], map[])
    else
      var before := After(calls[..|calls| - 1]);
      match calls[|calls| - 1]
      case NodeCall(n, known) => (NodeAfter(before.0, n, known), before.1)
      case EdgeCall(e, known) => (before.0, EdgeAfter(before.1, e, known))
  }

  /** The accepted node of a call, if it is one. */
  function AcceptedNode(): Call -> seq<IndexNode> {
    (c: Call) => if c.NodeCall? && c.node.nodeId in c.known then [c.node] else []
  }

  function AcceptedEdge(): Call -> seq<IndexEdge> {
    (c: Call) => if c.EdgeCall? && c.edge.sourceId in c.known && c.edge.targetId in c.known then [c.edge] else []
  }

  function ForTriple(t: Triple): IndexEdge -> bool {
    (e: IndexEdge) => TripleOf(e) == t
  }

  lemma LastCall(calls: seq<Call>)
    requires calls != []
    ensures var front, last := calls[..|calls| - 1], calls[|calls| - 1];
            FlatMap(AcceptedNode(), calls) == FlatMap(AcceptedNode(), front) + AcceptedNode()(last)
            && FlatMap(AcceptedEdge(), calls) == FlatMap(AcceptedEdge(), front) + AcceptedEdge()(last)
  {
    FlatMapStep(AcceptedNode(), calls, |calls| - 1);
    FlatMapStep(AcceptedEdge(), calls, |calls| - 1);
    assert calls[..|calls|] == calls;
  }

  lemma AfterOneMore(calls: seq<IndexNode>, n: IndexNode)
    ensures var m := AfterCalls(map[], calls);
            AfterCalls(map[], calls + [n]) == m[n.nodeId := Merged(Find(m, n.nodeId), n)]
  {
    assert (calls + [n])[..|calls|] == calls;
  }

  /** After any run the node map is what its accepted `add_node` calls make of it. */
  lemma {:induction false} NodesOfRun(calls: seq<Call>, id: string)
    ensures var mine := Filter(ForNode(id), FlatMap(AcceptedNode(), calls));
            Find(After(calls).0, id) == if mine == [] then None else Some(MergedCalls(id, mine))
  {
    RunMeaning(FlatMap(AcceptedNode(), calls), id);
    NodesByAccepted(calls);
  }

  lemma {:induction false} NodesByAccepted(calls: seq<Call>)
    ensures After(calls).0 == AfterCalls(map[], FlatMap(AcceptedNode(), calls))
    decreases |calls|
  {
    if calls != [] {
      var front, last := calls[..|calls| - 1], calls[|calls| - 1];
      NodesByAccepted(front);
      LastCall(calls);
      var before := FlatMap(AcceptedNode(), front);
      if last.NodeCall? && last.node.nodeId in last.known {
        AfterOneMore(before, last.node);
      } else {
        assert before + [] == before;
      }
    }
  }

  /** After any run a triple holds the last edge that was accepted for it, and no other triple holds one. */
  lemma {:induction false} EdgesOfRun(calls: seq<Call>, t: Triple)
    ensures var mine := Filter(ForTriple(t), FlatMap(AcceptedEdge(), calls));
            Find(After(calls).1, t) == if mine == [] then None else Some(mine[|mine| - 1])
    decreases |calls|
  {
    if calls != [] {
      var front, last := calls[..|calls| - 1], calls[|calls| - 1];
      EdgesOfRun(front, t);
      LastCall(calls);
      var before := FlatMap(AcceptedEdge(), front);
      FilterAppend(ForTriple(t), before, AcceptedEdge()(last));
      if AcceptedEdge()(last) != [] {
        assert [last.edge][1..] == [];
      }
    }
  }
}
