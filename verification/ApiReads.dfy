/** The API's read loops against what they are meant to return. */
module ApiReads {
  import opened Wrappers
  import opened Sequences
  import opened Ordering
  import opened Records
  import opened IndexProjection
  import opened ChronicleStore

  // ----- GET /timeline --------------------------------------------------------------------------

  datatype TimelineQuery = TimelineQuery(
    contextIds: seq<string>, artifactId: Option<string>, decisionId: Option<string>,
    includePayload: bool, limit: nat)

  /** An event as a row: the payload may be left out. */
  datatype TimelineRow = TimelineRow(event: ChronicleEvent, payload: Option<Fields>)

  function RowOf(includePayload: bool): ChronicleEvent -> TimelineRow {
    (e: ChronicleEvent) => TimelineRow(e.(payload := map[]), if includePayload then Some(e.payload) else None)
  }

  /** Each given selector must match: some requested context, the artifact, the decision. */
  function Matching(q: TimelineQuery): ChronicleEvent -> bool {
    (e: ChronicleEvent) =>
      (q.contextIds == [] || exists id :: id in q.contextIds && id in e.contextIds)
      && (Given(q.artifactId) ==> e.artifactId == q.artifactId)
      && (Given(q.decisionId) ==> e.decisionId == q.decisionId)
  }

  function Take<T>(s: seq<T>, n: nat): seq<T> {
    if n <= |s| then s[..n] else s
  }

  /** `get_timeline`: the first `limit` matching events, in log order. */
  method GetTimeline(log: seq<ChronicleEvent>, q: TimelineQuery) returns (rows: seq<TimelineRow>)
    requires q.limit >= 1
    ensures rows == Map(RowOf(q.includePayload), Take(Filter(Matching(q), log), q.limit))
  {
    var matching := Matching(q);
    var row := RowOf(q.includePayload);
    rows := [];
    ghost var found: seq<ChronicleEvent> := [];
    var i := 0;
    while i < |log|
      invariant 0 <= i <= |log|
      invariant found == Filter(matching, log[..i]) && rows == Map(row, found) && |rows| < q.limit
    {
      FilterStep(matching, log, i);
      if matching(log[i]) {
        rows := rows + [row(log[i])];
        found := found + [log[i]];
        assert rows == Map(row, found);
        if |rows| >= q.limit {
          FilterAppend(matching, log[..i + 1], log[i + 1..]);
          assert log == log[..i + 1] + log[i + 1..];
          return;
        }
      }
      i := i + 1;
    }
    assert log[..|log|] == log;
  }

  /** The event is what the query asks for. */
  ghost predicate Asked(q: TimelineQuery, e: ChronicleEvent) {
    && (q.contextIds != [] ==> exists id :: id in q.contextIds && id in e.contextIds)
    && (q.artifactId.Some? && q.artifactId.value != "" ==> e.artifactId == q.artifactId)
    && (q.decisionId.Some? && q.decisionId.value != "" ==> e.decisionId == q.decisionId)
  }

  /** Ascending positions in a list of `n`. */
  ghost predicate Positions(at: seq<nat>, n: nat) {
    (forall i :: 0 <= i < |at| ==> at[i] < n) && (forall i, j :: 0 <= i < j < |at| ==> at[i] < at[j])
  }

  /** `at` lists the positions of the elements that satisfy `p`. */
  ghost predicate Finds<T>(p: T -> bool, s: seq<T>, at: seq<nat>) {
    Positions(at, |s|) && forall j :: 0 <= j < |s| ==> (p(s[j]) <==> j in at)
  }

  /** `picked` are the elements at those positions. */
  ghost predicate Picks<T>(s: seq<T>, at: seq<nat>, picked: seq<T>) {
    |picked| == |at| && forall k :: 0 <= k < |at| ==> at[k] < |s| && picked[k] == s[at[k]]
  }

  lemma {:induction false} FilterPositions<T>(p: T -> bool, s: seq<T>) returns (at: seq<nat>)
    ensures Finds(p, s, at) && Picks(s, at, Filter(p, s))
  {
    if s == [] {
      at := [];
    } else {
      var n := |s| - 1;
      at := FilterPositions(p, s[..n]);
      assert s[..n + 1] == s;
      FindsStep(p, s, n, at);
      PicksStep(p, s, n, at);
      at := if p(s[n]) then at + [n] else at;
    }
  }

  lemma FindsStep<T>(p: T -> bool, s: seq<T>, i: nat, at: seq<nat>)
    requires i < |s| && Finds(p, s[..i], at)
    ensures Finds(p, s[..i + 1], if p(s[i]) then at + [i] else at)
  {
    var after := if p(s[i]) then at + [i] else at;
    forall j | 0 <= j < i + 1 ensures p(s[j]) <==> j in after {
      if j < i {
        assert p(s[..i][j]) <==> j in at;
      } else {
        assert j !in at;
        assert p(s[i]) ==> after[|at|] == i;
      }
    }
  }

  lemma PicksStep<T>(p: T -> bool, s: seq<T>, i: nat, at: seq<nat>)
    requires i < |s| && Picks(s[..i], at, Filter(p, s[..i]))
    ensures Picks(s[..i + 1], if p(s[i]) then at + [i] else at, Filter(p, s[..i + 1]))
  {
    FilterStep(p, s, i);
  }

  /** Nothing asked for is passed over before the limit is reached. */
  ghost predicate NothingSkipped(log: seq<ChronicleEvent>, q: TimelineQuery, at: seq<nat>) {
    forall j :: 0 <= j < |log| && Asked(q, log[j]) ==> j in at || (0 < |at| == q.limit && at[|at| - 1] < j)
  }

  /** The row is the event at this place, with its payload if that was wanted. */
  ghost predicate IsRowOf(row: TimelineRow, e: ChronicleEvent, includePayload: bool) {
    row.event == e.(payload := map[]) && row.payload == if includePayload then Some(e.payload) else None
  }

  /**
   * What the timeline rows are: the rows of asked-for events, at ascending places of the log, and of
   * all such events up to the last one taken.
   */
  lemma TimelineRows(log: seq<ChronicleEvent>, q: TimelineQuery) returns (at: seq<nat>)
    requires q.limit >= 1
    ensures var rows := Map(RowOf(q.includePayload), Take(Filter(Matching(q), log), q.limit));
            |rows| == |at| <= q.limit && Positions(at, |log|) && NothingSkipped(log, q, at)
            && forall k :: 0 <= k < |at| ==> Asked(q, log[at[k]]) && IsRowOf(rows[k], log[at[k]], q.includePayload)
  {
    var all := FilterPositions(Matching(q), log);
    at := Take(all, q.limit);
    AskedIsMatching(q, log);
    FirstAreKept(log, q, all);
    TakenRows(log, q, all, Filter(Matching(q), log));
    forall k | 0 <= k < |at| ensures Asked(q, log[at[k]]) {
      assert all[k] in all;
    }
  }

  lemma TakenRows(log: seq<ChronicleEvent>, q: TimelineQuery, all: seq<nat>, picked: seq<ChronicleEvent>)
    requires Picks(log, all, picked)
    ensures var at, rows := Take(all, q.limit), Map(RowOf(q.includePayload), Take(picked, q.limit));
            |rows| == |at| <= q.limit
            && forall k :: 0 <= k < |at| ==> at[k] < |log| && IsRowOf(rows[k], log[at[k]], q.includePayload)
  {
  }

  lemma AskedIsMatching(q: TimelineQuery, log: seq<ChronicleEvent>)
    ensures forall j :: 0 <= j < |log| ==> (Matching(q)(log[j]) <==> Asked(q, log[j]))
  {
  }

  lemma FirstAreKept(log: seq<ChronicleEvent>, q: TimelineQuery, all: seq<nat>)
    requires q.limit >= 1 && Positions(all, |log|)
    requires forall j :: 0 <= j < |log| && Asked(q, log[j]) ==> j in all
    ensures Positions(Take(all, q.limit), |log|) && NothingSkipped(log, q, Take(all, q.limit))
  {
    var at := Take(all, q.limit);
    forall j | 0 <= j < |log| && Asked(q, log[j]) ensures j in at || (0 < |at| == q.limit && at[|at| - 1] < j) {
      var k :| 0 <= k < |all| && all[k] == j;
      assert k < |at| ==> at[k] == j;
      assert k >= |at| ==> at[|at| - 1] == all[|at| - 1];
    }
  }

  // ----- GET /context ----------------------------------------------------------------------------

  datatype ContextQuery = ContextQuery(contextIds: seq<string>, includePayload: bool, limit: nat)

  function ContextRow(c: Context, includePayload: bool): Fields {
    if includePayload then DumpContext(c) else DumpContext(c) - {KSourceRef}
  }

  /** A row is the whole context; without the payload it lacks the source reference only. */
  lemma ContextRowMeans(c: Context, includePayload: bool, k: Key)
    ensures k in ContextRow(c, includePayload) <==> k in DumpContext(c) && (includePayload || k != KSourceRef)
    ensures k in ContextRow(c, includePayload) ==> ContextRow(c, includePayload)[k] == DumpContext(c)[k]
  {
  }

  /** The indexed ids a query asks for: all of them when it names none. */
  function Wanted(contexts: map<string, Context>, q: ContextQuery): set<string> {
    set id | id in contexts.Keys && (q.contextIds == [] || id in q.contextIds)
  }

  predicate Below(a: string, b: string) {
    StringLeq(a, b) && a != b
  }

  ghost predicate Ascending(ids: seq<string>) {
    forall i, j :: 0 <= i < j < |ids| ==> Below(ids[i], ids[j])
  }

  ghost function Elements(ids: seq<string>): set<string> {
    set id | id in ids
  }

  /** `ids` are the `limit` smallest elements of `all`, ascending. */
  ghost predicate Smallest(ids: seq<string>, all: set<string>, limit: nat) {
    && Ascending(ids)
    && Elements(ids) <= all
    && |ids| <= limit
    && (|ids| < limit ==> Elements(ids) == all)
    && (forall x, i :: x in all && x !in ids && 0 <= i < |ids| ==> Below(ids[i], x))
  }

  lemma AscendingSize(ids: seq<string>)
    requires Ascending(ids)
    ensures |Elements(ids)| == |ids|
  {
    if ids != [] {
      var n := |ids| - 1;
      AscendingSize(ids[..n]);
      assert Elements(ids) == Elements(ids[..n]) + {ids[n]};
      assert ids[n] !in Elements(ids[..n]);
    }
  }

  lemma BelowLaws(a: string, b: string, c: string)
    ensures !(Below(a, b) && Below(b, a))
    ensures Below(a, b) && Below(b, c) ==> Below(a, c)
    ensures a == b || Below(a, b) || Below(b, a)
  {
    StringLeqTotal(a, b);
    StringLeqTotal(b, c);
    if StringLeq(a, b) && StringLeq(b, c) {
      StringLeqTransitive(a, b, c);
    }
  }

  /** There is only one such list. */
  lemma {:induction false} SmallestUnique(a: seq<string>, b: seq<string>, all: set<string>, limit: nat)
    requires Smallest(a, all, limit) && Smallest(b, all, limit)
    ensures a == b
  {
    SmallestLength(a, b, all, limit);
    SmallestLength(b, a, all, limit);
    if a != b {
      var k := FirstDifference(a, b);
      BelowLaws(a[k], b[k], a[k]);
      assert a[k] in Elements(a) && b[k] in Elements(b);
      if Below(a[k], b[k]) {
        NotAfter(a, b, k);
      } else {
        NotAfter(b, a, k);
      }
    }
  }

  lemma FirstDifference(a: seq<string>, b: seq<string>) returns (k: nat)
    requires |a| == |b| && a != b
    ensures k < |a| && a[k] != b[k] && forall i :: 0 <= i < k ==> a[i] == b[i]
  {
    k := 0;
    while k < |a| && a[k] == b[k]
      invariant k <= |a| && forall i :: 0 <= i < k ==> a[i] == b[i]
    {
      k := k + 1;
    }
    assert k == |a| ==> a == b;
  }

  /** An element below `b[k]` that is none of the first `k` is nowhere in `b`. */
  lemma NotAfter(a: seq<string>, b: seq<string>, k: nat)
    requires Ascending(a) && Ascending(b) && |a| == |b| && k < |a| && Below(a[k], b[k])
    requires forall i :: 0 <= i < k ==> a[i] == b[i]
    ensures a[k] !in b
  {
    forall j | 0 <= j < |b| ensures b[j] != a[k] {
      BelowLaws(a[k], b[k], b[j]);
      assert j < k ==> Below(a[j], a[k]);
      assert j > k ==> Below(b[k], b[j]);
    }
  }

  lemma SmallestLength(a: seq<string>, b: seq<string>, all: set<string>, limit: nat)
    requires Smallest(a, all, limit) && Smallest(b, all, limit)
    ensures |a| <= |b|
  {
    AscendingSize(a);
    AscendingSize(b);
    if |b| < limit {
      SubsetSize(Elements(a), all);
    }
  }

  lemma SubsetSize<T>(a: set<T>, b: set<T>)
    requires a <= b
    ensures |a| <= |b|
    ensures |a| == |b| ==> a == b
  {
    assert b == a + (b - a);
    assert |b| == |a| + |b - a|;
    if |a| == |b| {
      assert b - a == {};
    }
  }

  function IdKey(id: string): seq<string> {
    [id]
  }

  /** `sorted(index.items())`: the keys, ascending. */
  method SortedKeys(keys: set<string>) returns (ids: seq<string>)
    ensures Ascending(ids) && Elements(ids) == keys
  {
    var listed: seq<string> := [];
    var todo := keys;
    while todo != {}
      invariant todo <= keys && Elements(listed) == keys - todo
      invariant forall i, j :: 0 <= i < j < |listed| ==> listed[i] != listed[j]
      decreases |todo|
    {
      var id :| id in todo;
      assert id !in Elements(listed);
      assert Elements(listed + [id]) == Elements(listed) + {id};
      listed := listed + [id];
      todo := todo - {id};
    }
    ids := Sort(IdKey, listed);
    SortSorted(IdKey, listed);
    PermutesMembers(ids, listed);
    assert Elements(ids) == Elements(listed);
    DistinctSorted(ids, listed);
  }

  lemma DistinctSorted(ids: seq<string>, listed: seq<string>)
    requires Permutes(ids, listed) && Sorted(IdKey, ids)
    requires forall i, j :: 0 <= i < j < |listed| ==> listed[i] != listed[j]
    ensures Ascending(ids)
  {
    forall i, j | 0 <= i < j < |ids| ensures Below(ids[i], ids[j]) {
      assert TupleLeq(IdKey(ids[i]), IdKey(ids[j]));
      OnceInMultiset(listed, ids[i]);
      if ids[i] == ids[j] {
        TwiceInMultiset(ids, i, j);
      }
      assert IdKey(ids[i])[0] == ids[i] && IdKey(ids[j])[0] == ids[j];
    }
  }

  lemma TwiceInMultiset(s: seq<string>, i: nat, j: nat)
    requires i < j < |s| && s[i] == s[j]
    ensures multiset(s)[s[i]] >= 2
  {
    assert s == s[..i] + [s[i]] + s[i + 1..j] + [s[j]] + s[j + 1..];
  }

  lemma {:induction false} OnceInMultiset(s: seq<string>, x: string)
    requires forall i, j :: 0 <= i < j < |s| ==> s[i] != s[j]
    ensures multiset(s)[x] <= 1
  {
    if s != [] {
      OnceInMultiset(s[1..], x);
      assert s == [s[0]] + s[1..];
      if s[0] == x {
        assert forall k :: 0 <= k < |s[1..]| ==> s[1..][k] != x;
        assert x !in s[1..];
      }
    }
  }

  /**
   * `get_context`: the rows of the `limit` smallest wanted ids. With ids requested, the selector
   * is reported unresolved unless the returned ids are exactly the requested ones.
   */
  method GetContexts(contexts: map<string, Context>, q: ContextQuery)
    returns (ids: seq<string>, rows: seq<Fields>, unresolved: bool)
    requires q.limit >= 1
    ensures Smallest(ids, Wanted(contexts, q), q.limit)
    ensures |rows| == |ids|
    ensures forall i :: 0 <= i < |ids| ==>
              ids[i] in contexts && rows[i] == ContextRow(contexts[ids[i]], q.includePayload)
    ensures q.contextIds == [] ==> !unresolved
    ensures q.contextIds != [] ==> (unresolved <==> Elements(ids) != Elements(q.contextIds))
  {
    var keys := SortedKeys(contexts.Keys);
    ids, rows := SelectRows(contexts, keys, q);
    var selected := set id | id in q.contextIds;
    unresolved := selected != {} && |rows| != |selected|;
    if q.contextIds != [] {
      Unresolved(ids, q.contextIds);
    }
  }

  /** Distinct ids among the requested ones are as many as those exactly when they are all of them. */
  lemma Unresolved(ids: seq<string>, requested: seq<string>)
    requires Ascending(ids) && Elements(ids) <= Elements(requested) && requested != []
    ensures |ids| == |Elements(requested)| <==> Elements(ids) == Elements(requested)
    ensures Elements(requested) != {}
  {
    AscendingSize(ids);
    SubsetSize(Elements(ids), Elements(requested));
    assert requested[0] in Elements(requested);
  }

  method SelectRows(contexts: map<string, Context>, keys: seq<string>, q: ContextQuery)
    returns (ids: seq<string>, rows: seq<Fields>)
    requires Ascending(keys) && Elements(keys) == contexts.Keys
    ensures Smallest(ids, Wanted(contexts, q), q.limit)
    ensures |rows| == |ids|
    ensures forall i :: 0 <= i < |ids| ==>
              ids[i] in contexts && rows[i] == ContextRow(contexts[ids[i]], q.includePayload)
  {
    ids, rows := [], [];
    var i := 0;
    ghost var wanted := Wanted(contexts, q);
    while i < |keys| && |rows| < q.limit
      invariant 0 <= i <= |keys| && |rows| == |ids| <= q.limit
      invariant Ascending(ids) && Elements(ids) == wanted * Elements(keys[..i])
      invariant forall j :: 0 <= j < |ids| ==>
                ids[j] in contexts && rows[j] == ContextRow(contexts[ids[j]], q.includePayload)
      decreases |keys| - i
    {
      var id := keys[i];
      assert id in Elements(keys);
      NextElement(keys, i);
      if q.contextIds == [] || id in q.contextIds {
        AppendAscending(ids, keys, i);
        NextElement(ids + [id], |ids|);
        assert (ids + [id])[..|ids|] == ids && (ids + [id])[..|ids| + 1] == ids + [id];
        ids := ids + [id];
        rows := rows + [ContextRow(contexts[id], q.includePayload)];
      }
      i := i + 1;
    }
    PrefixIsSmallest(ids, keys, i, wanted, q.limit);
  }

  lemma NextElement(s: seq<string>, i: nat)
    requires i < |s|
    ensures Elements(s[..i + 1]) == Elements(s[..i]) + {s[i]}
  {
    assert s[..i + 1] == s[..i] + [s[i]];
  }

  lemma AppendAscending(ids: seq<string>, keys: seq<string>, i: nat)
    requires Ascending(ids) && Ascending(keys) && i < |keys| && Elements(ids) <= Elements(keys[..i])
    ensures Ascending(ids + [keys[i]])
  {
    forall j | 0 <= j < |ids| ensures Below(ids[j], keys[i]) {
      assert ids[j] in Elements(ids);
      var k :| 0 <= k < i && keys[k] == ids[j];
    }
  }

  lemma PrefixIsSmallest(ids: seq<string>, keys: seq<string>, i: nat, wanted: set<string>, limit: nat)
    requires Ascending(ids) && Ascending(keys) && i <= |keys| && wanted <= Elements(keys)
    requires Elements(ids) == wanted * Elements(keys[..i]) && |ids| <= limit && (i == |keys| || |ids| == limit)
    ensures Smallest(ids, wanted, limit)
  {
    if i == |keys| {
      assert keys[..i] == keys;
    }
    forall x, j | x in wanted && x !in ids && 0 <= j < |ids| ensures Below(ids[j], x) {
      assert ids[j] in Elements(ids);
      var a :| 0 <= a < i && keys[a] == ids[j];
      var b :| 0 <= b < |keys| && keys[b] == x;
      assert x !in Elements(ids);
      assert forall k :: 0 <= k < i ==> keys[..i][k] in Elements(keys[..i]);
      assert b >= i;
    }
  }
}
