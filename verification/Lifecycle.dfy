/** Lifecycle states folded from the lifecycle log, and what they imply for derived outputs. */
module Lifecycle {
  import opened Wrappers
  import opened Sequences
  import opened Records

  datatype LifecycleAction = Redact | Seal | Expire | Tombstone | HardDelete

  datatype LifecycleEvent = LifecycleEvent(
    lifecycleId: string, createdAt: nat, targetId: string, action: LifecycleAction)

  datatype TargetState = TargetState(targetId: string, actions: set<LifecycleAction>) {
    predicate IsTombstoned() {
      Tombstone in actions || HardDelete in actions
    }

    predicate IsSealed() {
      Seal in actions
    }
  }

  type StateMap = map<string, TargetState>

  // ----- The fold ------------------------------------------------------------------------

  ghost function Targets(log: seq<LifecycleEvent>): set<string> {
    set e | e in log :: e.targetId
  }

  ghost function ActionsOn(log: seq<LifecycleEvent>, target: string): set<LifecycleAction> {
    set e | e in log && e.targetId == target :: e.action
  }

  /** What the fold must produce: every target named in the log, with all its actions. */
  ghost function StatesOf(log: seq<LifecycleEvent>): StateMap {
    map target | target in Targets(log) :: TargetState(target, ActionsOn(log, target))
  }

  method LifecycleStateByTarget(log: seq<LifecycleEvent>) returns (states: StateMap)
    ensures states == StatesOf(log)
  {
    var actionMap: map<string, set<LifecycleAction>> := map[];
    for i := 0 to |log|
      invariant actionMap.Keys == Targets(log[..i])
      invariant forall t :: t in actionMap ==> actionMap[t] == ActionsOn(log[..i], t)
    {
      var e := log[i];
      var before := if e.targetId in actionMap then actionMap[e.targetId] else {};
      assert log[..i + 1] == log[..i] + [e];
      assert before == ActionsOn(log[..i], e.targetId);
      actionMap := actionMap[e.targetId := before + {e.action}];
    }
    assert log[..|log|] == log;
    states := map target | target in actionMap :: TargetState(target, actionMap[target]);
  }

  /** The state of a target, active when the log never names it. */
  function StateFor(target: string, states: StateMap): TargetState {
    if target in states then states[target] else TargetState(target, {})
  }

  predicate IsTombstoned(target: string, states: StateMap) {
    StateFor(target, states).IsTombstoned()
  }

  predicate IsSealed(target: string, states: StateMap) {
    StateFor(target, states).IsSealed()
  }

  // ----- Laws of the fold ------------------------------------------------------------------

  ghost function MergeStates(a: StateMap, b: StateMap): StateMap {
    map target | target in a.Keys + b.Keys ::
      TargetState(target, StateFor(target, a).actions + StateFor(target, b).actions)
  }

  /** Folding two logs one after the other is merging their folds. */
  lemma StatesOfAppend(a: seq<LifecycleEvent>, b: seq<LifecycleEvent>)
    ensures StatesOf(a + b) == MergeStates(StatesOf(a), StatesOf(b))
  {
    assert forall e :: e in a + b <==> e in a || e in b;
    assert Targets(a + b) == Targets(a) + Targets(b);
    forall t | t in Targets(a + b)
      ensures ActionsOn(a + b, t) == StateFor(t, StatesOf(a)).actions + StateFor(t, StatesOf(b)).actions
    {
      assert ActionsOn(a + b, t) == ActionsOn(a, t) + ActionsOn(b, t);
      assert t !in Targets(a) ==> ActionsOn(a, t) == {};
      assert t !in Targets(b) ==> ActionsOn(b, t) == {};
    }
  }

  ghost function Marks(log: seq<LifecycleEvent>): set<(string, LifecycleAction)> {
    set e | e in log :: (e.targetId, e.action)
  }

  lemma MarksDecideActions(a: seq<LifecycleEvent>, b: seq<LifecycleEvent>, t: string)
    requires Marks(a) <= Marks(b)
    ensures ActionsOn(a, t) <= ActionsOn(b, t)
    ensures t in Targets(a) ==> t in Targets(b)
  {
    forall e | e in a && e.targetId == t ensures e.action in ActionsOn(b, t) && t in Targets(b) {
      assert (e.targetId, e.action) in Marks(a);
      var f :| f in b && (f.targetId, f.action) == (e.targetId, e.action);
    }
  }

  /**
   * The fold keeps exactly which actions hit which target: order, repetition and every
   * other field of the log entries are forgotten, and nothing else is.
   */
  lemma StatesAreMarks(a: seq<LifecycleEvent>, b: seq<LifecycleEvent>)
    ensures StatesOf(a) == StatesOf(b) <==> Marks(a) == Marks(b)
  {
    if Marks(a) == Marks(b) {
      forall t: string
        ensures ActionsOn(a, t) == ActionsOn(b, t) && (t in Targets(a) <==> t in Targets(b))
      {
        MarksDecideActions(a, b, t);
        MarksDecideActions(b, a, t);
      }
      assert Targets(a) == Targets(b);
    }
    if StatesOf(a) == StatesOf(b) {
      StatesDecideMarks(a, b);
      StatesDecideMarks(b, a);
    }
  }

  lemma StatesDecideMarks(a: seq<LifecycleEvent>, b: seq<LifecycleEvent>)
    requires StatesOf(a) == StatesOf(b)
    ensures Marks(a) <= Marks(b)
  {
    forall e | e in a ensures (e.targetId, e.action) in Marks(b) {
      var s := StatesOf(a)[e.targetId];
      assert e.action in s.actions && s == StatesOf(b)[e.targetId];
      assert e.action in ActionsOn(b, e.targetId);
    }
  }

  /** A target is tombstoned (sealed) exactly when the log holds such an entry for it. */
  lemma TombstonedMeans(log: seq<LifecycleEvent>, t: string)
    ensures IsTombstoned(t, StatesOf(log)) <==>
              exists e :: e in log && e.targetId == t && (e.action == Tombstone || e.action == HardDelete)
    ensures IsSealed(t, StatesOf(log)) <==> exists e :: e in log && e.targetId == t && e.action == Seal
  {
    if t in Targets(log) {
      assert StatesOf(log)[t].actions == ActionsOn(log, t);
    }
  }

  // ----- Events and the targets they name ----------------------------------------------------

  const CONTAINERS: seq<Key> := [KContext, KArtifact, KDecision, KBoundaryRule]
  const RECORD_ID_KEYS: seq<Key> := [KContextId, KArtifactId, KDecisionId, KRuleId]
  const PAYLOAD_ID_KEYS: seq<Key> := [KContextId, KArtifactId, KDecisionId, KRuleId, KTargetId]

  ghost function GivenId(field: Option<string>): set<string> {
    if Given(field) then {field.value} else {}
  }

  ghost function FieldIds(e: ChronicleEvent): set<string> {
    GivenId(e.artifactId) + GivenId(e.decisionId) + GivenId(e.rdeRecordId)
  }

  ghost function StringValues(m: Fields, keys: seq<Key>): set<string> {
    set k | k in keys && k in m && m[k].Str? :: m[k].s
  }

  ghost function ContainerIds(payload: Fields, containers: seq<Key>): set<string> {
    set c, id | c in containers && c in payload && payload[c].Dict?
                && id in StringValues(payload[c].fields, RECORD_ID_KEYS) :: id
  }

  /** The records an event names: in its own fields, in a known payload container, or in the payload itself. */
  ghost function TargetIds(e: ChronicleEvent, includeEventFields: bool): set<string> {
    (if includeEventFields then FieldIds(e) else {})
    + ContainerIds(e.payload, CONTAINERS)
    + StringValues(e.payload, PAYLOAD_ID_KEYS)
  }

  /** A payload entry that holds this string. */
  ghost predicate Holds(m: Fields, k: Key, id: string) {
    k in m && m[k] == Str(id)
  }

  /** The dictionary of a container names the id under one of the four record keys. */
  ghost predicate Names(payload: Fields, container: Key, id: string) {
    container in payload && payload[container].Dict? &&
    var m := payload[container].fields;
    Holds(m, KContextId, id) || Holds(m, KArtifactId, id) || Holds(m, KDecisionId, id) || Holds(m, KRuleId, id)
  }

  /** Which ids an event names: key by key, and in its own fields when those are asked for. */
  lemma TargetIdsMean(e: ChronicleEvent, includeEventFields: bool, id: string)
    ensures id in TargetIds(e, includeEventFields) <==>
              (includeEventFields && id != "" && Some(id) in {e.artifactId, e.decisionId, e.rdeRecordId})
              || Names(e.payload, KContext, id) || Names(e.payload, KArtifact, id)
              || Names(e.payload, KDecision, id) || Names(e.payload, KBoundaryRule, id)
              || Holds(e.payload, KContextId, id) || Holds(e.payload, KArtifactId, id)
              || Holds(e.payload, KDecisionId, id) || Holds(e.payload, KRuleId, id) || Holds(e.payload, KTargetId, id)
  {
    FieldIdsMean(e, id);
    StringValuesMean(e.payload, id);
    ContainerMeans(e.payload, id);
  }

  lemma FieldIdsMean(e: ChronicleEvent, id: string)
    ensures id in FieldIds(e) <==> id != "" && Some(id) in {e.artifactId, e.decisionId, e.rdeRecordId}
  {
  }

  lemma StringValuesMean(m: Fields, id: string)
    ensures id in StringValues(m, RECORD_ID_KEYS) <==>
              Holds(m, KContextId, id) || Holds(m, KArtifactId, id)
              || Holds(m, KDecisionId, id) || Holds(m, KRuleId, id)
    ensures id in StringValues(m, PAYLOAD_ID_KEYS) <==>
              Holds(m, KContextId, id) || Holds(m, KArtifactId, id)
              || Holds(m, KDecisionId, id) || Holds(m, KRuleId, id)
              || Holds(m, KTargetId, id)
  {
    assert forall k :: k in RECORD_ID_KEYS <==> k in {KContextId, KArtifactId, KDecisionId, KRuleId};
    assert forall k :: k in PAYLOAD_ID_KEYS <==> k in {KContextId, KArtifactId, KDecisionId, KRuleId, KTargetId};
  }

  lemma ContainerMeans(payload: Fields, id: string)
    ensures id in ContainerIds(payload, CONTAINERS) <==>
              Names(payload, KContext, id) || Names(payload, KArtifact, id)
              || Names(payload, KDecision, id) || Names(payload, KBoundaryRule, id)
  {
    assert forall c :: c in CONTAINERS <==> c in {KContext, KArtifact, KDecision, KBoundaryRule};
    forall c | c in payload && payload[c].Dict?
      ensures id in StringValues(payload[c].fields, RECORD_ID_KEYS) <==> Names(payload, c, id)
    {
      StringValuesMean(payload[c].fields, id);
    }
  }

  method CollectStrings(m: Fields, keys: seq<Key>, found: set<string>) returns (ids: set<string>)
    ensures ids == found + StringValues(m, keys)
  {
    ids := found;
    for i := 0 to |keys|
      invariant ids == found + StringValues(m, keys[..i])
    {
      assert keys[..i + 1] == keys[..i] + [keys[i]];
      if keys[i] in m && m[keys[i]].Str? {
        ids := ids + {m[keys[i]].s};
      }
    }
    assert keys[..|keys|] == keys;
  }

  method EventLifecycleTargetIds(e: ChronicleEvent, includeEventFields: bool) returns (ids: set<string>)
    ensures ids == TargetIds(e, includeEventFields)
  {
    ids := {};
    if includeEventFields {
      if Given(e.artifactId) {
        ids := ids + {e.artifactId.value};
      }
      if Given(e.decisionId) {
        ids := ids + {e.decisionId.value};
      }
      if Given(e.rdeRecordId) {
        ids := ids + {e.rdeRecordId.value};
      }
    }
    ghost var fieldIds := ids;
    for i := 0 to |CONTAINERS|
      invariant ids == fieldIds + ContainerIds(e.payload, CONTAINERS[..i])
    {
      var c := CONTAINERS[i];
      assert CONTAINERS[..i + 1] == CONTAINERS[..i] + [c];
      if c in e.payload && e.payload[c].Dict? {
        ids := CollectStrings(e.payload[c].fields, RECORD_ID_KEYS, ids);
      }
    }
    assert CONTAINERS[..|CONTAINERS|] == CONTAINERS;
    ids := CollectStrings(e.payload, PAYLOAD_ID_KEYS, ids);
  }

  ghost predicate ReferencesTombstoned(e: ChronicleEvent, states: StateMap, includeEventFields: bool) {
    exists id :: id in TargetIds(e, includeEventFields) && IsTombstoned(id, states)
  }

  method EventReferencesTombstonedTarget(e: ChronicleEvent, states: StateMap, includeEventFields: bool)
    returns (hidden: bool)
    ensures hidden == ReferencesTombstoned(e, states, includeEventFields)
  {
    var ids := EventLifecycleTargetIds(e, includeEventFields);
    hidden := exists id :: id in ids && IsTombstoned(id, states);
  }

  // ----- Sealed records ------------------------------------------------------------------------

  const SEALED_RECORD := "lifecycle_sealed_record"

  function SealMetadata(target: string, states: StateMap): Fields {
    if IsSealed(target, states) then map[KLifecycleWarning := Str(SEALED_RECORD)] else map[]
  }

  function SealedIn(states: StateMap): string -> bool {
    id => IsSealed(id, states)
  }

  method CountSealedTargets(ids: seq<string>, states: StateMap) returns (n: nat)
    ensures n == |Filter(SealedIn(states), ids)|
  {
    n := 0;
    for i := 0 to |ids|
      invariant n == |Filter(SealedIn(states), ids[..i])|
    {
      FilterStep(SealedIn(states), ids, i);
      if IsSealed(ids[i], states) {
        n := n + 1;
      }
    }
    assert ids[..|ids|] == ids;
  }

  /** Warnings of a dumped record: a list when present. */
  predicate WarningsReadable(data: Fields) {
    KWarnings in data ==> data[KWarnings].List?
  }

  function WarningsOf(data: Fields): seq<Json>
    requires WarningsReadable(data)
  {
    if KWarnings in data then data[KWarnings].items else []
  }

  /** A sealed record's dump carries the warning once; the rest of it, and any other record, is untouched. */
  function MarkSealedWarning(data: Fields, state: Option<TargetState>): (r: Fields)
    requires WarningsReadable(data)
    ensures WarningsReadable(r) && r - {KWarnings} == data - {KWarnings}
    ensures state.Some? && state.value.IsSealed() ==>
              Str(SEALED_RECORD) in WarningsOf(r)
              && (WarningsOf(r) == WarningsOf(data) || WarningsOf(r) == WarningsOf(data) + [Str(SEALED_RECORD)])
              && (WarningsOf(r) == WarningsOf(data) <==> Str(SEALED_RECORD) in WarningsOf(data))
    ensures !(state.Some? && state.value.IsSealed()) ==> r == data
  {
    if state.None? || !state.value.IsSealed() then data
    else
      var warnings := WarningsOf(data);
      data[KWarnings := List(if Str(SEALED_RECORD) in warnings then warnings else warnings + [Str(SEALED_RECORD)])]
  }
}
