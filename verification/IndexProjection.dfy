/** The derived index as a fold of the event log. */
module IndexProjection {
  import opened Wrappers
  import opened Records

  /** Records as the payloads carry them, before validation. */
  datatype RawIndex = RawIndex(
    contexts: map<string, Fields>, artifacts: map<string, Fields>, versions: map<string, seq<Fields>>,
    decisions: map<string, Fields>, rdes: map<string, Fields>, rules: map<string, Fields>)

  datatype Index = Index(
    contexts: map<string, Context>, artifacts: map<string, Artifact>, versions: map<string, seq<Version>>,
    decisions: map<string, Decision>, rdes: map<string, RdeRecord>, rules: map<string, BoundaryRule>)

  const EMPTY_RAW := RawIndex(map[], map[], map[], map[], map[], map[])
  const EMPTY := Index(map[], map[], map[], map[], map[], map[])

  /**
   * The record in a payload container and the id it is filed under. A container that is no
   * dictionary, or has no usable id, makes every later rebuild raise.
   */
  function Filed(payload: Fields, container: Key, idKey: Key): (r: Option<(string, Fields)>)
    requires container in payload
    ensures r.Some? ==>
              payload[container] == Dict(r.value.1) && idKey in r.value.1 && r.value.1[idKey] == Str(r.value.0)
  {
    if payload[container].Dict? && idKey in payload[container].fields && payload[container].fields[idKey].Str?
    then Some((payload[container].fields[idKey].s, payload[container].fields))
    else None
  }

  function AddVersion(versions: map<string, seq<Fields>>, id: string, version: Fields): map<string, seq<Fields>> {
    versions[id := (if id in versions then versions[id] else []) + [version]]
  }

  function ApplyArtifactCreated(raw: RawIndex, payload: Fields): Option<RawIndex>
    requires KArtifact in payload
  {
    var artifact :- Filed(payload, KArtifact, KArtifactId);
    var next := raw.(artifacts := raw.artifacts[artifact.0 := artifact.1]);
    if KVersion !in payload then Some(next)
    else
      var version :- Filed(payload, KVersion, KArtifactId);
      Some(next.(versions := AddVersion(next.versions, version.0, version.1)))
  }

  function ApplyArtifactVersioned(raw: RawIndex, payload: Fields): Option<RawIndex>
    requires KVersion in payload
  {
    var version :- Filed(payload, KVersion, KArtifactId);
    var next := raw.(versions := AddVersion(raw.versions, version.0, version.1));
    if KArtifact !in payload then Some(next)
    else
      var artifact :- Filed(payload, KArtifact, KArtifactId);
      Some(next.(artifacts := next.artifacts[artifact.0 := artifact.1]))
  }

  function Apply(raw: RawIndex, e: ChronicleEvent): Option<RawIndex> {
    var payload := e.payload;
    if e.eventType.ContextAdded? && KContext in payload then
      var record :- Filed(payload, KContext, KContextId);
      Some(raw.(contexts := raw.contexts[record.0 := record.1]))
    else if e.eventType.ArtifactCreated? && KArtifact in payload then ApplyArtifactCreated(raw, payload)
    else if (e.eventType.ArtifactUpdated? || e.eventType.ArtifactVersioned?) && KVersion in payload then
      ApplyArtifactVersioned(raw, payload)
    else if e.eventType.DecisionRecorded? && KDecision in payload then
      var record :- Filed(payload, KDecision, KDecisionId);
      Some(raw.(decisions := raw.decisions[record.0 := record.1]))
    else if e.eventType.RdeDiffRecorded? && KRde in payload then
      var record :- Filed(payload, KRde, KRdeRecordId);
      Some(raw.(rdes := raw.rdes[record.0 := record.1]))
    else if e.eventType.BoundaryRuleAdded? && KBoundaryRule in payload then
      var record :- Filed(payload, KBoundaryRule, KRuleId);
      Some(raw.(rules := raw.rules[record.0 := record.1]))
    else Some(raw)
  }

  function Fold(log: seq<ChronicleEvent>): Option<RawIndex> {
    if log == [] then Some(EMPTY_RAW)
    else
      var before :- Fold(log[..|log| - 1]);
      Apply(before, log[|log| - 1])
  }

  // ----- Validation -----------------------------------------------------------------------

  function ValidateAll<T>(validate: Fields -> Option<T>, m: map<string, Fields>): Option<map<string, T>> {
    if forall k :: k in m ==> validate(m[k]).Some?
    then Some(map k | k in m :: validate(m[k]).value)
    else None
  }

  function ValidateVersions(vs: seq<Fields>): Option<seq<Version>> {
    if forall i :: 0 <= i < |vs| ==> ValidateVersion(vs[i]).Some?
    then Some(seq(|vs|, i requires 0 <= i < |vs| => ValidateVersion(vs[i]).value))
    else None
  }

  function ValidateAllVersions(m: map<string, seq<Fields>>): Option<map<string, seq<Version>>> {
    if forall k :: k in m ==> ValidateVersions(m[k]).Some?
    then Some(map k | k in m :: ValidateVersions(m[k]).value)
    else None
  }

  function Validate(raw: RawIndex): Option<Index> {
    var contexts :- ValidateAll(ValidateContext, raw.contexts);
    var artifacts :- ValidateAll(ValidateArtifact, raw.artifacts);
    var versions :- ValidateAllVersions(raw.versions);
    var decisions :- ValidateAll(ValidateDecision, raw.decisions);
    var rdes :- ValidateAll(ValidateRde, raw.rdes);
    var rules :- ValidateAll(ValidateBoundaryRule, raw.rules);
    Some(Index(contexts, artifacts, versions, decisions, rdes, rules))
  }

  /** The index of a log; `None` when building it raises. */
  function Project(log: seq<ChronicleEvent>): Option<Index> {
    var raw :- Fold(log);
    Validate(raw)
  }

  /** The builder: one pass over the log, then validation. */
  method Build(log: seq<ChronicleEvent>) returns (index: Option<Index>)
    ensures index == Project(log)
  {
    var raw := EMPTY_RAW;
    for i := 0 to |log|
      invariant Fold(log[..i]) == Some(raw)
    {
      var next := Apply(raw, log[i]);
      assert log[..i + 1][..i] == log[..i];
      if next.None? {
        FoldStaysBroken(log, i + 1);
        return None;
      }
      raw := next.value;
    }
    assert log[..|log|] == log;
    index := Validate(raw);
  }

  lemma {:induction false} FoldStaysBroken(log: seq<ChronicleEvent>, n: nat)
    requires n <= |log| && Fold(log[..n]).None?
    ensures Fold(log).None?
    decreases |log|
  {
    if n < |log| {
      assert log[..|log| - 1][..n] == log[..n];
      FoldStaysBroken(log[..|log| - 1], n);
    } else {
      assert log[..n] == log;
    }
  }

  // ----- Appending one event -----------------------------------------------------------------

  lemma FoldAppend(log: seq<ChronicleEvent>, e: ChronicleEvent)
    ensures Fold(log + [e]) == if Fold(log).None? then None else Apply(Fold(log).value, e)
  {
    assert (log + [e])[..|log|] == log;
  }

  lemma ValidateAllUpdate<T>(validate: Fields -> Option<T>, m: map<string, Fields>, k: string, fields: Fields)
    requires ValidateAll(validate, m).Some? && validate(fields).Some?
    ensures ValidateAll(validate, m[k := fields]) == Some(ValidateAll(validate, m).value[k := validate(fields).value])
  {
    var updated := ValidateAll(validate, m[k := fields]);
    assert forall j :: j in m ==> validate(m[j]).Some?;
    assert updated.Some?;
    assert updated.value == ValidateAll(validate, m).value[k := validate(fields).value];
  }

  lemma AddVersionValid(m: map<string, seq<Fields>>, id: string, version: Fields)
    requires ValidateAllVersions(m).Some? && ValidateVersion(version).Some?
    ensures ValidateAllVersions(AddVersion(m, id, version)).Some?
    ensures var vs := ValidateAllVersions(m).value;
            ValidateAllVersions(AddVersion(m, id, version)).value
            == vs[id := (if id in vs then vs[id] else []) + [ValidateVersion(version).value]]
  {
    var earlier := if id in m then m[id] else [];
    var added := AddVersion(m, id, version);
    assert ValidateVersions(earlier).Some?;
    var list := ValidateVersions(earlier + [version]);
    assert list.Some?;
    assert list.value == ValidateVersions(earlier).value + [ValidateVersion(version).value];
    forall k | k in added ensures ValidateVersions(added[k]).Some? {
    }
  }

  /** Events whose payload feeds no index. */
  predicate Inert(e: ChronicleEvent) {
    !(e.eventType.ContextAdded? && KContext in e.payload)
    && !(e.eventType.ArtifactCreated? && KArtifact in e.payload)
    && !((e.eventType.ArtifactUpdated? || e.eventType.ArtifactVersioned?) && KVersion in e.payload)
    && !(e.eventType.DecisionRecorded? && KDecision in e.payload)
    && !(e.eventType.RdeDiffRecorded? && KRde in e.payload)
    && !(e.eventType.BoundaryRuleAdded? && KBoundaryRule in e.payload)
  }

  lemma ValidateParts(raw: RawIndex)
    ensures Validate(raw).Some? <==>
              ValidateAll(ValidateContext, raw.contexts).Some? && ValidateAll(ValidateArtifact, raw.artifacts).Some?
              && ValidateAllVersions(raw.versions).Some? && ValidateAll(ValidateDecision, raw.decisions).Some?
              && ValidateAll(ValidateRde, raw.rdes).Some? && ValidateAll(ValidateBoundaryRule, raw.rules).Some?
    ensures Validate(raw).Some? ==>
              Validate(raw).value == Index(
                ValidateAll(ValidateContext, raw.contexts).value, ValidateAll(ValidateArtifact, raw.artifacts).value,
                ValidateAllVersions(raw.versions).value, ValidateAll(ValidateDecision, raw.decisions).value,
                ValidateAll(ValidateRde, raw.rdes).value, ValidateAll(ValidateBoundaryRule, raw.rules).value)
  {
  }

  lemma ValidateAllFails<T>(validate: Fields -> Option<T>, m: map<string, Fields>, k: string)
    requires k in m && validate(m[k]).None?
    ensures ValidateAll(validate, m).None?
  {
  }

  /** A snapshot event files its context if that validates, and otherwise breaks the projection. */
  lemma AppendSnapshot(log: seq<ChronicleEvent>, e: ChronicleEvent)
    requires Project(log).Some? && e.eventType.ContextAdded? && KContext in e.payload
    ensures e.payload[KContext].Dict? && ValidateContext(e.payload[KContext].fields).Some? ==>
              var c := ValidateContext(e.payload[KContext].fields).value;
              Project(log + [e]) == Some(Project(log).value.(contexts := Project(log).value.contexts[c.contextId := c]))
    ensures !e.payload[KContext].Dict? || ValidateContext(e.payload[KContext].fields).None? ==>
              Project(log + [e]).None?
  {
    FoldAppend(log, e);
    var raw, filed := Fold(log).value, Filed(e.payload, KContext, KContextId);
    if filed.Some? {
      var id, fields := filed.value.0, filed.value.1;
      var next := raw.(contexts := raw.contexts[id := fields]);
      assert Apply(raw, e) == Some(next);
      ValidateParts(raw);
      ValidateParts(next);
      if ValidateContext(fields).Some? {
        ValidateAllUpdate(ValidateContext, raw.contexts, id, fields);
      } else {
        ValidateAllFails(ValidateContext, next.contexts, id);
      }
    }
  }

  /** A context snapshot replaces the context of its id, and changes nothing else. */
  lemma AppendContext(log: seq<ChronicleEvent>, e: ChronicleEvent, c: Context)
    requires Project(log).Some?
    requires e.eventType.ContextAdded? && KContext in e.payload && e.payload[KContext] == Dict(DumpContext(c))
    ensures Project(log + [e]) == Some(Project(log).value.(contexts := Project(log).value.contexts[c.contextId := c]))
  {
    ContextRoundTrip(c);
    AppendSnapshot(log, e);
  }

  lemma InvalidVersion(m: map<string, seq<Fields>>, id: string, version: Fields)
    requires ValidateVersion(version).None?
    ensures ValidateAllVersions(AddVersion(m, id, version)).None?
  {
    var vs := AddVersion(m, id, version)[id];
    assert vs[|vs| - 1] == version;
  }

  function WithArtifact(index: Index, a: Artifact, v: Version): Index {
    index.(artifacts := index.artifacts[a.artifactId := a],
           versions := index.versions[v.artifactId :=
             (if v.artifactId in index.versions then index.versions[v.artifactId] else []) + [v]])
  }

  /** The artifact and the version an event carries, when both validate. */
  function CarriedPair(e: ChronicleEvent): Option<(Artifact, Version)> {
    if KArtifact !in e.payload || KVersion !in e.payload || !e.payload[KArtifact].Dict? || !e.payload[KVersion].Dict?
    then None
    else
      var a :- ValidateArtifact(e.payload[KArtifact].fields);
      var v :- ValidateVersion(e.payload[KVersion].fields);
      Some((a, v))
  }

  /**
   * An event with an artifact and a version replaces the artifact and appends the version if both
   * validate, and otherwise breaks the projection.
   */
  lemma AppendArtifact(log: seq<ChronicleEvent>, e: ChronicleEvent)
    requires Project(log).Some? && (e.eventType.ArtifactCreated? || e.eventType.ArtifactVersioned?)
    requires KArtifact in e.payload && KVersion in e.payload
    ensures Project(log + [e]) ==
              if CarriedPair(e).Some?
              then Some(WithArtifact(Project(log).value, CarriedPair(e).value.0, CarriedPair(e).value.1)) else None
  {
    FoldAppend(log, e);
    var raw := Fold(log).value;
    var artifact, version := Filed(e.payload, KArtifact, KArtifactId), Filed(e.payload, KVersion, KArtifactId);
    if artifact.Some? && version.Some? {
      var (aid, a) := artifact.value;
      var (vid, v) := version.value;
      var next := raw.(artifacts := raw.artifacts[aid := a], versions := AddVersion(raw.versions, vid, v));
      assert Apply(raw, e) == Some(next);
      ValidateParts(raw);
      ValidateParts(next);
      if ValidateVersion(v).None? {
        InvalidVersion(raw.versions, vid, v);
      } else if ValidateArtifact(a).None? {
        ValidateAllFails(ValidateArtifact, next.artifacts, aid);
      } else {
        ValidateAllUpdate(ValidateArtifact, raw.artifacts, aid, a);
        AddVersionValid(raw.versions, vid, v);
      }
    } else {
      assert Apply(raw, e).None?;
      Unfiled(e);
    }
  }

  lemma Unfiled(e: ChronicleEvent)
    requires KArtifact in e.payload && KVersion in e.payload
    requires Filed(e.payload, KArtifact, KArtifactId).None? || Filed(e.payload, KVersion, KArtifactId).None?
    ensures CarriedPair(e).None?
  {
  }

  lemma CarriedDumps(e: ChronicleEvent, a: Artifact, v: Version)
    requires KArtifact in e.payload && e.payload[KArtifact] == Dict(DumpArtifact(a))
    requires KVersion in e.payload && e.payload[KVersion] == Dict(DumpVersion(v))
    ensures CarriedPair(e) == Some((a, v))
  {
    ArtifactRoundTrip(a);
    VersionRoundTrip(v);
  }

  lemma AppendInert(log: seq<ChronicleEvent>, e: ChronicleEvent)
    requires Inert(e)
    ensures Project(log + [e]) == Project(log)
  {
    FoldAppend(log, e);
  }

  // ----- Records are filed under their own ids -----------------------------------------------

  ghost predicate FiledUnder(idKey: Key, m: map<string, Fields>) {
    forall k :: k in m ==> idKey in m[k] && m[k][idKey] == Str(k)
  }

  ghost predicate VersionsFiled(m: map<string, seq<Fields>>) {
    forall k, i :: k in m && 0 <= i < |m[k]| ==> KArtifactId in m[k][i] && m[k][i][KArtifactId] == Str(k)
  }

  ghost predicate OwnIds(raw: RawIndex) {
    FiledUnder(KContextId, raw.contexts) && FiledUnder(KArtifactId, raw.artifacts)
    && FiledUnder(KDecisionId, raw.decisions) && FiledUnder(KRuleId, raw.rules) && VersionsFiled(raw.versions)
  }

  lemma FiledUpdate(idKey: Key, m: map<string, Fields>, id: string, fields: Fields)
    requires FiledUnder(idKey, m) && idKey in fields && fields[idKey] == Str(id)
    ensures FiledUnder(idKey, m[id := fields])
  {
  }

  lemma FiledVersion(m: map<string, seq<Fields>>, id: string, fields: Fields)
    requires VersionsFiled(m) && KArtifactId in fields && fields[KArtifactId] == Str(id)
    ensures VersionsFiled(AddVersion(m, id, fields))
  {
  }

  lemma ArtifactOwnIds(raw: RawIndex, payload: Fields)
    requires OwnIds(raw)
    ensures KArtifact in payload && ApplyArtifactCreated(raw, payload).Some? ==>
              OwnIds(ApplyArtifactCreated(raw, payload).value)
    ensures KVersion in payload && ApplyArtifactVersioned(raw, payload).Some? ==>
              OwnIds(ApplyArtifactVersioned(raw, payload).value)
  {
    if KArtifact in payload && Filed(payload, KArtifact, KArtifactId).Some? {
      var r := Filed(payload, KArtifact, KArtifactId).value;
      FiledUpdate(KArtifactId, raw.artifacts, r.0, r.1);
    }
    if KVersion in payload && Filed(payload, KVersion, KArtifactId).Some? {
      var v := Filed(payload, KVersion, KArtifactId).value;
      FiledVersion(raw.versions, v.0, v.1);
    }
  }

  lemma RecordOwnIds(raw: RawIndex, e: ChronicleEvent)
    requires OwnIds(raw) && Apply(raw, e).Some?
    requires e.eventType.ContextAdded? || e.eventType.DecisionRecorded? || e.eventType.BoundaryRuleAdded?
    ensures OwnIds(Apply(raw, e).value)
  {
    var payload := e.payload;
    if e.eventType.ContextAdded? && KContext in payload {
      var r := Filed(payload, KContext, KContextId).value;
      FiledUpdate(KContextId, raw.contexts, r.0, r.1);
    } else if e.eventType.DecisionRecorded? && KDecision in payload {
      var r := Filed(payload, KDecision, KDecisionId).value;
      FiledUpdate(KDecisionId, raw.decisions, r.0, r.1);
    } else if e.eventType.BoundaryRuleAdded? && KBoundaryRule in payload {
      var r := Filed(payload, KBoundaryRule, KRuleId).value;
      FiledUpdate(KRuleId, raw.rules, r.0, r.1);
    }
  }

  lemma ApplyOwnIds(raw: RawIndex, e: ChronicleEvent)
    requires OwnIds(raw) && Apply(raw, e).Some?
    ensures OwnIds(Apply(raw, e).value)
  {
    if e.eventType.ArtifactCreated? || e.eventType.ArtifactUpdated? || e.eventType.ArtifactVersioned? {
      ArtifactOwnIds(raw, e.payload);
    } else if e.eventType.ContextAdded? || e.eventType.DecisionRecorded? || e.eventType.BoundaryRuleAdded? {
      RecordOwnIds(raw, e);
    }
  }

  lemma {:induction false} FoldOwnIds(log: seq<ChronicleEvent>)
    requires Fold(log).Some?
    ensures OwnIds(Fold(log).value)
  {
    if log != [] {
      FoldOwnIds(log[..|log| - 1]);
      ApplyOwnIds(Fold(log[..|log| - 1]).value, log[|log| - 1]);
    }
  }

  /** In a built index every record, and every version, sits under its own id. */
  lemma IndexOwnIds(log: seq<ChronicleEvent>)
    requires Project(log).Some?
    ensures var index := Project(log).value;
            (forall k :: k in index.contexts ==> index.contexts[k].contextId == k)
            && (forall k :: k in index.artifacts ==> index.artifacts[k].artifactId == k)
            && (forall k :: k in index.decisions ==> index.decisions[k].decisionId == k)
            && (forall k :: k in index.rules ==> index.rules[k].ruleId == k)
            && (forall k, i :: k in index.versions && 0 <= i < |index.versions[k]| ==>
               index.versions[k][i].artifactId == k)
  {
    FoldOwnIds(log);
    var raw, index := Fold(log).value, Project(log).value;
    forall k, i | k in index.versions && 0 <= i < |index.versions[k]| ensures index.versions[k][i].artifactId == k {
      assert raw.versions[k][i][KArtifactId] == Str(k);
    }
  }

  // ----- What the fold means, kind by kind -----------------------------------------------------

  function FiledIf(named: bool, payload: Fields, container: Key, idKey: Key): Option<(string, Fields)> {
    if named && container in payload then Filed(payload, container, idKey) else None
  }

  /** The record of some kind that an event files, with its id, if any. */
  type Pick = ChronicleEvent -> Option<(string, Fields)>

  function ContextIn(): Pick {
    (e: ChronicleEvent) => FiledIf(e.eventType.ContextAdded?, e.payload, KContext, KContextId)
  }
  function ArtifactIn(): Pick {
    (e: ChronicleEvent) =>
      FiledIf(e.eventType.ArtifactCreated?
              || ((e.eventType.ArtifactUpdated? || e.eventType.ArtifactVersioned?) && KVersion in e.payload),
              e.payload, KArtifact, KArtifactId)
  }
  function DecisionIn(): Pick {
    (e: ChronicleEvent) => FiledIf(e.eventType.DecisionRecorded?, e.payload, KDecision, KDecisionId)
  }
  function RdeIn(): Pick {
    (e: ChronicleEvent) => FiledIf(e.eventType.RdeDiffRecorded?, e.payload, KRde, KRdeRecordId)
  }
  function RuleIn(): Pick {
    (e: ChronicleEvent) => FiledIf(e.eventType.BoundaryRuleAdded?, e.payload, KBoundaryRule, KRuleId)
  }
  function VersionIn(): Pick {
    (e: ChronicleEvent) =>
      FiledIf((e.eventType.ArtifactCreated? && KArtifact in e.payload)
              || e.eventType.ArtifactUpdated? || e.eventType.ArtifactVersioned?,
              e.payload, KVersion, KArtifactId)
  }

  /** Event `i` files the last record with this id. */
  ghost predicate LastFiles(pick: Pick, log: seq<ChronicleEvent>, i: int, id: string) {
    && 0 <= i < |log| && pick(log[i]).Some? && pick(log[i]).value.0 == id
    && (forall j :: i < j < |log| && pick(log[j]).Some? ==> pick(log[j]).value.0 != id)
  }

  /** `m` holds, for each id the log files, the last record filed, and nothing else. */
  ghost predicate LastWins(pick: Pick, log: seq<ChronicleEvent>, m: map<string, Fields>) {
    && (forall id :: id in m ==> exists i :: LastFiles(pick, log, i, id) && m[id] == pick(log[i]).value.1)
    && (forall i :: 0 <= i < |log| && pick(log[i]).Some? ==> pick(log[i]).value.0 in m)
  }

  lemma LastWinsStep(pick: Pick, log: seq<ChronicleEvent>, e: ChronicleEvent, m: map<string, Fields>)
    requires LastWins(pick, log, m)
    ensures pick(e).None? ==> LastWins(pick, log + [e], m)
    ensures pick(e).Some? ==> LastWins(pick, log + [e], m[pick(e).value.0 := pick(e).value.1])
  {
    var all := log + [e];
    var next := if pick(e).Some? then m[pick(e).value.0 := pick(e).value.1] else m;
    forall id | id in next ensures exists i :: LastFiles(pick, all, i, id) && next[id] == pick(all[i]).value.1 {
      if pick(e).Some? && pick(e).value.0 == id {
        assert LastFiles(pick, all, |log|, id);
      } else {
        var i :| LastFiles(pick, log, i, id) && m[id] == pick(log[i]).value.1;
        assert LastFiles(pick, all, i, id) && all[i] == log[i];
      }
    }
  }

  /** The versions an artifact id is filed with, in log order. */
  function VersionsLogged(log: seq<ChronicleEvent>, id: string): seq<Fields> {
    if log == [] then []
    else
      var v := VersionIn()(log[|log| - 1]);
      VersionsLogged(log[..|log| - 1], id) + (if v.Some? && v.value.0 == id then [v.value.1] else [])
  }

  ghost predicate VersionsInOrder(log: seq<ChronicleEvent>, m: map<string, seq<Fields>>) {
    forall id :: VersionsLogged(log, id) == if id in m then m[id] else []
  }

  /** The raw index: last record wins for each kind, versions in log order. */
  ghost predicate Meaning(log: seq<ChronicleEvent>, raw: RawIndex) {
    && LastWins(ContextIn(), log, raw.contexts) && LastWins(ArtifactIn(), log, raw.artifacts)
    && LastWins(DecisionIn(), log, raw.decisions) && LastWins(RdeIn(), log, raw.rdes)
    && LastWins(RuleIn(), log, raw.rules) && VersionsInOrder(log, raw.versions)
  }

  function Put(m: map<string, Fields>, r: Option<(string, Fields)>): map<string, Fields> {
    if r.Some? then m[r.value.0 := r.value.1] else m
  }

  function PutVersion(m: map<string, seq<Fields>>, r: Option<(string, Fields)>): map<string, seq<Fields>> {
    if r.Some? then AddVersion(m, r.value.0, r.value.1) else m
  }

  ghost predicate Puts(raw: RawIndex, e: ChronicleEvent, next: RawIndex) {
    && next.contexts == Put(raw.contexts, ContextIn()(e)) && next.artifacts == Put(raw.artifacts, ArtifactIn()(e))
    && next.decisions == Put(raw.decisions, DecisionIn()(e)) && next.rdes == Put(raw.rdes, RdeIn()(e))
    && next.rules == Put(raw.rules, RuleIn()(e))
    && next.versions == PutVersion(raw.versions, VersionIn()(e))
  }

  lemma CreationPuts(raw: RawIndex, e: ChronicleEvent)
    requires Apply(raw, e).Some? && e.eventType.ArtifactCreated?
    ensures Puts(raw, e, Apply(raw, e).value)
  {
    if KArtifact in e.payload {
      assert Apply(raw, e) == ApplyArtifactCreated(raw, e.payload);
      assert ArtifactIn()(e) == Filed(e.payload, KArtifact, KArtifactId);
      assert VersionIn()(e) == if KVersion in e.payload then Filed(e.payload, KVersion, KArtifactId) else None;
    } else {
      assert ArtifactIn()(e).None? && VersionIn()(e).None?;
    }
  }

  lemma VersioningPuts(raw: RawIndex, e: ChronicleEvent)
    requires Apply(raw, e).Some? && (e.eventType.ArtifactUpdated? || e.eventType.ArtifactVersioned?)
    ensures Puts(raw, e, Apply(raw, e).value)
  {
    if KVersion in e.payload {
      assert Apply(raw, e) == ApplyArtifactVersioned(raw, e.payload);
      assert VersionIn()(e) == Filed(e.payload, KVersion, KArtifactId);
      assert ArtifactIn()(e) == if KArtifact in e.payload then Filed(e.payload, KArtifact, KArtifactId) else None;
    } else {
      assert ArtifactIn()(e).None? && VersionIn()(e).None?;
    }
  }

  lemma RecordPuts(raw: RawIndex, e: ChronicleEvent)
    requires Apply(raw, e).Some?
    requires e.eventType.ContextAdded? || e.eventType.DecisionRecorded?
    ensures Puts(raw, e, Apply(raw, e).value)
  {
  }

  lemma DiffOrRulePuts(raw: RawIndex, e: ChronicleEvent)
    requires Apply(raw, e).Some?
    requires e.eventType.RdeDiffRecorded? || e.eventType.BoundaryRuleAdded?
    ensures Puts(raw, e, Apply(raw, e).value)
  {
  }

  /** Applying an event puts each record it files, and nothing else. */
  lemma ApplyPuts(raw: RawIndex, e: ChronicleEvent)
    requires Apply(raw, e).Some?
    ensures Puts(raw, e, Apply(raw, e).value)
  {
    if e.eventType.ArtifactCreated? {
      CreationPuts(raw, e);
    } else if e.eventType.ArtifactUpdated? || e.eventType.ArtifactVersioned? {
      VersioningPuts(raw, e);
    } else if e.eventType.ContextAdded? || e.eventType.DecisionRecorded? {
      RecordPuts(raw, e);
    } else if e.eventType.RdeDiffRecorded? || e.eventType.BoundaryRuleAdded? {
      DiffOrRulePuts(raw, e);
    }
  }

  lemma VersionsStep(log: seq<ChronicleEvent>, e: ChronicleEvent, m: map<string, seq<Fields>>)
    requires VersionsInOrder(log, m)
    ensures VersionsInOrder(log + [e], PutVersion(m, VersionIn()(e)))
  {
    assert (log + [e])[..|log|] == log;
    forall id | true ensures VersionsLogged(log, id) == if id in m then m[id] else [] {
    }
  }

  /** The fold keeps, per kind and id, the last record the log files, and all versions in log order. */
  lemma {:induction false} FoldMeaning(log: seq<ChronicleEvent>)
    requires Fold(log).Some?
    ensures Meaning(log, Fold(log).value)
  {
    if log != [] {
      var front, e := log[..|log| - 1], log[|log| - 1];
      assert log == front + [e];
      FoldMeaning(front);
      var raw := Fold(front).value;
      ApplyPuts(raw, e);
      LastWinsStep(ContextIn(), front, e, raw.contexts);
      LastWinsStep(ArtifactIn(), front, e, raw.artifacts);
      LastWinsStep(DecisionIn(), front, e, raw.decisions);
      LastWinsStep(RdeIn(), front, e, raw.rdes);
      LastWinsStep(RuleIn(), front, e, raw.rules);
      VersionsStep(front, e, raw.versions);
    }
  }

  /** A context is indexed exactly when the log holds a snapshot of it, and then it is the last one. */
  lemma LastSnapshotWins(log: seq<ChronicleEvent>, id: string)
    requires Project(log).Some?
    ensures id in Project(log).value.contexts <==> exists i :: LastFiles(ContextIn(), log, i, id)
    ensures forall i :: LastFiles(ContextIn(), log, i, id) ==>
              id in Project(log).value.contexts
              && ValidateContext(ContextIn()(log[i]).value.1) == Some(Project(log).value.contexts[id])
  {
    FoldMeaning(log);
    var raw := Fold(log).value;
    ValidateParts(raw);
    if id in raw.contexts {
      var k :| LastFiles(ContextIn(), log, k, id) && raw.contexts[id] == ContextIn()(log[k]).value.1;
      forall i | LastFiles(ContextIn(), log, i, id) ensures i == k {
      }
    }
  }
}
