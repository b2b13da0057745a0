/** Which events break the projection of a log: until a later record, or for good. */
module IndexBreakage {
  import opened Wrappers
  import opened Sequences
  import opened Records
  import opened IndexProjection

  // ----- What an event must be for its records to be filed, and to validate -----------------------

  /** A container, if present, is a dictionary with a usable id. */
  predicate Named(payload: Fields, container: Key, idKey: Key) {
    container in payload ==> Filed(payload, container, idKey).Some?
  }

  /** Every record the event carries for an index can be filed under its id. */
  predicate Fileable(e: ChronicleEvent) {
    match e.eventType
    case ContextAdded => Named(e.payload, KContext, KContextId)
    case ArtifactCreated =>
      KArtifact in e.payload ==> Named(e.payload, KArtifact, KArtifactId) && Named(e.payload, KVersion, KArtifactId)
    case ArtifactUpdated =>
      KVersion in e.payload ==> Named(e.payload, KArtifact, KArtifactId) && Named(e.payload, KVersion, KArtifactId)
    case ArtifactVersioned =>
      KVersion in e.payload ==> Named(e.payload, KArtifact, KArtifactId) && Named(e.payload, KVersion, KArtifactId)
    case DecisionRecorded => Named(e.payload, KDecision, KDecisionId)
    case RdeDiffRecorded => Named(e.payload, KRde, KRdeRecordId)
    case BoundaryRuleAdded => Named(e.payload, KBoundaryRule, KRuleId)
    case _ => true
  }

  /** The record the event files, if any, validates. */
  predicate Good<T>(pick: Pick, validate: Fields -> Option<T>, e: ChronicleEvent) {
    pick(e).Some? ==> validate(pick(e).value.1).Some?
  }

  predicate GoodVersion(e: ChronicleEvent) {
    Good(VersionIn(), ValidateVersion, e)
  }

  /** Every record the event carries for an index can be filed and validates. */
  predicate Validates(e: ChronicleEvent) {
    && Fileable(e) && GoodVersion(e)
    && Good(ContextIn(), ValidateContext, e) && Good(ArtifactIn(), ValidateArtifact, e)
    && Good(DecisionIn(), ValidateDecision, e) && Good(RdeIn(), ValidateRde, e)
    && Good(RuleIn(), ValidateBoundaryRule, e)
  }

  lemma ApplyFileable(raw: RawIndex, e: ChronicleEvent)
    ensures Apply(raw, e).Some? <==> Fileable(e)
  {
  }

  lemma {:induction false} FoldFileable(log: seq<ChronicleEvent>)
    ensures Fold(log).Some? <==> forall i :: 0 <= i < |log| ==> Fileable(log[i])
  {
    if log != [] {
      var front, e := log[..|log| - 1], log[|log| - 1];
      FoldFileable(front);
      if Fold(front).Some? {
        ApplyFileable(Fold(front).value, e);
      } else {
        var i :| 0 <= i < |front| && !Fileable(front[i]);
        assert !Fileable(log[i]);
      }
    }
  }

  // ----- Exactly when a log projects --------------------------------------------------------------

  /** Of each id, the last record filed validates. */
  ghost predicate LastValid<T>(pick: Pick, validate: Fields -> Option<T>, log: seq<ChronicleEvent>) {
    forall i, id :: LastFiles(pick, log, i, id) ==> validate(pick(log[i]).value.1).Some?
  }

  lemma LastValidMeans<T>(pick: Pick, validate: Fields -> Option<T>, log: seq<ChronicleEvent>, m: map<string, Fields>)
    requires LastWins(pick, log, m)
    ensures ValidateAll(validate, m).Some? <==> LastValid(pick, validate, log)
  {
    forall i, id | LastFiles(pick, log, i, id) ensures id in m && m[id] == pick(log[i]).value.1 {
      var k :| LastFiles(pick, log, k, id) && m[id] == pick(log[k]).value.1;
      assert k == i;
    }
    if LastValid(pick, validate, log) {
      forall id | id in m ensures validate(m[id]).Some? {
        var k :| LastFiles(pick, log, k, id) && m[id] == pick(log[k]).value.1;
      }
    } else {
      var i, id :| LastFiles(pick, log, i, id) && validate(pick(log[i]).value.1).None?;
      assert validate(m[id]).None?;
    }
  }

  lemma {:induction false} VersionsLoggedMember(log: seq<ChronicleEvent>, id: string, x: Fields)
    ensures x in VersionsLogged(log, id) <==> exists i :: 0 <= i < |log| && VersionIn()(log[i]) == Some((id, x))
  {
    if log != [] {
      var front, e := log[..|log| - 1], log[|log| - 1];
      VersionsLoggedMember(front, id, x);
      assert log == front + [e];
      if x in VersionsLogged(front, id) {
        var i :| 0 <= i < |front| && VersionIn()(front[i]) == Some((id, x));
        assert VersionIn()(log[i]) == Some((id, x));
      }
      if i :| 0 <= i < |log| && VersionIn()(log[i]) == Some((id, x)) {
        assert i < |front| ==> VersionIn()(front[i]) == Some((id, x));
      }
    }
  }

  lemma VersionsValidMeans(log: seq<ChronicleEvent>, m: map<string, seq<Fields>>)
    requires VersionsInOrder(log, m)
    ensures ValidateAllVersions(m).Some? <==> forall i :: 0 <= i < |log| ==> GoodVersion(log[i])
  {
    if forall i :: 0 <= i < |log| ==> GoodVersion(log[i]) {
      forall id | id in m ensures ValidateVersions(m[id]).Some? {
        forall j | 0 <= j < |m[id]| ensures ValidateVersion(m[id][j]).Some? {
          VersionsLoggedMember(log, id, m[id][j]);
          assert m[id][j] in VersionsLogged(log, id);
          var i :| 0 <= i < |log| && VersionIn()(log[i]) == Some((id, m[id][j]));
          assert GoodVersion(log[i]);
        }
      }
    } else {
      var i :| 0 <= i < |log| && !GoodVersion(log[i]);
      var (id, x) := VersionIn()(log[i]).value;
      VersionsLoggedMember(log, id, x);
      assert x in VersionsLogged(log, id);
      var j :| 0 <= j < |m[id]| && m[id][j] == x;
      assert ValidateVersions(m[id]).None?;
    }
  }

  /** The records of every kind but versions: of each id the last one validates. */
  ghost predicate LastsValid(log: seq<ChronicleEvent>) {
    && LastValid(ContextIn(), ValidateContext, log) && LastValid(ArtifactIn(), ValidateArtifact, log)
    && LastValid(DecisionIn(), ValidateDecision, log) && LastValid(RdeIn(), ValidateRde, log)
    && LastValid(RuleIn(), ValidateBoundaryRule, log)
  }

  /**
   * A rebuild succeeds exactly when every event can be filed, every version validates, and of each
   * context, artifact, decision, RDE record and rule the last record validates.
   */
  lemma ProjectsExactly(log: seq<ChronicleEvent>)
    ensures Project(log).Some? <==>
              (forall i :: 0 <= i < |log| ==> Fileable(log[i]) && GoodVersion(log[i])) && LastsValid(log)
  {
    FoldFileable(log);
    if Fold(log).Some? {
      var raw := Fold(log).value;
      FoldMeaning(log);
      ValidateParts(raw);
      VersionsValidMeans(log, raw.versions);
      LastValidMeans(ContextIn(), ValidateContext, log, raw.contexts);
      LastValidMeans(ArtifactIn(), ValidateArtifact, log, raw.artifacts);
      LastValidMeans(DecisionIn(), ValidateDecision, log, raw.decisions);
      LastValidMeans(RdeIn(), ValidateRde, log, raw.rdes);
      LastValidMeans(RuleIn(), ValidateBoundaryRule, log, raw.rules);
    }
  }

  // ----- One more event ----------------------------------------------------------------------------

  lemma LastValidAppend<T>(pick: Pick, validate: Fields -> Option<T>, log: seq<ChronicleEvent>, e: ChronicleEvent)
    requires LastValid(pick, validate, log)
    ensures LastValid(pick, validate, log + [e]) <==> Good(pick, validate, e)
  {
    var all := log + [e];
    if Good(pick, validate, e) {
      forall i, id | LastFiles(pick, all, i, id) ensures validate(pick(all[i]).value.1).Some? {
        if i < |log| {
          assert forall j :: i < j < |log| ==> all[j] == log[j];
          assert LastFiles(pick, log, i, id);
        }
      }
    } else {
      assert LastFiles(pick, all, |log|, pick(e).value.0);
    }
  }

  /** Appended to a log that projects, an event keeps it so exactly when it validates. */
  lemma AppendProjects(log: seq<ChronicleEvent>, e: ChronicleEvent)
    requires Project(log).Some?
    ensures Project(log + [e]).Some? <==> Validates(e)
  {
    ProjectsExactly(log);
    ProjectsExactly(log + [e]);
    LastValidAppend(ContextIn(), ValidateContext, log, e);
    LastValidAppend(ArtifactIn(), ValidateArtifact, log, e);
    LastValidAppend(DecisionIn(), ValidateDecision, log, e);
    LastValidAppend(RdeIn(), ValidateRde, log, e);
    LastValidAppend(RuleIn(), ValidateBoundaryRule, log, e);
    AllOneMore(log, e);
  }

  lemma AllOneMore(log: seq<ChronicleEvent>, e: ChronicleEvent)
    requires forall i :: 0 <= i < |log| ==> Fileable(log[i]) && GoodVersion(log[i])
    ensures (forall i :: 0 <= i < |log + [e]| ==> Fileable((log + [e])[i]) && GoodVersion((log + [e])[i]))
            <==> Fileable(e) && GoodVersion(e)
  {
    assert (log + [e])[|log|] == e;
  }

  // ----- Breakage for good --------------------------------------------------------------------------

  /** Some event can never be filed, or carries a version that does not validate. */
  ghost predicate BrokenForGood(log: seq<ChronicleEvent>) {
    exists i :: 0 <= i < |log| && !(Fileable(log[i]) && GoodVersion(log[i]))
  }

  function ArtifactStub(id: string): (r: Fields)
    ensures KArtifactId in r && r[KArtifactId] == Str(id) && ValidateArtifact(r).Some?
  {
    map[KArtifactId := Str(id), KChronicleId := Str(""), KTitle := Str(""), KArtifactType := Str(""),
        KCurrentVersionId := Str(""), KCreatedAt := Num(0), KUpdatedAt := Num(0), KPath := Str("")]
  }

  /** A valid record of the same kind and id as the one an event files, or an event that files none. */
  function Repair(e: ChronicleEvent): ChronicleEvent {
    if ContextIn()(e).Some? then
      Carrier(e, ContextAdded, KContext,
              map[KContextId := Str(ContextIn()(e).value.0), KTitle := Str(""), KCreatedAt := Num(0)])
    else if ArtifactIn()(e).Some? then
      Carrier(e, ArtifactCreated, KArtifact, ArtifactStub(ArtifactIn()(e).value.0))
    else if DecisionIn()(e).Some? then
      Carrier(e, DecisionRecorded, KDecision,
              map[KDecisionId := Str(DecisionIn()(e).value.0), KChronicleId := Str(""), KDecisionType := Str(""),
                  KDecidedBy := Str(""), KDecidedAt := Num(0)])
    else if RdeIn()(e).Some? then
      Carrier(e, RdeDiffRecorded, KRde,
              map[KRdeRecordId := Str(RdeIn()(e).value.0), KArtifactId := Str(""), KFromVersionId := Str(""),
                  KToVersionId := Str(""), KCreatedAt := Num(0), KCreatedBy := Str("")])
    else if RuleIn()(e).Some? then
      Carrier(e, BoundaryRuleAdded, KBoundaryRule,
              map[KRuleId := Str(RuleIn()(e).value.0), KRuleType := Str(""), KField := Str(""), KOperator := Str(""),
                  KValue := Str(""), KCreatedAt := Num(0)])
    else e.(eventType := NoteAdded, payload := map[])
  }

  function Carrier(e: ChronicleEvent, t: EventType, container: Key, fields: Fields): ChronicleEvent {
    e.(eventType := t, payload := map[container := Dict(fields)])
  }

  function Repairs(log: seq<ChronicleEvent>): seq<ChronicleEvent> {
    Map(Repair, log)
  }

  /** The repair files a valid record wherever the event files one. */
  ghost predicate Replaces<T>(pick: Pick, validate: Fields -> Option<T>, e: ChronicleEvent, r: ChronicleEvent) {
    && (pick(e).Some? ==> pick(r).Some? && pick(r).value.0 == pick(e).value.0)
    && Good(pick, validate, r)
  }

  lemma RepairContext(e: ChronicleEvent)
    ensures Replaces(ContextIn(), ValidateContext, e, Repair(e))
  {
  }

  lemma RepairArtifact(e: ChronicleEvent)
    ensures Replaces(ArtifactIn(), ValidateArtifact, e, Repair(e))
  {
    if ArtifactIn()(e).Some? {
      var id := ArtifactIn()(e).value.0;
      assert ContextIn()(e).None?;
      assert ArtifactIn()(Repair(e)) == Some((id, ArtifactStub(id)));
    } else {
      assert ArtifactIn()(Repair(e)).None?;
    }
  }

  lemma RepairDecision(e: ChronicleEvent)
    ensures Replaces(DecisionIn(), ValidateDecision, e, Repair(e)) && Replaces(RdeIn(), ValidateRde, e, Repair(e))
  {
  }

  lemma RepairRule(e: ChronicleEvent)
    ensures Replaces(RuleIn(), ValidateBoundaryRule, e, Repair(e))
    ensures Fileable(Repair(e)) && GoodVersion(Repair(e))
  {
  }

  lemma RepairComesLater<T>(pick: Pick, validate: Fields -> Option<T>, log: seq<ChronicleEvent>, i: nat, id: string)
    requires i < |log| && pick(log[i]).Some? && pick(log[i]).value.0 == id
    requires Replaces(pick, validate, log[i], Repair(log[i]))
    ensures !LastFiles(pick, log + Repairs(log), i, id)
  {
    assert (log + Repairs(log))[|log| + i] == Repair(log[i]);
  }

  lemma RepairedLast<T>(pick: Pick, validate: Fields -> Option<T>, log: seq<ChronicleEvent>)
    requires forall i :: 0 <= i < |log| ==> Replaces(pick, validate, log[i], Repair(log[i]))
    ensures LastValid(pick, validate, log + Repairs(log))
  {
    var n, all := |log|, log + Repairs(log);
    forall i, id | LastFiles(pick, all, i, id) ensures validate(pick(all[i]).value.1).Some? {
      if i < n {
        RepairComesLater(pick, validate, log, i, id);
      } else {
        assert all[i] == Repair(log[i - n]) && Replaces(pick, validate, log[i - n], Repair(log[i - n]));
      }
    }
  }

  lemma Repaired(log: seq<ChronicleEvent>)
    requires !BrokenForGood(log)
    ensures Project(log + Repairs(log)).Some?
  {
    forall i | 0 <= i < |log|
      ensures Replaces(ContextIn(), ValidateContext, log[i], Repair(log[i]))
              && Replaces(ArtifactIn(), ValidateArtifact, log[i], Repair(log[i]))
              && Replaces(DecisionIn(), ValidateDecision, log[i], Repair(log[i]))
              && Replaces(RdeIn(), ValidateRde, log[i], Repair(log[i]))
              && Replaces(RuleIn(), ValidateBoundaryRule, log[i], Repair(log[i]))
              && Fileable(Repair(log[i])) && GoodVersion(Repair(log[i]))
    {
      RepairContext(log[i]);
      RepairArtifact(log[i]);
      RepairDecision(log[i]);
      RepairRule(log[i]);
    }
    RepairedLast(ContextIn(), ValidateContext, log);
    RepairedLast(ArtifactIn(), ValidateArtifact, log);
    RepairedLast(DecisionIn(), ValidateDecision, log);
    RepairedLast(RdeIn(), ValidateRde, log);
    RepairedLast(RuleIn(), ValidateBoundaryRule, log);
    ProjectsExactly(log + Repairs(log));
  }

  /**
   * No extension of a log can ever be rebuilt exactly when it holds a record without a usable id or
   * a version that does not validate. Every other breakage ends with a later valid record of the id.
   */
  lemma BrokenForGoodMeans(log: seq<ChronicleEvent>)
    ensures BrokenForGood(log) <==> forall more :: Project(log + more).None?
  {
    if BrokenForGood(log) {
      forall more: seq<ChronicleEvent> | true ensures Project(log + more).None? {
        var i :| 0 <= i < |log| && !(Fileable(log[i]) && GoodVersion(log[i]));
        assert (log + more)[i] == log[i];
        ProjectsExactly(log + more);
      }
    } else {
      Repaired(log);
    }
  }

  lemma DumpedSnapshot(e: ChronicleEvent, c: Context)
    requires e.eventType.ContextAdded? && e.payload == map[KContext := Dict(DumpContext(c))]
    ensures ContextIn()(e) == Some((c.contextId, DumpContext(c)))
  {
  }

  lemma BareSnapshot(e: ChronicleEvent, id: string)
    requires e.eventType.ContextAdded? && e.payload == map[KContext := Dict(map[KContextId := Str(id)])]
    ensures ContextIn()(e) == Some((id, map[KContextId := Str(id)]))
    ensures Fileable(e) && GoodVersion(e) && !Validates(e)
  {
    assert ValidateContext(map[KContextId := Str(id)]).None?;
    assert !Good(ContextIn(), ValidateContext, e);
  }

  /**
   * A snapshot that holds nothing but a context id breaks the next rebuild, and the next valid
   * snapshot of that id makes it as if the broken one had never been there.
   */
  lemma BareSnapshotRepaired(log: seq<ChronicleEvent>, bare: ChronicleEvent, later: ChronicleEvent, c: Context)
    requires Project(log).Some? && bare.eventType.ContextAdded? && later.eventType.ContextAdded?
    requires bare.payload == map[KContext := Dict(map[KContextId := Str(c.contextId)])]
    requires later.payload == map[KContext := Dict(DumpContext(c))]
    ensures Project(log + [bare]).None? && !BrokenForGood(log + [bare])
    ensures Project(log + [bare] + [later]) == Project(log + [later]) && Project(log + [later]).Some?
  {
    AppendContext(log, later, c);
    BareSnapshot(bare, c.contextId);
    DumpedSnapshot(later, c);
    ProjectsExactly(log);
    AppendProjects(log, bare);
    AllOneMore(log, bare);
    LastSnapshotOnly(log, bare, later);
  }

  /** Of two snapshots of one id in a row only the second one matters. */
  lemma LastSnapshotOnly(log: seq<ChronicleEvent>, first: ChronicleEvent, second: ChronicleEvent)
    requires first.eventType.ContextAdded? && ContextIn()(first).Some?
    requires second.eventType.ContextAdded? && ContextIn()(second).Some?
    requires ContextIn()(first).value.0 == ContextIn()(second).value.0
    ensures Project(log + [first] + [second]) == Project(log + [second])
  {
    FoldAppend(log, first);
    FoldAppend(log + [first], second);
    FoldAppend(log, second);
    if Fold(log).Some? {
      var m := Fold(log).value.contexts;
      var (id, a) := ContextIn()(first).value;
      var b := ContextIn()(second).value.1;
      assert m[id := a][id := b] == m[id := b];
    }
  }
}
