/** The commit as separate steps, with the process allowed to die between them. */
module ApiCrash {
  import opened Wrappers
  import opened Sequences
  import opened Records
  import opened IndexProjection
  import opened IndexBreakage
  import opened ChronicleStore
  import opened ApiAdapter
  import opened ApiRuns

  /** How far the commit in flight has come: its event is in the log, or the index is rebuilt too. */
  datatype Phase = Idle | Appended(request: Request, event: ChronicleEvent, now: nat)
                 | Indexed(request: Request, event: ChronicleEvent, now: nat)

  datatype Machine = Machine(api: ApiState, phase: Phase)

  /**
   * `Start` runs a commit up to its append; each `Continue` does its next write; `Crash` kills the
   * process and may leave any half-written index behind.
   */
  datatype Action = Start(request: Request, now: nat) | Continue | Crash(leftIndex: Index)

  function Step(m: Machine, a: Action): Machine {
    match a
    case Start(r, now) =>
      if !Begins(m, r, now) then m
      else
        var written := NewEvent(m.api.store, r, now).value;
        Machine(m.api.(store := Logged(m.api.store, written.0, written.1)), Appended(r, written.0, now))
    case Continue =>
      (match m.phase
       case Idle => m
       case Appended(r, e, now) =>
         if !RebuildsFirst(r) then Machine(Audited(m.api, r, e, now), Idle)
         else if Project(m.api.store.log).Some? then Machine(m.api.(store := Rebuilt(m.api.store)), Indexed(r, e, now))
         else m.(phase := Idle)
       case Indexed(r, e, now) => Machine(Audited(m.api, r, e, now), Idle))
    case Crash(left) => Machine(m.api.(store := m.api.store.(index := left)), Idle)
  }

  function Exec(m: Machine, actions: seq<Action>): Machine
    decreases |actions|
  {
    if actions == [] then m else Exec(Step(m, actions[0]), actions[1..])
  }

  /** A new write that the service does not refuse, with none in flight. */
  predicate Begins(m: Machine, r: Request, now: nat) {
    m.phase.Idle? && m.api.store.chronicleId.Some? && FirstWith(m.api.store.log, WriteKey(r)).None?
    && NewEvent(m.api.store, r, now).Success?
  }

  /** A crash may leave any index, and forgets the commit in flight, but keeps log and audit log. */
  lemma CrashKeepsLogs(m: Machine, left: Index)
    ensures var t := Step(m, Crash(left));
            t.phase == Idle && t.api.store.index == left
            && t.api.store.log == m.api.store.log && t.api.audit == m.api.audit
  {
  }

  lemma ThreeSteps(m: Machine, a: Action, b: Action, c: Action)
    ensures Exec(m, [a, b, c]) == Step(Step(Step(m, a), b), c)
  {
    var m1 := Step(m, a);
    var m2 := Step(m1, b);
    assert [a, b, c][1..] == [b, c] && [b, c][1..] == [c] && [c][1..] == [];
    assert Exec(m2, [c]) == Exec(Step(m2, c), []);
    assert Exec(m1, [b, c]) == Exec(m2, [c]);
  }

  /** Undisturbed, the steps are the commit call. */
  lemma StepsRefineCommit(s: ApiState, r: Request, now: nat)
    ensures var m := Exec(Machine(s, Idle), [Start(r, now), Continue, Continue]);
            m.phase.Idle? && m.api == Commit(s, r, now).0
  {
    ThreeSteps(Machine(s, Idle), Start(r, now), Continue, Continue);
    if !Begins(Machine(s, Idle), r, now) {
      NothingStarts(s, r, now);
    } else {
      FirstStep(s, r, now);
      LastSteps(Begun(s, r, now).api, r, NewEvent(s.store, r, now).value.0, now);
      CommitCompletes(s, r, now);
    }
  }

  lemma NothingStarts(s: ApiState, r: Request, now: nat)
    requires !Begins(Machine(s, Idle), r, now)
    ensures Step(Machine(s, Idle), Start(r, now)) == Machine(s, Idle) && Commit(s, r, now).0 == s
  {
  }

  /** The machine right after the append. */
  function Begun(s: ApiState, r: Request, now: nat): Machine
    requires Begins(Machine(s, Idle), r, now)
  {
    var (e, ids) := NewEvent(s.store, r, now).value;
    Machine(s.(store := Logged(s.store, e, ids)), Appended(r, e, now))
  }

  lemma FirstStep(s: ApiState, r: Request, now: nat)
    requires Begins(Machine(s, Idle), r, now)
    ensures Step(Machine(s, Idle), Start(r, now)) == Begun(s, r, now)
  {
  }

  lemma IdleContinues(s: ApiState)
    ensures Step(Machine(s, Idle), Continue) == Machine(s, Idle)
  {
  }

  /** The two steps after the append do what a commit does after it. */
  lemma LastSteps(s: ApiState, r: Request, e: ChronicleEvent, now: nat)
    ensures Step(Step(Machine(s, Appended(r, e, now)), Continue), Continue) == Machine(Complete(s, r, e, now).0, Idle)
  {
    if !RebuildsFirst(r) {
      IdleContinues(Audited(s, r, e, now));
    }
  }

  lemma CommitCompletes(s: ApiState, r: Request, now: nat)
    requires Begins(Machine(s, Idle), r, now)
    ensures Commit(s, r, now) == Complete(Begun(s, r, now).api, r, NewEvent(s.store, r, now).value.0, now)
  {
  }

  // ----- Trails: what the log and the audit log say about writes --------------------------------

  /** An event id with the key it was written for. */
  datatype Mark = Mark(eventId: string, key: Key2)

  /** The key of an API event, read from its payload. */
  function KeyOf(e: ChronicleEvent): Option<Key2> {
    if KApi in e.payload && e.payload[KApi].Dict? then
      var api := e.payload[KApi].fields;
      var endpoint :- NeedString(api, KEndpoint);
      var key :- NeedString(api, KIdempotencyKey);
      Some((endpoint, key))
    else None
  }

  lemma KeyOfMeans(e: ChronicleEvent, key: Key2)
    ensures KeyOf(e) == Some(key) <==> Carries(e, key)
  {
  }

  function MarksOf(e: ChronicleEvent): seq<Mark> {
    var key := KeyOf(e);
    if key.Some? then [Mark(e.eventId, key.value)] else []
  }

  function LogTrail(log: seq<ChronicleEvent>): seq<Mark> {
    FlatMap(MarksOf, log)
  }

  function AuditMark(a: AuditEntry): seq<Mark> {
    if a.sourceEventId.Some? then [Mark(a.sourceEventId.value, (a.endpoint, a.idempotencyKey))] else []
  }

  function AuditTrail(audit: seq<AuditEntry>): seq<Mark> {
    FlatMap(AuditMark, audit)
  }

  /** The log trail without the write still in flight. */
  function Settled(m: Machine): seq<Mark> {
    var trail := LogTrail(m.api.store.log);
    if m.phase.Idle? || trail == [] then trail else trail[..|trail| - 1]
  }

  // ----- The invariant ----------------------------------------------------------------------------

  /** In flight, the last event of the log is the one still to be audited. */
  ghost predicate InFlight(m: Machine) {
    m.phase.Idle? ||
    (var log := m.api.store.log;
     log != [] && log[|log| - 1] == m.phase.event && KeyOf(m.phase.event) == Some(WriteKey(m.phase.request)))
  }

  ghost predicate Inv(m: Machine) {
    && KeysUnique(m.api.store.log)
    && InFlight(m)
    && SublistBy(Same, AuditTrail(m.api.audit), Settled(m))
  }

  lemma TrailAppend(log: seq<ChronicleEvent>, e: ChronicleEvent)
    ensures LogTrail(log + [e]) == LogTrail(log) + MarksOf(e)
  {
    FlatMapAppend(MarksOf, log, [e]);
    assert FlatMap(MarksOf, [e]) == MarksOf(e) + FlatMap(MarksOf, [e][1..]);
  }

  lemma AuditAppend(audit: seq<AuditEntry>, a: AuditEntry)
    ensures AuditTrail(audit + [a]) == AuditTrail(audit) + AuditMark(a)
  {
    FlatMapAppend(AuditMark, audit, [a]);
    assert FlatMap(AuditMark, [a]) == AuditMark(a) + FlatMap(AuditMark, [a][1..]);
  }

  /** The trail of a log with a write in flight ends with that write. */
  lemma InFlightTrail(m: Machine)
    requires InFlight(m) && !m.phase.Idle?
    ensures LogTrail(m.api.store.log) == Settled(m) + [Mark(m.phase.event.eventId, WriteKey(m.phase.request))]
  {
    var log := m.api.store.log;
    assert log == log[..|log| - 1] + [log[|log| - 1]];
    TrailAppend(log[..|log| - 1], log[|log| - 1]);
  }

  lemma ContinueAudits(m: Machine)
    requires Inv(m) && !m.phase.Idle?
    ensures var r, e := m.phase.request, m.phase.event;
            SublistBy(Same, AuditTrail(Audited(m.api, r, e, m.phase.now).audit), LogTrail(m.api.store.log))
            && (AuditTrail(m.api.audit) == Settled(m) ==>
                  AuditTrail(Audited(m.api, r, e, m.phase.now).audit) == LogTrail(m.api.store.log))
            && |AuditTrail(Audited(m.api, r, e, m.phase.now).audit)| == |AuditTrail(m.api.audit)| + 1
  {
    var mark := Mark(m.phase.event.eventId, WriteKey(m.phase.request));
    InFlightTrail(m);
    AuditedTrail(m.api, m.phase.request, m.phase.event, m.phase.now);
    SublistAppend(Same, AuditTrail(m.api.audit), Settled(m), [mark], [mark]);
  }

  lemma AuditedTrail(s: ApiState, r: Request, e: ChronicleEvent, now: nat)
    ensures AuditTrail(Audited(s, r, e, now).audit) == AuditTrail(s.audit) + [Mark(e.eventId, WriteKey(r))]
  {
    AuditAppend(s.audit, AuditOf(r, e, s.store.nextId, now));
  }

  lemma StartAppends(m: Machine, r: Request, now: nat)
    requires Inv(m) && Step(m, Start(r, now)) != m
    ensures Inv(Step(m, Start(r, now))) && Settled(Step(m, Start(r, now))) == Settled(m)
    ensures !Step(m, Start(r, now)).phase.Idle? && m.phase.Idle?
  {
    var s := m.api.store;
    var e := NewEvent(s, r, now).value.0;
    var key := WriteKey(r);
    FirstWithMeans(s.log, key);
    NewEventCarries(s, r, now);
    UniqueAppend(s.log, e, key);
    KeyOfMeans(e, key);
    TrailAppend(s.log, e);
    var t := Step(m, Start(r, now));
    assert t.api.store.log == s.log + [e];
    assert Settled(t) == LogTrail(s.log);
  }

  /** A step loses an audit when it abandons a write in flight. */
  function Losses(m: Machine, a: Action): nat {
    if !m.phase.Idle? && Step(m, a).phase.Idle? && Step(m, a).api.audit == m.api.audit then 1 else 0
  }

  function LossesOver(m: Machine, actions: seq<Action>): nat
    decreases |actions|
  {
    if actions == [] then 0 else Losses(m, actions[0]) + LossesOver(Step(m, actions[0]), actions[1..])
  }

  /** Settled writes without an audit entry. */
  function Unaudited(m: Machine): int {
    |Settled(m)| - |AuditTrail(m.api.audit)|
  }

  lemma ContinueKeeps(m: Machine)
    requires Inv(m) && !m.phase.Idle?
    ensures Inv(Step(m, Continue))
    ensures Unaudited(Step(m, Continue)) == Unaudited(m) + Losses(m, Continue)
  {
    InFlightTrail(m);
    var t := Step(m, Continue);
    if m.phase.Appended? && RebuildsFirst(m.phase.request) {
      Abandon(m);
      assert t.api.store.log == m.api.store.log && t.api.audit == m.api.audit;
    } else {
      ContinueAudits(m);
      assert t.api == Audited(m.api, m.phase.request, m.phase.event, m.phase.now);
    }
  }

  lemma CrashKeeps(m: Machine, left: Index)
    requires Inv(m)
    ensures Inv(Step(m, Crash(left)))
    ensures Unaudited(Step(m, Crash(left))) == Unaudited(m) + Losses(m, Crash(left))
  {
    if !m.phase.Idle? {
      InFlightTrail(m);
      Abandon(m);
    }
  }

  lemma StepKeeps(m: Machine, a: Action)
    requires Inv(m)
    ensures Inv(Step(m, a))
    ensures Unaudited(Step(m, a)) == Unaudited(m) + Losses(m, a)
  {
    match a
    case Start(r, now) =>
      if Step(m, a) != m {
        StartAppends(m, r, now);
      }
    case Continue =>
      if !m.phase.Idle? {
        ContinueKeeps(m);
      }
    case Crash(left) => CrashKeeps(m, left);
  }

  lemma Abandon(m: Machine)
    requires Inv(m) && !m.phase.Idle?
    ensures SublistBy(Same, AuditTrail(m.api.audit), LogTrail(m.api.store.log))
  {
    InFlightTrail(m);
    var mark := Mark(m.phase.event.eventId, WriteKey(m.phase.request));
    SublistAppend(Same, AuditTrail(m.api.audit), Settled(m), [], [mark]);
    assert AuditTrail(m.api.audit) + [] == AuditTrail(m.api.audit);
  }

  /**
   * Over every run with crashes anywhere and any retries: keys stay unique, the audit log is a
   * sub-list of the writes in the log, in order, and the writes it misses are counted exactly by
   * the commits that were cut off between append and audit.
   */
  lemma {:induction false} CrashTolerance(m: Machine, actions: seq<Action>)
    requires Inv(m)
    ensures Inv(Exec(m, actions))
    ensures Unaudited(Exec(m, actions)) == Unaudited(m) + LossesOver(m, actions)
    decreases |actions|
  {
    if actions != [] {
      StepKeeps(m, actions[0]);
      CrashTolerance(Step(m, actions[0]), actions[1..]);
    }
  }

  // ----- Consequences ---------------------------------------------------------------------------

  lemma {:induction false} TrailMember(log: seq<ChronicleEvent>, mark: Mark) returns (e: ChronicleEvent)
    requires mark in LogTrail(log)
    ensures e in log && e.eventId == mark.eventId && Carries(e, mark.key)
  {
    FlatMapMember(MarksOf, log, mark);
    e :| e in log && mark in MarksOf(e);
    KeyOfMeans(e, mark.key);
  }

  ghost predicate MarksDistinct(trail: seq<Mark>) {
    forall i, j :: 0 <= i < j < |trail| ==> trail[i].key != trail[j].key
  }

  lemma {:induction false} UniqueKeysDistinctMarks(log: seq<ChronicleEvent>)
    requires KeysUnique(log)
    ensures MarksDistinct(LogTrail(log))
  {
    if log != [] {
      var n := |log| - 1;
      assert log == log[..n] + [log[n]];
      UniqueKeysDistinctMarks(log[..n]);
      TrailAppend(log[..n], log[n]);
      var before, last := LogTrail(log[..n]), MarksOf(log[n]);
      if last != [] {
        KeyOfMeans(log[n], last[0].key);
        forall i | 0 <= i < |before| ensures before[i].key != last[0].key {
          var e := TrailMember(log[..n], before[i]);
          var k :| 0 <= k < n && log[k] == e;
          assert Carries(log[k], before[i].key);
        }
      }
    }
  }

  lemma {:induction false} SublistDistinct(a: seq<Mark>, b: seq<Mark>)
    requires SublistBy(Same, a, b) && MarksDistinct(b)
    ensures MarksDistinct(a)
  {
    if a != [] {
      assert MarksDistinct(b[1..]) by {
        forall i, j | 0 <= i < j < |b[1..]| ensures b[1..][i].key != b[1..][j].key {
          assert b[i + 1].key != b[j + 1].key;
        }
      }
      if Same(a[0], b[0]) && SublistBy(Same, a[1..], b[1..]) {
        SublistDistinct(a[1..], b[1..]);
        forall j | 0 < j < |a| ensures a[0].key != a[j].key {
          assert a[j] == a[1..][j - 1];
          SublistMember(a[1..], b[1..], a[j]);
          var k :| 0 <= k < |b[1..]| && b[1..][k] == a[j];
          assert b[0].key != b[k + 1].key;
        }
        forall i, j | 0 <= i < j < |a| ensures a[i].key != a[j].key {
          if i > 0 {
            assert a[1..][i - 1].key != a[1..][j - 1].key;
          }
        }
      } else {
        SublistDistinct(a, b[1..]);
      }
    }
  }

  lemma SettledIsPrefix(m: Machine)
    requires InFlight(m)
    ensures Settled(m) <= LogTrail(m.api.store.log)
  {
    if !m.phase.Idle? {
      InFlightTrail(m);
    }
  }

  /** Each key has at most one audit entry, and its source event is in the log and carries the key. */
  lemma AuditsAreGrounded(m: Machine)
    requires Inv(m)
    ensures MarksDistinct(AuditTrail(m.api.audit))
    ensures forall mark :: mark in AuditTrail(m.api.audit) ==>
              exists e :: e in m.api.store.log && e.eventId == mark.eventId && Carries(e, mark.key)
  {
    SettledIsPrefix(m);
    UniqueKeysDistinctMarks(m.api.store.log);
    assert MarksDistinct(Settled(m));
    SublistDistinct(AuditTrail(m.api.audit), Settled(m));
    forall mark | mark in AuditTrail(m.api.audit)
      ensures exists e :: e in m.api.store.log && e.eventId == mark.eventId && Carries(e, mark.key)
    {
      SublistMember(AuditTrail(m.api.audit), Settled(m), mark);
      assert mark in LogTrail(m.api.store.log);
      var e := TrailMember(m.api.store.log, mark);
    }
  }

  // ----- When log and audit log agree --------------------------------------------------------------

  /** What `POST /events` would append, but for ids and time. */
  function Proposed(r: Request): ChronicleEvent
    requires r.body.EventBody?
  {
    Stamp(EventDraft(r), "", "", 0)
  }

  /** The request's payload feeds no index, or only with records that validate. */
  predicate PayloadValidates(r: Request) {
    r.body.EventBody? ==> Validates(Proposed(r))
  }

  /** A commit whose append is not followed by its audit entry: a bad payload, or a crash in flight. */
  predicate CutsOff(m: Machine, a: Action) {
    match a
    case Start(r, now) => Begins(m, r, now) && !PayloadValidates(r)
    case Continue => false
    case Crash(_) => !m.phase.Idle?
  }

  ghost predicate NeverCutOff(m: Machine, actions: seq<Action>)
    decreases |actions|
  {
    actions == [] || (!CutsOff(m, actions[0]) && NeverCutOff(Step(m, actions[0]), actions[1..]))
  }

  lemma ValidatesAlike(e: ChronicleEvent, f: ChronicleEvent)
    requires e.eventType == f.eventType && e.payload == f.payload
    ensures Validates(e) <==> Validates(f)
  {
  }

  /** A new event keeps the log projectable exactly when the request's payload validates. */
  lemma NewEventProjects(s: Store, r: Request, now: nat)
    requires s.chronicleId.Some? && NewEvent(s, r, now).Success? && Project(s.log).Some?
    ensures Project(s.log + [NewEvent(s, r, now).value.0]).Some? <==> PayloadValidates(r)
  {
    var e := NewEvent(s, r, now).value.0;
    AppendProjects(s.log, e);
    if r.body.EventBody? {
      ValidatesAlike(e, Proposed(r));
    } else if r.body.DiffBody? {
      DiffValidates(s, r, now);
    } else {
      AssertionValidates(s, r, now);
    }
  }

  lemma AssertionValidates(s: Store, r: Request, now: nat)
    requires s.chronicleId.Some? && r.body.AssertionBody? && NewEvent(s, r, now).Success?
    ensures Validates(NewEvent(s, r, now).value.0)
  {
    assert NewEvent(s, r, now).value.0.eventType == ChronicleObjectRecorded;
  }

  lemma DiffValidates(s: Store, r: Request, now: nat)
    requires s.chronicleId.Some? && r.body.DiffBody? && NewEvent(s, r, now).Success?
    ensures Validates(NewEvent(s, r, now).value.0)
  {
    var e := NewEvent(s, r, now).value.0;
    DiffReadsBack(s, r, now);
    assert e.payload[KRde].fields[KRdeRecordId].Str?;
  }

  /** Once the rebuild of a commit in flight must fail, its audit entry is lost. */
  lemma {:induction false} DoomedLoses(m: Machine, actions: seq<Action>)
    requires m.phase.Appended? && RebuildsFirst(m.phase.request) && Project(m.api.store.log).None?
    requires Exec(m, actions).phase.Idle?
    ensures LossesOver(m, actions) > 0
    decreases |actions|
  {
    var a := actions[0];
    if a.Start? {
      assert Step(m, a) == m;
      DoomedLoses(m, actions[1..]);
    }
  }

  /** From a log that projects, a step that cuts nothing off keeps it so and loses nothing. */
  lemma CleanStep(m: Machine, a: Action)
    requires Project(m.api.store.log).Some? && !CutsOff(m, a)
    ensures Project(Step(m, a).api.store.log).Some? && Losses(m, a) == 0
  {
    match a
    case Start(r, now) =>
      if Begins(m, r, now) {
        NewEventProjects(m.api.store, r, now);
      }
    case Continue =>
    case Crash(_) =>
  }

  lemma {:induction false} CutOffLoses(m: Machine, actions: seq<Action>)
    requires Project(m.api.store.log).Some? && Exec(m, actions).phase.Idle?
    ensures LossesOver(m, actions) == 0 <==> NeverCutOff(m, actions)
    decreases |actions|
  {
    if actions != [] {
      var a := actions[0];
      if !CutsOff(m, a) {
        CleanStep(m, a);
        CutOffLoses(Step(m, a), actions[1..]);
      } else if a.Start? {
        NewEventProjects(m.api.store, a.request, a.now);
        DoomedLoses(Step(m, a), actions[1..]);
      }
    }
  }

  /**
   * From a log that projects, log and audit log agree entry by entry at the end of a run exactly when
   * no commit in flight met a crash and no `POST /events` was started with a payload that breaks the
   * index. Both can be told before each step.
   */
  lemma AuditsMatchLog(m: Machine, actions: seq<Action>)
    requires Inv(m) && m.phase.Idle? && AuditTrail(m.api.audit) == LogTrail(m.api.store.log)
    requires Project(m.api.store.log).Some? && Exec(m, actions).phase.Idle?
    ensures var end := Exec(m, actions);
            AuditTrail(end.api.audit) == LogTrail(end.api.store.log) <==> NeverCutOff(m, actions)
  {
    var end := Exec(m, actions);
    CrashTolerance(m, actions);
    SublistLength(Same, AuditTrail(end.api.audit), LogTrail(end.api.store.log));
    CutOffLoses(m, actions);
  }

  /**
   * Agreement fails without any crash: on a fresh chronicle, `POST /events` with a `context_added`
   * event and the payload `{"context": "x"}` raises, its event stays in the log unaudited, and a
   * retry is answered as an accepted duplicate.
   */
  lemma UnauditedWithoutCrash(title: string, r: Request, now: nat)
    requires r.body.EventBody? && r.body.eventType == ContextAdded && r.body.payload == map[KContext := Str("x")]
    ensures var s := ApiState(Initialized(EMPTY_STORE, title, now), []);
            var (t, outcome) := Commit(s, r, now);
            outcome == Raised(ProjectionFailed) && t.audit == [] && InLog(t.store.log, WriteKey(r))
            && Exec(Machine(s, Idle), [Start(r, now), Continue]) == Machine(t, Idle)
            && Commit(t, r, now).0 == t && Commit(t, r, now).1.Responded?
            && Commit(t, r, now).1.response.accepted && Commit(t, r, now).1.response.duplicate
  {
    InitialInv(title, now);
    InitializedConsistent(title, now);
    var s := ApiState(Initialized(EMPTY_STORE, title, now), []);
    FreshWrite(s, r, now);
    BadPayload(r);
    NewEventProjects(s.store, r, now);
    CommitBreaks(s, r, now);
    TwoSteps(s, r, now);
  }

  lemma BadPayload(r: Request)
    requires r.body.EventBody? && r.body.eventType == ContextAdded && r.body.payload == map[KContext := Str("x")]
    ensures !PayloadValidates(r)
  {
    assert !Fileable(Proposed(r));
  }

  /** A commit whose event cannot be projected raises unaudited, and its retry is a duplicate. */
  lemma CommitBreaks(s: ApiState, r: Request, now: nat)
    requires Writes(s, CommitCall(r, now)) && RebuildsFirst(r)
    requires Project(s.store.log + [NewEvent(s.store, r, now).value.0]).None?
    ensures var (t, outcome) := Commit(s, r, now);
            outcome == Raised(ProjectionFailed) && t.audit == s.audit && InLog(t.store.log, WriteKey(r))
            && Commit(t, r, now).0 == t && Commit(t, r, now).1.Responded?
            && Commit(t, r, now).1.response.accepted && Commit(t, r, now).1.response.duplicate
  {
    FirstWithMeans(s.store.log, WriteKey(r));
    WriteAppends(s, CommitCall(r, now));
    FirstWithMeans(Commit(s, r, now).0.store.log, WriteKey(r));
  }

  lemma TwoSteps(s: ApiState, r: Request, now: nat)
    requires Begins(Machine(s, Idle), r, now) && RebuildsFirst(r)
    requires Project(s.store.log + [NewEvent(s.store, r, now).value.0]).None?
    ensures Exec(Machine(s, Idle), [Start(r, now), Continue]) == Machine(Commit(s, r, now).0, Idle)
  {
    var m := Step(Machine(s, Idle), Start(r, now));
    assert Exec(m, [Continue]) == Exec(Step(m, Continue), []);
    assert [Start(r, now), Continue][1..] == [Continue];
  }

  lemma FreshWrite(s: ApiState, r: Request, now: nat)
    requires s.store.chronicleId.Some? && LogTrail(s.store.log) == [] && r.body.EventBody?
    ensures Writes(s, CommitCall(r, now)) && FirstWith(s.store.log, WriteKey(r)).None?
  {
    FirstWithMeans(s.store.log, WriteKey(r));
    if FirstWith(s.store.log, WriteKey(r)).Some? {
      var e := FirstWith(s.store.log, WriteKey(r)).value;
      KeyOfMeans(e, WriteKey(r));
      FlatMapMember(MarksOf, s.store.log, Mark(e.eventId, WriteKey(r)));
      assert false;
    }
  }

  /** A fresh chronicle with an empty audit log satisfies the invariant. */
  lemma InitialInv(title: string, now: nat)
    ensures var m := Machine(ApiState(Initialized(EMPTY_STORE, title, now), []), Idle);
            Inv(m) && AuditTrail(m.api.audit) == LogTrail(m.api.store.log) == []
  {
    InitializedConsistent(title, now);
    var e := FirstEvent(title, 0, now);
    assert Initialized(EMPTY_STORE, title, now).log == [] + [e];
    TrailAppend([], e);
  }
}
