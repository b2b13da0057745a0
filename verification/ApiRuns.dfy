/** Exactly-once: what a run of API calls leaves behind. */
module ApiRuns {
  import opened Wrappers
  import opened Records
  import opened IndexProjection
  import opened ChronicleStore
  import opened ApiAdapter

  type Key2 = (string, string)

  datatype ApiCall = PreviewCall(request: Request) | CommitCall(request: Request, now: nat)

  function Handle(s: ApiState, call: ApiCall): (ApiState, Outcome) {
    match call
    case PreviewCall(r) => (s, Preview(r))
    case CommitCall(r, now) => Commit(s, r, now)
  }

  function Run(s: ApiState, calls: seq<ApiCall>): (r: (ApiState, seq<Outcome>))
    ensures |r.1| == |calls|
    decreases |calls|
  {
    if calls == [] then (s, [])
    else
      var first := Handle(s, calls[0]);
      var rest := Run(first.0, calls[1..]);
      (rest.0, [first.1] + rest.1)
  }

  // ----- Keys in a log ----------------------------------------------------------------------------

  ghost predicate InLog(log: seq<ChronicleEvent>, key: Key2) {
    exists i :: 0 <= i < |log| && Carries(log[i], key)
  }

  /** No two events carry the same key. */
  ghost predicate KeysUnique(log: seq<ChronicleEvent>) {
    forall i, j, key: Key2 :: 0 <= i < j < |log| && Carries(log[i], key) ==> !Carries(log[j], key)
  }

  lemma {:induction false} FirstWithMeans(log: seq<ChronicleEvent>, key: Key2)
    ensures FirstWith(log, key).Some? <==> InLog(log, key)
    ensures FirstWith(log, key).Some? ==> FirstWith(log, key).value in log && Carries(FirstWith(log, key).value, key)
  {
    if log != [] {
      FirstWithMeans(log[1..], key);
      if InLog(log[1..], key) {
        var i :| 0 <= i < |log[1..]| && Carries(log[1..][i], key);
        assert Carries(log[i + 1], key);
      }
      if InLog(log, key) && !Carries(log[0], key) {
        var i :| 0 <= i < |log| && Carries(log[i], key);
        assert Carries(log[1..][i - 1], key);
      }
    }
  }

  lemma InLogAppend(log: seq<ChronicleEvent>, e: ChronicleEvent, key: Key2)
    ensures InLog(log + [e], key) <==> InLog(log, key) || Carries(e, key)
  {
    if InLog(log, key) {
      var i :| 0 <= i < |log| && Carries(log[i], key);
      assert (log + [e])[i] == log[i];
    }
    if Carries(e, key) {
      assert (log + [e])[|log|] == e;
    }
  }

  lemma UniqueAppend(log: seq<ChronicleEvent>, e: ChronicleEvent, key: Key2)
    requires KeysUnique(log) && !InLog(log, key)
    requires forall k: Key2 :: Carries(e, k) <==> k == key
    ensures KeysUnique(log + [e])
  {
    forall i, j, k: Key2 | 0 <= i < j < |log + [e]| && Carries((log + [e])[i], k) ensures !Carries((log + [e])[j], k) {
      assert i < |log|;
    }
  }

  // ----- One call ------------------------------------------------------------------------------------

  /** The commit of a new write that the service does not refuse. */
  ghost predicate Writes(s: ApiState, call: ApiCall) {
    call.CommitCall? && s.store.chronicleId.Some? && !InLog(s.store.log, WriteKey(call.request))
    && NewEvent(s.store, call.request, call.now).Success?
  }

  /** A call that is no new, unrefused write changes nothing at all. */
  lemma OthersChangeNothing(s: ApiState, call: ApiCall)
    requires !Writes(s, call)
    ensures Handle(s, call).0 == s
  {
    if call.CommitCall? {
      FirstWithMeans(s.store.log, WriteKey(call.request));
    }
  }

  /** A new write appends one event, which carries its key and no other. */
  lemma WriteAppends(s: ApiState, call: ApiCall)
    requires Writes(s, call)
    ensures var t, e := Handle(s, call).0, NewEvent(s.store, call.request, call.now).value.0;
            t.store.log == s.store.log + [e] && t.store.chronicleId == s.store.chronicleId
            && (forall key: Key2 :: Carries(e, key) <==> key == WriteKey(call.request))
            && (forall key: Key2 :: InLog(t.store.log, key) <==>
               InLog(s.store.log, key) || key == WriteKey(call.request))
            && (Handle(s, call).1 == Accept(call.request, e, false) || Handle(s, call).1 == Raised(ProjectionFailed))
  {
    var e := NewEvent(s.store, call.request, call.now).value.0;
    FirstWithMeans(s.store.log, WriteKey(call.request));
    NewEventCarries(s.store, call.request, call.now);
    forall key: Key2 | true
      ensures InLog(s.store.log + [e], key) <==> InLog(s.store.log, key) || key == WriteKey(call.request)
    {
      InLogAppend(s.store.log, e, key);
    }
  }

  /** Whether a call wrote can be told from its outcome. */
  predicate Persisted(call: ApiCall, outcome: Outcome) {
    call.CommitCall? &&
    match outcome
    case Responded(response) => response.accepted && !response.duplicate
    case Raised(error) => error == ProjectionFailed
  }

  lemma PersistedMeansWrites(s: ApiState, call: ApiCall)
    ensures Writes(s, call) <==> Persisted(call, Handle(s, call).1)
  {
    if call.CommitCall? {
      FirstWithMeans(s.store.log, WriteKey(call.request));
    }
  }

  /** However the client fills its payload, at most one event ever carries a key. */
  lemma {:induction false} KeysStayUnique(s: ApiState, calls: seq<ApiCall>)
    requires KeysUnique(s.store.log)
    ensures KeysUnique(Run(s, calls).0.store.log)
    decreases |calls|
  {
    if calls != [] {
      if Writes(s, calls[0]) {
        WriteAppends(s, calls[0]);
        var e := NewEvent(s.store, calls[0].request, calls[0].now).value.0;
        UniqueAppend(s.store.log, e, WriteKey(calls[0].request));
      } else {
        OthersChangeNothing(s, calls[0]);
      }
      KeysStayUnique(Handle(s, calls[0]).0, calls[1..]);
    }
  }

  // ----- Exactly once ------------------------------------------------------------------------------------

  /** Of each key, only the first call that persisted: no preview, refusal or repeat. */
  function FirstPerKey(calls: seq<ApiCall>, outcomes: seq<Outcome>, seen: set<Key2>): seq<ApiCall>
    requires |calls| == |outcomes|
  {
    if calls == [] then []
    else if Persisted(calls[0], outcomes[0]) && WriteKey(calls[0].request) !in seen then
      [calls[0]] + FirstPerKey(calls[1..], outcomes[1..], seen + {WriteKey(calls[0].request)})
    else FirstPerKey(calls[1..], outcomes[1..], seen)
  }

  /** `seen` are exactly the keys the log already carries. */
  ghost predicate Seen(log: seq<ChronicleEvent>, seen: set<Key2>) {
    forall key: Key2 :: key in seen <==> InLog(log, key)
  }

  /** The log has grown by one event per kept call, in order, each carrying its call's key. */
  ghost predicate OneEventEach(before: seq<ChronicleEvent>, after: seq<ChronicleEvent>, kept: seq<ApiCall>) {
    && |after| == |before| + |kept| && before <= after
    && (forall i :: 0 <= i < |kept| ==> Carries(after[|before| + i], WriteKey(kept[i].request)))
  }

  /** `calls` and its sublist `kept` run to the same state, with one event for each kept call. */
  ghost predicate KeptRun(s: ApiState, calls: seq<ApiCall>, kept: seq<ApiCall>) {
    Run(s, kept).0 == Run(s, calls).0 && OneEventEach(s.store.log, Run(s, calls).0.store.log, kept)
  }

  lemma WriteKept(s: ApiState, call: ApiCall, rest: seq<ApiCall>, more: seq<ApiCall>)
    requires Writes(s, call) && KeptRun(Handle(s, call).0, rest, more)
    ensures KeptRun(s, [call] + rest, [call] + more)
  {
    var after := Run(Handle(s, call).0, rest).0.store.log;
    RunCons(s, call, rest);
    RunCons(s, call, more);
    WriteAppends(s, call);
    OneMoreEvent(s.store.log, NewEvent(s.store, call.request, call.now).value.0, after, call, more);
  }

  /**
   * Exactly once: a run of previews and commits ends in the very state of the run that keeps,
   * of each endpoint and key, only the first commit that persisted, and keeps one event of each.
   */
  lemma {:induction false} ExactlyOnce(s: ApiState, calls: seq<ApiCall>, seen: set<Key2>)
    requires Seen(s.store.log, seen)
    ensures KeptRun(s, calls, FirstPerKey(calls, Run(s, calls).1, seen))
    decreases |calls|
  {
    if calls != [] {
      var call, rest := calls[0], calls[1..];
      var t := Handle(s, call).0;
      assert calls == [call] + rest;
      assert Run(s, calls).1[1..] == Run(t, rest).1;
      PersistedMeansWrites(s, call);
      if Writes(s, call) {
        WriteAppends(s, call);
        var key := WriteKey(call.request);
        var more := FirstPerKey(rest, Run(t, rest).1, seen + {key});
        ExactlyOnce(t, rest, seen + {key});
        WriteKept(s, call, rest, more);
        assert FirstPerKey(calls, Run(s, calls).1, seen) == [call] + more;
      } else {
        OthersChangeNothing(s, call);
        RunCons(s, call, rest);
        ExactlyOnce(s, rest, seen);
      }
    }
  }

  lemma RunCons(s: ApiState, call: ApiCall, more: seq<ApiCall>)
    ensures Run(s, [call] + more).0 == Run(Handle(s, call).0, more).0
  {
    assert ([call] + more)[1..] == more;
  }

  lemma OneMoreEvent(before: seq<ChronicleEvent>, e: ChronicleEvent, after: seq<ChronicleEvent>,
                     call: ApiCall, more: seq<ApiCall>)
    requires Carries(e, WriteKey(call.request)) && OneEventEach(before + [e], after, more)
    ensures OneEventEach(before, after, [call] + more)
  {
    var next := before + [e];
    assert after[|before|] == next[|before|];
    forall i | 0 <= i < |[call] + more| ensures Carries(after[|before| + i], WriteKey(([call] + more)[i].request)) {
      if i > 0 {
        assert Carries(after[|next| + (i - 1)], WriteKey(more[i - 1].request));
      }
    }
  }

  // ----- Repeats return the original ids --------------------------------------------------------------

  lemma {:induction false} FirstStays(s: ApiState, calls: seq<ApiCall>, key: Key2)
    requires FirstWith(s.store.log, key).Some?
    ensures FirstWith(Run(s, calls).0.store.log, key) == FirstWith(s.store.log, key)
    ensures Run(s, calls).0.store.chronicleId == s.store.chronicleId
    decreases |calls|
  {
    if calls != [] {
      var t := Handle(s, calls[0]).0;
      if Writes(s, calls[0]) {
        WriteAppends(s, calls[0]);
        FirstWithAppend(s.store.log, NewEvent(s.store, calls[0].request, calls[0].now).value.0, key);
      } else {
        OthersChangeNothing(s, calls[0]);
      }
      FirstStays(t, calls[1..], key);
    }
  }

  function OutcomeIds(o: Outcome): (Option<string>, Option<string>, Option<string>)
    requires o.Responded?
  {
    (o.response.eventId, o.response.rdeRecordId, o.response.assertionId)
  }

  /**
   * After a write, however the run goes on, a commit with the same endpoint and key answers as a
   * duplicate with the event id, and the RDE or assertion id, of the first answer.
   */
  lemma RepeatsReturnTheOriginal(s: ApiState, first: ApiCall, between: seq<ApiCall>, retry: ApiCall)
    requires Writes(s, first) && retry.CommitCall? && WriteKey(retry.request) == WriteKey(first.request)
    ensures var e := NewEvent(s.store, first.request, first.now).value.0;
            var later := Run(Handle(s, first).0, between).0;
            var again := Handle(later, retry);
            again.0 == later && again.1.Responded? && again.1.response.accepted && again.1.response.duplicate
            && OutcomeIds(again.1) == IdsFor(first.request, e)
            && (Handle(s, first).1.Responded? ==> OutcomeIds(again.1) == OutcomeIds(Handle(s, first).1))
  {
    var e, t := NewEvent(s.store, first.request, first.now).value.0, Handle(s, first).0;
    var key := WriteKey(first.request);
    WriteAppends(s, first);
    FirstWithMeans(s.store.log, key);
    FirstWithAppend(s.store.log, e, key);
    FirstStays(t, between, key);
    SameEndpointSameBody(first.request, retry.request);
  }

  lemma SameEndpointSameBody(r: Request, q: Request)
    requires Endpoint(r) == Endpoint(q)
    ensures r.body.EventBody? == q.body.EventBody? && r.body.DiffBody? == q.body.DiffBody?
  {
    assert Endpoint(r)[6] == (if r.body.EventBody? then 'e' else if r.body.DiffBody? then 'd' else 'a');
    assert Endpoint(q)[6] == (if q.body.EventBody? then 'e' else if q.body.DiffBody? then 'd' else 'a');
  }
}
