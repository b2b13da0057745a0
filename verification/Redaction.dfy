/** Opt-in redaction of sensitive records in derived exports. */
module Redaction {
  import opened Wrappers
  import opened Sequences
  import opened Records

  const REDACTED := "[REDACTED:sensitive]"

  /** The fields a redacted record loses. */
  const HIDDEN: seq<Key> := [KTitle, KSummary, KSource, KSourceRef, KSourceType, KPath, KTags]

  datatype Options = Options(redactSensitive: bool, excludeSensitive: bool)

  predicate IsSensitive(j: Json) {
    j == Str("sensitive")
  }

  function Get(m: Fields, k: Key): Json {
    if k in m then m[k] else Null
  }

  /** `visibility_hint`, or `visibility` when that is missing or falsy. */
  predicate DictIsSensitive(m: Fields) {
    IsSensitive(if Truthy(Get(m, KVisibilityHint)) then Get(m, KVisibilityHint) else Get(m, KVisibility))
  }

  function Redacted(m: Fields): Fields {
    map k | k in m :: if k in HIDDEN then Str(REDACTED) else m[k]
  }

  method RedactSensitiveDict(m: Fields) returns (r: Fields)
    ensures r == Redacted(m)
  {
    r := m;
    for i := 0 to |HIDDEN|
      invariant r.Keys == m.Keys
      invariant forall k :: k in m ==> r[k] == if k in HIDDEN[..i] then Str(REDACTED) else m[k]
    {
      assert HIDDEN[..i + 1] == HIDDEN[..i] + [HIDDEN[i]];
      if HIDDEN[i] in r {
        r := r[HIDDEN[i] := Str(REDACTED)];
      }
    }
    assert HIDDEN[..|HIDDEN|] == HIDDEN;
  }

  /** Two dictionaries that only differ in the values of hidden fields. */
  ghost predicate AlikeOutside(a: Fields, b: Fields) {
    a.Keys == b.Keys && forall k :: k in a && k !in HIDDEN ==> a[k] == b[k]
  }

  /** Redaction hides exactly the values of the hidden fields. */
  lemma RedactedHidesExactly(a: Fields, b: Fields)
    ensures Redacted(a) == Redacted(b) <==> AlikeOutside(a, b)
  {
    assert Redacted(a).Keys == a.Keys && Redacted(b).Keys == b.Keys;
    if Redacted(a) == Redacted(b) {
      forall k | k in a && k !in HIDDEN ensures a[k] == b[k] {
        assert Redacted(a)[k] == a[k] && Redacted(b)[k] == b[k];
      }
    }
  }

  lemma RedactedKeepsSensitivity(m: Fields)
    ensures DictIsSensitive(Redacted(m)) == DictIsSensitive(m)
    ensures Redacted(Redacted(m)) == Redacted(m)
  {
    assert Get(Redacted(m), KVisibilityHint) == Get(m, KVisibilityHint);
    assert Get(Redacted(m), KVisibility) == Get(m, KVisibility);
  }

  // ----- Records -------------------------------------------------------------------------------

  /** A dumped context or artifact under the options; `None` when it is excluded. */
  function TransformDump(dump: Fields, sensitive: bool, options: Options): Option<Fields> {
    if !sensitive then Some(dump)
    else if options.excludeSensitive then None
    else if options.redactSensitive then Some(Redacted(dump))
    else Some(dump)
  }

  // ----- Events ---------------------------------------------------------------------------------

  predicate SensitiveEntry(payload: Fields, k: Key) {
    k in payload && payload[k].Dict? && DictIsSensitive(payload[k].fields)
  }

  predicate SensitivePayload(payload: Fields) {
    SensitiveEntry(payload, KContext) || SensitiveEntry(payload, KArtifact)
  }

  function RedactEntry(payload: Fields, k: Key): Fields {
    if SensitiveEntry(payload, k) then payload[k := Dict(Redacted(payload[k].fields))] else payload
  }

  function RedactedEvent(e: ChronicleEvent): ChronicleEvent {
    if SensitivePayload(e.payload)
    then e.(summary := REDACTED, payload := RedactEntry(RedactEntry(e.payload, KContext), KArtifact))
    else e
  }

  function TransformEvent(e: ChronicleEvent, options: Options): Option<ChronicleEvent> {
    if SensitivePayload(e.payload) && options.excludeSensitive then None
    else if options.redactSensitive then Some(RedactedEvent(e))
    else Some(e)
  }

  /** The payload is overwritten entry by entry. */
  method TransformEventDump(e: ChronicleEvent, options: Options) returns (r: Option<ChronicleEvent>)
    ensures r == TransformEvent(e, options)
  {
    var sensitive := SensitivePayload(e.payload);
    if sensitive && options.excludeSensitive {
      return None;
    }
    var data := e;
    if sensitive && options.redactSensitive {
      var payload := e.payload;
      if SensitiveEntry(payload, KContext) {
        var redacted := RedactSensitiveDict(payload[KContext].fields);
        payload := payload[KContext := Dict(redacted)];
      }
      if SensitiveEntry(payload, KArtifact) {
        var redacted := RedactSensitiveDict(payload[KArtifact].fields);
        payload := payload[KArtifact := Dict(redacted)];
      }
      data := data.(summary := REDACTED, payload := payload);
    }
    r := Some(data);
  }

  // ----- What an observer can tell apart ----------------------------------------------------------

  /** Payload entries that are equal, or both sensitive and alike outside the hidden fields. */
  ghost predicate EntryAlike(p: Fields, q: Fields, k: Key) {
    (SensitiveEntry(p, k) <==> SensitiveEntry(q, k))
    && (if SensitiveEntry(p, k) then AlikeOutside(p[k].fields, q[k].fields) else Entry(p, k) == Entry(q, k))
  }

  /** The entry, or that there is none. */
  function Entry(m: Fields, k: Key): Option<Json> {
    if k in m then Some(m[k]) else None
  }

  ghost predicate EventAlike(e: ChronicleEvent, f: ChronicleEvent) {
    && e.(summary := "", payload := map[]) == f.(summary := "", payload := map[])
    && EntryAlike(e.payload, f.payload, KContext) && EntryAlike(e.payload, f.payload, KArtifact)
    && (forall k :: k != KContext && k != KArtifact ==> Entry(e.payload, k) == Entry(f.payload, k))
    && (SensitivePayload(e.payload) || e.summary == f.summary)
  }

  /** The entries of a redacted payload, one by one. */
  lemma RedactedEntries(p: Fields, k: Key)
    ensures var q := RedactEntry(RedactEntry(p, KContext), KArtifact);
            Entry(q, k) ==
              if (k == KContext || k == KArtifact) && SensitiveEntry(p, k)
              then Some(Dict(Redacted(p[k].fields))) else Entry(p, k)
  {
  }

  lemma RedactedEntryAlike(p: Fields, q: Fields, k: Key)
    requires k == KContext || k == KArtifact
    ensures var p', q' := RedactEntry(RedactEntry(p, KContext), KArtifact),
              RedactEntry(RedactEntry(q, KContext), KArtifact);
            Entry(p', k) == Entry(q', k) <==> EntryAlike(p, q, k)
  {
    RedactedEntries(p, k);
    RedactedEntries(q, k);
    if SensitiveEntry(p, k) {
      RedactedKeepsSensitivity(p[k].fields);
    }
    if SensitiveEntry(q, k) {
      RedactedKeepsSensitivity(q[k].fields);
    }
    if SensitiveEntry(p, k) && SensitiveEntry(q, k) {
      RedactedHidesExactly(p[k].fields, q[k].fields);
    }
  }

  lemma SamePayload(p: Fields, q: Fields)
    ensures p == q <==> forall k :: Entry(p, k) == Entry(q, k)
  {
    if forall k :: Entry(p, k) == Entry(q, k) {
      forall k | true ensures k in p <==> k in q {
        assert Entry(p, k) == Entry(q, k);
      }
      forall k | k in p ensures p[k] == q[k] {
        assert Entry(p, k) == Entry(q, k);
      }
      assert p.Keys == q.Keys;
    }
  }

  function RedactedPayload(p: Fields): Fields {
    RedactEntry(RedactEntry(p, KContext), KArtifact)
  }

  lemma PayloadAlike(p: Fields, q: Fields)
    ensures RedactedPayload(p) == RedactedPayload(q) <==>
              EntryAlike(p, q, KContext) && EntryAlike(p, q, KArtifact)
              && (forall k :: k != KContext && k != KArtifact ==> Entry(p, k) == Entry(q, k))
  {
    SamePayload(RedactedPayload(p), RedactedPayload(q));
    RedactedEntryAlike(p, q, KContext);
    RedactedEntryAlike(p, q, KArtifact);
    forall k | k != KContext && k != KArtifact
      ensures Entry(RedactedPayload(p), k) == Entry(p, k) && Entry(RedactedPayload(q), k) == Entry(q, k)
    {
      RedactedEntries(p, k);
      RedactedEntries(q, k);
    }
  }

  lemma InsensitivePayload(p: Fields)
    requires !SensitivePayload(p)
    ensures RedactedPayload(p) == p
  {
  }

  /** Two events look the same after redaction exactly when they differ in hidden material only. */
  lemma RedactedEventsAlike(e: ChronicleEvent, f: ChronicleEvent)
    ensures RedactedEvent(e) == RedactedEvent(f) <==> EventAlike(e, f)
  {
    PayloadAlike(e.payload, f.payload);
    if !SensitivePayload(e.payload) {
      InsensitivePayload(e.payload);
    }
    if !SensitivePayload(f.payload) {
      InsensitivePayload(f.payload);
    }
    assert RedactedEvent(e).payload == RedactedPayload(e.payload)
        && RedactedEvent(f).payload == RedactedPayload(f.payload);
    assert EventRest(RedactedEvent(e)) == EventRest(e) && EventRest(RedactedEvent(f)) == EventRest(f);
    SameEvent(RedactedEvent(e), RedactedEvent(f));
  }

  function EventRest(e: ChronicleEvent): ChronicleEvent {
    e.(summary := "", payload := map[])
  }

  lemma SameEvent(e: ChronicleEvent, f: ChronicleEvent)
    ensures e == f <==> EventRest(e) == EventRest(f) && e.summary == f.summary && e.payload == f.payload
  {
    assert e == EventRest(e).(summary := e.summary, payload := e.payload);
    assert f == EventRest(f).(summary := f.summary, payload := f.payload);
  }

  lemma RedactedStays(p: Fields, k: Key)
    requires k == KContext || k == KArtifact
    ensures RedactEntry(RedactedPayload(p), k) == RedactedPayload(p)
    ensures SensitiveEntry(RedactedPayload(p), k) <==> SensitiveEntry(p, k)
  {
    RedactedEntries(p, k);
    if SensitiveEntry(p, k) {
      RedactedKeepsSensitivity(p[k].fields);
    }
  }

  /** Redacting twice is redacting once. */
  lemma RedactionIdempotent(e: ChronicleEvent)
    ensures RedactedEvent(RedactedEvent(e)) == RedactedEvent(e)
  {
    var r := RedactedEvent(e);
    if !SensitivePayload(e.payload) {
      InsensitivePayload(e.payload);
    }
    assert r.payload == RedactedPayload(e.payload);
    RedactedStays(e.payload, KContext);
    RedactedStays(e.payload, KArtifact);
  }
}
