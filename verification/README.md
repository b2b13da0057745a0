# Chronicle Stack: a verified model

Chronicle Stack keeps one append-only event log per chronicle and derives everything else from it:
indexes, graph exports, redacted exports and federation packages. This project models those parts in
Dafny and proves what they promise over every input, every run and every interleaving. Run
`dafny verify dfyconfig.toml` to verify all of it.

The modules follow the program:

* `Lifecycle` folds the lifecycle log into one state per target. `GraphExport` says what the graph
  export is; `GraphExporter` holds the export loops and proves them equal to it. `GraphContents`,
  `GraphLaws`, `GraphMonotone` and `GraphOrder` prove what a whole export contains, what it never
  contains, how it reacts to more lifecycle entries, and that it does not depend on input order.
* `IndexProjection` is the index builder, and `IndexBreakage` says which events break a rebuild and for
  how long. `ChronicleStore` is the log with its stored index, `ArtifactServices` and `ContextServices`
  the two services over it. `ServiceRuns`, `ContextRuns` and `ArtifactRuns` prove properties of every run
  of their calls.
* `ApiAdapter` holds the three idempotent commit endpoints; `ApiRuns` proves exactly-once behaviour over
  runs, `ApiCrash` splits a commit into append, rebuild and audit with crashes in between, and `ApiReads`
  proves the read loops.
* `FederationPackage` creates and verifies packages; `FederationLaws` proves the round trip, tamper
  detection and the previews.
* `GraphRecorded`, `ApiRecorded` and `FederationRecorded` say what the graph export, an API write and a
  created package hold, key by key and field by field, in terms of the stored or requested data alone.
* `Redaction` and `YamlExport` are the redacting exporter, `TokenFile` the daemon credential file as a
  protocol of interleaved steps, `GraphIndex` the file-backed graph index.
* `Sequences`, `Ordering`, `Wrappers`, `Records` and `Ids` hold lists and their permutations, stable
  sorting by a key, results, the records with their dictionary form, and generated ids.

Conventions. A payload is a map from keys to JSON-like values. Every generated id is the prefix of its
kind followed by a number that is never used again. Clocks are natural numbers passed to each call. An
exception is a `Failure` or a missing result. Where the program updates something in place, the model is
a class whose methods are proved against a function of the old state; the laws are proved about that
function.

Where documentation and code differ, the model follows the code: the API adapter's module description
says that committed writes are not enabled, and the code commits. Four more points are easy to miss. The
YAML export omits tombstoned contexts, artifacts and events, but not decisions and boundary rules. An
event's lifecycle targets do not include its `context_ids` field. The signature of a package covers
neither the consent block nor, in effect, its own status: a manifest marked unsigned is accepted before
anything else is looked at. The extra payload of `update` and `update_context` is merged last and can
replace the very records the call stores: it can fork a version chain (`ArtifactRuns.ForkedChain`),
drop a classification (`ContextRuns.DroppedClassification`) or leave a stale index
(`ServiceRuns.StaleIndex`).
`ArtifactRuns.UpdateContinuesChain`, `ContextRuns.StepClassification`, `ServiceRuns.UpdateReadsBack` and
`ServiceRuns.StepConsistency` say exactly when it does not matter.

## Model

| member | source | states |
|---|---|---|
| Lifecycle.LifecycleStateByTarget | src/chronicle/lifecycle/derived_output_policy.py:31-42 | the loop over the log computes, for each target, the set of its actions |
| Lifecycle.StatesOfAppend | src/chronicle/lifecycle/derived_output_policy.py:31-42 | the fold is a homomorphism: states of two logs in a row are the pointwise union of both |
| Lifecycle.StatesAreMarks | src/chronicle/lifecycle/derived_output_policy.py:31-42 | two logs fold to equal states exactly when they hold the same (target, action) pairs, so order and repetition do not matter and nothing else is forgotten |
| Lifecycle.TombstonedMeans | src/chronicle/lifecycle/derived_output_policy.py:19-52 | tombstoned exactly when the log holds a tombstone or hard delete of the target, sealed exactly when it holds a seal |
| Lifecycle.EventLifecycleTargetIds | src/chronicle/lifecycle/derived_output_policy.py:62-87 | the ids an event names, from the payload containers, id keys, id lists and, on request, its own fields |
| Lifecycle.TargetIdsMean | src/chronicle/lifecycle/derived_output_policy.py:62-87 | an event names an id exactly in these places: four containers with four id keys each, five payload keys, and its three id fields on request |
| Lifecycle.EventReferencesTombstonedTarget | src/chronicle/lifecycle/derived_output_policy.py:90-100 | true exactly when one of those ids is tombstoned |
| Lifecycle.CountSealedTargets | src/chronicle/lifecycle/derived_output_policy.py:103-105 | counts the sealed occurrences among the given ids |
| Lifecycle.MarkSealedWarning | src/chronicle/lifecycle/derived_output_policy.py:108-120 | a sealed record gains the one warning at the end unless it has it, every other field is kept, any other record is untouched |
| GraphExporter.VisibleRecords | src/chronicle/services/graph_export_service.py:48-80 | keeps, in order, the events that reference no tombstoned target and the records that are not tombstoned |
| GraphExporter.EventPart | src/chronicle/services/graph_export_service.py:115-158 | the event loop emits each visible event's node, with the seal metadata of any target it names, and its edges; it raises exactly when a recorded plan is unreadable |
| GraphExporter.OneEventEdges | src/chronicle/services/graph_export_service.py:124-158 | the five conditional edge blocks of one event |
| GraphExporter.ContextPart | src/chronicle/services/graph_export_service.py:160-178 | context and source nodes with their edge |
| GraphExporter.VersionPart | src/chronicle/services/graph_export_service.py:188-205 | versions with a hidden source event are skipped, the others give a node and two edges |
| GraphExporter.ArtifactPart | src/chronicle/services/graph_export_service.py:180-205 | artifact nodes, each followed by its shown versions |
| GraphExporter.DecisionPart | src/chronicle/services/graph_export_service.py:207-220 | decision nodes, and an edge to a visible source event |
| GraphExporter.PlanPart | src/chronicle/services/graph_export_service.py:232-269 | plan nodes, and for each section the edges to visible contexts |
| GraphExporter.BuildNotes | src/chronicle/services/graph_export_service.py:281-289 | the manifest notes with the three counts, each only when non-zero |
| GraphExporter.ExportGraph | src/chronicle/services/graph_export_service.py:39-298 | the whole imperative export equals the declarative one: raw nodes and edges, sorted nodes, endpoint filter, sorted edges, notes |
| GraphMonotone.ExportAntitone | src/chronicle/services/graph_export_service.py:48-279 | more lifecycle entries never add a node or edge: remaining nodes are a sub-list up to the seal warning, remaining edges a sub-list, id sets shrink |
| GraphMonotone.TombstonesDelete | src/chronicle/services/graph_export_service.py:48-279 | without new seals the new export is a sub-list of the old one by value |
| GraphMonotone.SealsAnnotate | src/chronicle/services/graph_export_service.py:116-124 | entries that tombstone nothing keep all edges and change nodes in the seal warning only |
| GraphMonotone.RedactAndExpireAreInvisible | src/chronicle/services/graph_export_service.py:39-298 | redactions and expiries leave nodes, edges and notes identical |
| GraphContents.NodeIdAmbiguity | src/chronicle/services/graph_export_service.py:25-26 | two (kind, id) pairs share a node id exactly when they are equal or an artifact id starts like a version's node id |
| GraphContents.ExportedNodes | src/chronicle/services/graph_export_service.py:103-272 | a node is exported exactly when it has a visible origin, kind by kind |
| GraphContents.RawEdgeOrigin | src/chronicle/services/graph_export_service.py:124-269 | an edge is built exactly when its kind's condition on visible records holds |
| GraphLaws.EndpointFilterIsExact | src/chronicle/services/graph_export_service.py:273-278 | the endpoint filter drops exactly the RDE edges and the source edges of versions without a source event, up to the one ambiguous id spelling; every exported edge has both ends |
| GraphLaws.RecordNodesAreUntouched | src/chronicle/services/graph_export_service.py:57-76 | no context, source, artifact, decision or rule node stands for a tombstoned record |
| GraphLaws.EventNodesAreUntouched | src/chronicle/services/graph_export_service.py:48-56 | event and plan nodes come from events that name no tombstoned target |
| GraphLaws.VersionNodesAreUntouched | src/chronicle/services/graph_export_service.py:181-196 | a version node belongs to a visible artifact and to no hidden source event |
| GraphLaws.EdgesAreUntouched | src/chronicle/services/graph_export_service.py:124-278 | both ends of every exported edge are exported nodes, and neither stands for a tombstoned record |
| GraphLaws.HiddenEventsAreUntouched | src/chronicle/services/graph_export_service.py:48-56 | no edge touches the node id of an event all of whose namesakes are hidden |
| GraphLaws.TombstonedIdTouched | src/chronicle/services/graph_export_service.py:25-26 | some edge touches the node id of a tombstoned record exactly when it is an artifact whose id is `version_` and the id of an exported version |
| GraphLaws.TombstonedIdExample | src/chronicle/services/graph_export_service.py:188-205 | a chronicle in which that happens to a tombstoned artifact |
| GraphLaws.NodeIdsIdentify | src/chronicle/services/graph_export_service.py:25-26 | with artifact ids prefixed as generated, an exported node id names one node |
| GraphLaws.CountsAreConserved | src/chronicle/services/graph_export_service.py:82-92 | the counts computed by subtraction are the numbers of tombstoned records and of hidden events |
| GraphRecorded.PlanEdgesAsRecorded | src/chronicle/services/graph_export_service.py:232-269 | over the payload itself: a plan edge is exported exactly when a visible plan event lists its context under `selected`, `warned` or `excluded` and the context is visible; a warning edge carries that entry's warnings |
| GraphRecorded.PlanNodesAsRecorded | src/chronicle/services/graph_export_service.py:232-241 | a plan node is exported exactly when a visible event records a plan with this id, and its title is the plan's task |
| GraphRecorded.ExportFails | src/chronicle/services/graph_export_service.py:232-269 | the export raises exactly when some visible plan event has a payload without the shape of a plan |
| GraphRecorded.NodesAsStored | src/chronicle/services/graph_export_service.py:103-241 | the exported nodes, field by field: id, type, title, summary and metadata come from one visible record, seal warning included, and every visible record has its node |
| GraphRecorded.EdgesAsStored | src/chronicle/services/graph_export_service.py:124-278 | the exported edges are exactly those that link, by type name and ends, what visible records say belongs together; RDE edges never appear |
| GraphRecorded.ExportInOrder | src/chronicle/services/graph_export_service.py:272-279 | nodes come sorted by type name and source id, edges by type name and ends |
| GraphRecorded.NotesAsCounted | src/chronicle/services/graph_export_service.py:281-289 | the notes count the tombstoned records, the hidden events and the sealed visible records, in this order, each only when not zero |
| GraphOrder.ExportOrderIndependent | src/chronicle/services/graph_export_service.py:115-279 | permuting events, index entries and version lists leaves the whole export as it was, when ids identify records |
| GraphOrder.PlanOrderShows | src/chronicle/services/graph_export_service.py:232-272 | without identifying ids it fails: two events that record one plan id with different tasks give different exports in their two orders |
| Ordering.SortStable | src/chronicle/services/graph_export_service.py:272-279 | the sort keeps the order of elements with equal keys |
| Ordering.SortDecidedByKey | src/chronicle/services/graph_export_service.py:272-279 | lists that agree within each key sort to the same list |
| Ordering.TupleLeqMeans | src/chronicle/services/graph_export_service.py:272-279 | keys compare component by component, the first different one decides |
| Ordering.StringLeqMeans | src/chronicle/services/graph_export_service.py:272-279 | strings compare by their first different character, a prefix comes first |
| Ids.FreshIdInjective | src/chronicle/ids.py:5-31 | within a kind, two generated ids are equal only for the same number |
| Ids.GeneratedPrefixes | src/chronicle/ids.py:5-31 | the prefix of each kind of generated id |
| Records.ContextRoundTrip | src/chronicle/models/context.py:54-77 | a context is read back from its dump unchanged |
| Records.ContextDefaults | src/chronicle/models/context.py:54-68 | the context that a payload with an id, a title and a time alone stands for |
| Records.ContextScopeFromHint | src/chronicle/models/context.py:69-77 | a payload without a scope takes it from the older scope hint, and from nowhere else |
| Records.ArtifactDefaults | src/chronicle/models/artifact.py:38-51 | the optional fields of an artifact and their defaults |
| Records.VersionDefaults | src/chronicle/models/artifact.py:54-63 | the optional fields of a version and their defaults |
| Records.DecisionRoundTrip | src/chronicle/models/decision.py:20-30 | a decision is read from the fields of the same names |
| Records.BoundaryRuleRoundTrip | src/chronicle/models/boundary.py:38-47 | a rule is read from the fields of the same names, its value a string or a list of strings |
| Records.NestedDefaults | src/chronicle/models/classification.py:115-123 | a classification without fields is internal, in both layer and sensitivity |
| Records.EventTypeRoundTrip | src/chronicle/models/event.py:13-32 | event types and their names correspond |
| Records.TruthyMeans | src/chronicle/exporters/redaction.py:69-71 | the falsy values are null, false, zero and everything empty |
| IndexProjection.Build | src/chronicle/services/index_projection_builder.py:20-25 | one pass over the log, then validation, equals the fold; it raises exactly when the fold or the validation fails |
| IndexProjection.FoldMeaning | src/chronicle/services/index_projection_builder.py:38-82 | per kind and id the fold holds the last record the log files and nothing else, and all versions in log order |
| IndexProjection.LastSnapshotWins | src/chronicle/services/index_projection_builder.py:56-57 | a context is indexed exactly when the log holds a snapshot of it, and it is the last one |
| IndexProjection.AppendSnapshot | src/chronicle/services/index_projection_builder.py:38-57 | one more snapshot replaces one context or, when it does not validate, makes the next rebuild raise |
| IndexProjection.AppendArtifact | src/chronicle/services/index_projection_builder.py:59-74 | one more artifact event replaces the artifact and appends the version or, when either does not validate, makes the next rebuild raise |
| IndexProjection.IndexOwnIds | src/chronicle/services/index_projection_builder.py:56-101 | every record and version sits under its own id |
| IndexBreakage.ProjectsExactly | src/chronicle/services/index_projection_builder.py:20-100 | a rebuild succeeds exactly when every record has a usable id, every version validates, and of every other kind the last record of each id validates |
| IndexBreakage.AppendProjects | src/chronicle/services/index_projection_builder.py:38-94 | after one more event a rebuild succeeds exactly when the records of that event validate |
| IndexBreakage.BrokenForGoodMeans | src/chronicle/services/index_projection_builder.py:56-100 | no extension of the log can be rebuilt exactly when it holds a record without a usable id or an invalid version; anything else is repaired by later records |
| IndexBreakage.BareSnapshotRepaired | src/chronicle/services/index_projection_builder.py:56-57 | a snapshot with nothing but a context id breaks the next rebuild, and the next valid snapshot of the id undoes that without a trace |
| ChronicleStore.ChronicleService.Init | src/chronicle/services/chronicle_service.py:39-77 | a new chronicle id, one creation event, a rebuilt index |
| ChronicleStore.ChronicleService.RecordEvent | src/chronicle/services/chronicle_service.py:85-107 | appends one event with a new id, or refuses without a chronicle |
| ChronicleStore.ChronicleService.RebuildIndexes | src/chronicle/services/chronicle_service.py:136-143 | stores the projection of the whole log, or raises and stores nothing |
| ChronicleStore.InitializedConsistent | src/chronicle/services/chronicle_service.py:39-77 | after initialization the stored index is the fold of the log, and empty |
| ArtifactServices.ArtifactService.Create | src/chronicle/services/artifact_service.py:19-79 | the whole new state and result of `create`, errors included |
| ArtifactServices.ArtifactService.Update | src/chronicle/services/artifact_service.py:81-143 | the whole new state and result of `update`, errors included |
| ArtifactServices.ArtifactService.ReadHistory | src/chronicle/services/artifact_service.py:145-154 | the artifact with its versions stably sorted by time |
| ArtifactServices.HistoryInOrder | src/chronicle/services/artifact_service.py:145-154 | whatever the clock did, the sorted history keeps every version, is oldest first and leaves versions of one time in their order; sorting changes nothing exactly when times never decrease |
| ContextServices.ContextService.Add | src/chronicle/services/context_service.py:21-57 | the whole new state and result of `add_context` |
| ContextServices.ContextService.Classify | src/chronicle/services/context_service.py:59-105 | the whole new state and result of `classify_context` |
| ContextServices.ContextService.Get | src/chronicle/services/context_service.py:117-124 | rebuilds, then returns the indexed context or not-found |
| ContextServices.ContextService.Update | src/chronicle/services/context_service.py:126-168 | the whole new state and result of `update_context` |
| ServiceRuns.StepRefinesLog | src/chronicle/services/chronicle_service.py:85-143 | whatever the store and the call, the log grows by a suffix; a call that returns leaves the index equal to the fold of the log, and one that raises before its append leaves the log alone |
| ServiceRuns.StepConsistency | src/chronicle/services/context_service.py:139-168 | from a consistent store, the index equals the fold of the log afterwards exactly when the extra payload of an update that reaches its append can be filed; otherwise the call raises, its event stays and the index is stale |
| ServiceRuns.RunsRefineLog | src/chronicle/services/artifact_service.py:95-143 | over every run whose extra payloads can be filed the stored index is the fold of the log |
| ServiceRuns.StaleIndex | src/chronicle/services/context_service.py:139-168 | the extra payload `{"context": "x"}` leaves a stale index behind, and the context can be neither read nor classified any more |
| ServiceRuns.LogOnlyGrows | src/chronicle/services/chronicle_service.py:109-117 | over any run the log before is a prefix of the log after |
| ServiceRuns.GetReturnsLastSnapshot | src/chronicle/services/context_service.py:117-124 | reading a context returns its last snapshot in the log, and not-found exactly when there is none |
| ServiceRuns.UpdateReadsBack | src/chronicle/services/context_service.py:139-168 | a read returns what `update_context` returned exactly when the extra payload does not replace the snapshot by a different one |
| ArtifactRuns.ChainsOverRuns | src/chronicle/services/artifact_service.py:19-143 | over every run whose updates file the artifact and version they built, with any clock, each artifact's versions form one linked chain: first without parent, each later one parented by its predecessor, current version last, each carried by its source event, files present, identity fields fixed |
| ArtifactRuns.PlainPayloads | src/chronicle/services/artifact_service.py:133-137 | runs without an artifact, a version or a context in any extra payload are such runs |
| ArtifactRuns.UpdateContinuesChain | src/chronicle/services/artifact_service.py:95-143 | for every extra payload that can be filed, the exact condition on the filed artifact and version under which the chain of the updated artifact still holds |
| ArtifactRuns.OneRecordBreaksChain | src/chronicle/services/artifact_service.py:133-137 | with an artifact or a version, but not both, in the extra payload, and the new version id not foreseen in it, the chain holds exactly when the payload has neither |
| ArtifactRuns.ForkedChain | src/chronicle/services/artifact_service.py:95-143 | an update with the artifact as it was in its extra payload succeeds, and the next update gives a second version with the same parent |
| ArtifactRuns.HistoryIsTheChain | src/chronicle/services/artifact_service.py:145-154 | after such a run whose clock never ran backwards `history` returns each artifact's whole chain as it was linked |
| ArtifactRuns.InitialInv | src/chronicle/services/chronicle_service.py:39-77 | a freshly initialized chronicle satisfies the run invariant and the clock condition |
| ArtifactRuns.UpdateIsIndexed | src/chronicle/services/artifact_service.py:95-143 | the index holds what `update` returned exactly when the extra payload replaces neither record by another |
| ArtifactRuns.CreateEffect | src/chronicle/services/artifact_service.py:30-79 | one new artifact with the requested fields and its single parentless version, nothing else written |
| ArtifactRuns.UpdateEffect | src/chronicle/services/artifact_service.py:95-143 | unless the extra payload puts another artifact or version in place: one more version on top of the current one; of the artifact only title, version and time move |
| ArtifactRuns.CreateWritesContent | src/chronicle/services/artifact_service.py:19-79 | inline text, the text of a given file or, without content, the empty text is in `current.md` and in the version's file afterwards, and all other files are as before |
| ArtifactRuns.UpdateWritesContent | src/chronicle/services/artifact_service.py:95-143 | the same for an update, which has no empty default |
| ArtifactRuns.MissingFileWritesNothing | src/chronicle/services/artifact_service.py:19-143 | a given file that does not exist, and an update without content, fail and write nothing |
| ArtifactRuns.CreateNamesAuthor | src/chronicle/services/artifact_service.py:30-79 | the version names the actor and the one event appended |
| ArtifactRuns.UpdateNamesAuthor | src/chronicle/services/artifact_service.py:95-143 | the same for an update |
| ArtifactRuns.PairRecorded | src/chronicle/services/artifact_service.py:60-143 | the event of each call carries exactly the artifact and the version, and on an update the extra payload |
| ArtifactServices.BlankMeans | src/chronicle/services/artifact_service.py:118 | a title that strips to nothing is one of whitespace only |
| ContextRuns.ClassificationSurvives | src/chronicle/services/context_service.py:74-168 | throughout a run whose extra payloads can be filed, with any clock, a context has the classification of its last `classify_context` exactly when no edit files a snapshot of it with another classification |
| ContextRuns.StepClassification | src/chronicle/services/context_service.py:74-168 | the same condition for one call, whatever its extra payload |
| ContextRuns.DroppedClassification | src/chronicle/services/context_service.py:139-168 | an edit with the unclassified context in its extra payload drops the classification, and returns the context with it |
| ContextRuns.AddedIsKnown | src/chronicle/services/context_service.py:21-57 | an added context satisfies what these runs start from |
| ContextRuns.UpdateThenGet | src/chronicle/services/context_service.py:139-168 | a read after an update shows each given field and keeps every other one, unless the extra payload puts another snapshot in place |
| ContextRuns.ClassifyThenGet | src/chronicle/services/context_service.py:74-105 | a read after a classification shows it, and at most one more tag |
| ContextRuns.AddThenGet | src/chronicle/services/context_service.py:21-57 | a read after `add_context` shows every requested field, the visibility hint among them |
| ContextRuns.ContextEvents | src/chronicle/services/context_service.py:41-168 | which event each of the three calls appends: type, actor, summary, context, source |
| ApiAdapter.ApiAdapterService.FindDuplicateApiEvent | src/chronicle/services/api_adapter_service.py:434-449 | the scan returns the first event carrying this endpoint and key, if any |
| ApiAdapter.ApiAdapterService.CommitEventWrite | src/chronicle/services/api_adapter_service.py:51-128 | the whole new log, audit log and response of `commit_event_write` |
| ApiAdapter.ApiAdapterService.RecordRde | src/chronicle/services/rde_service.py:27-92 | appends exactly one event carrying the record and the API metadata, or fails and appends nothing |
| ApiAdapter.ApiAdapterService.CommitDiffWrite | src/chronicle/services/api_adapter_service.py:133-216 | the whole new log, audit log and response of `commit_diff_write`, finding the new event again by its key |
| ApiAdapter.ApiAdapterService.CommitAssertionWrite | src/chronicle/services/api_adapter_service.py:221-328 | the whole new log, audit log and response of `commit_assertion_write` |
| ApiAdapter.ApiAdapterService.PreviewWrite | src/chronicle/services/api_adapter_service.py:398-432 | a preview never writes and is accepted exactly for dry runs |
| ApiAdapter.NewEventCarries | src/chronicle/services/api_adapter_service.py:70-90 | a new event carries its own endpoint and key and no other, whatever `api` payload the client sent |
| ApiAdapter.EventWriteKeepsRequest | src/chronicle/services/api_adapter_service.py:82-105 | the event holds the request as sent, but for the `api` entry |
| ApiAdapter.DiffReadsBack | src/chronicle/services/api_adapter_service.py:156-190 | the recorded diff is read back from its event with every field |
| ApiAdapter.AssertionReadsBack | src/chronicle/services/api_adapter_service.py:244-300 | the recorded assertion's id, statement and source event are read back from its event |
| ApiRecorded.DiffOutcome | src/chronicle/services/rde_service.py:42-52 | a diff with an unused key is accepted exactly when its artifact is indexed and both versions have a file; otherwise it raises for the first missing one and changes nothing |
| ApiRecorded.DiffRecordedInFull | src/chronicle/services/api_adapter_service.py:133-216 | the event, audit entry and response of an accepted diff, key by key and field by field |
| ApiRecorded.EventRecordedInFull | src/chronicle/services/api_adapter_service.py:51-128 | the event, audit entry and response of a `POST /events`, or the failing rebuild that leaves the event unaudited |
| ApiRecorded.AssertionRecordedInFull | src/chronicle/services/api_adapter_service.py:221-328 | the event with its chronicle object, the audit entry and the response of an assertion |
| ApiRecorded.PreviewAnswers | src/chronicle/services/api_adapter_service.py:398-432 | the answers to a dry run and to anything else, with the review notice for whatever is not reviewed |
| ApiRuns.WriteAppends | src/chronicle/services/api_adapter_service.py:51-328 | a new write appends one event, and exactly one key becomes known |
| ApiRuns.OthersChangeNothing | src/chronicle/services/api_adapter_service.py:51-328 | previews, refusals and repeats leave log, index, audit log and counter as they were |
| ApiRuns.KeysStayUnique | src/chronicle/services/api_adapter_service.py:434-449 | over every run at most one event carries each (endpoint, key) |
| ApiRuns.ExactlyOnce | src/chronicle/services/api_adapter_service.py:51-328 | a run ends in the state of the run that keeps only the first persisted commit per (endpoint, key), with one event for each of those, in order |
| ApiRuns.RepeatsReturnTheOriginal | src/chronicle/services/api_adapter_service.py:51-328 | every later repeat answers as a duplicate with the original event id and assertion or RDE id, and changes nothing |
| ApiCrash.StepsRefineCommit | src/chronicle/services/api_adapter_service.py:82-128 | undisturbed, append, rebuild and audit are the commit call |
| ApiCrash.CrashKeepsLogs | src/chronicle/services/api_adapter_service.py:82-115 | a crash may leave any index and forgets the commit in flight, but keeps log and audit log |
| ApiCrash.CrashTolerance | src/chronicle/services/api_adapter_service.py:82-115 | with crashes anywhere and any retries the audit log is a sub-list of the log's writes, and what it misses is exactly the commits that ended between append and audit |
| ApiCrash.AuditsAreGrounded | src/chronicle/services/api_adapter_service.py:106-115 | at most one audit entry per key, and its source event is in the log and carries the key |
| ApiCrash.NewEventProjects | src/chronicle/services/api_adapter_service.py:82-98 | from a log that projects, a commit's event keeps it so exactly when a `POST /events` payload validates; diffs and assertions always do |
| ApiCrash.AuditsMatchLog | src/chronicle/services/api_adapter_service.py:82-115 | from a log that projects, log and audit log agree entry by entry after a run exactly when no crash met a commit in flight and no `POST /events` was started with a payload that does not validate |
| ApiCrash.UnauditedWithoutCrash | src/chronicle/services/api_adapter_service.py:82-99 | without any crash the payload `{"context": "x"}` of a `context_added` event leaves an unaudited event, and retries are accepted as duplicates |
| ApiCrash.InitialInv | src/chronicle/services/chronicle_service.py:39-77 | a fresh chronicle satisfies the crash invariant |
| ApiReads.GetTimeline | src/chronicle/services/api_adapter_service.py:358-378 | the first `limit` matching events, in log order |
| ApiReads.TimelineRows | src/chronicle/services/api_adapter_service.py:358-378 | the rows stand for events at ascending places of the log, each matching every given selector, and no matching event before the last one taken is passed over; a row is its event, with its payload if wanted |
| ApiReads.GetContexts | src/chronicle/services/api_adapter_service.py:330-356 | the rows of the `limit` smallest wanted ids; with ids requested, the warning is given exactly when the returned ids are not the requested set |
| ApiReads.ContextRowMeans | src/chronicle/services/api_adapter_service.py:330-356 | a row is the whole context, without its source reference unless payloads are wanted |
| ApiReads.SmallestUnique | src/chronicle/services/api_adapter_service.py:330-356 | only one list is the `limit` smallest ids in order |
| ApiReads.Unresolved | src/chronicle/services/api_adapter_service.py:346-356 | counting distinct rows decides whether every requested id was found |
| FederationPackage.MappingMeans | src/chronicle/services/federation_package_service.py:412-479 | which layer or hint leads to which recommended visibility, in both directions |
| FederationPackage.RaisedLayerWidens | src/chronicle/services/federation_package_service.py:412-479 | raising a record's layer widens its recommendation exactly when it had none, or layer 0, and a private hint meets layers 1 to 3 or a sensitive hint layers 1 to 2 |
| FederationPackage.RecommendedVisibility | src/chronicle/services/federation_package_service.py:548-553 | a lowest-ranked recommendation, or federated for no records |
| FederationPackage.BroaderThanRecommended | src/chronicle/services/federation_package_service.py:302-317 | for a non-empty list the test against the minimum equals creation's test on each record |
| FederationPackage.EmptyListDisagreement | src/chronicle/services/federation_package_service.py:92-104 | on no records creation never warns and the boundary check does so for public only |
| FederationPackage.WarningFreeIsDownwardClosed | src/chronicle/services/federation_package_service.py:92-104 | lowering the visibility never brings the warning back |
| FederationPackage.ConcatenationUnambiguous | src/chronicle/services/federation_package_service.py:641-677 | key and payload can be told apart in their concatenation although one key is a prefix of the other |
| FederationPackage.VerifyPackage | src/chronicle/services/federation_package_service.py:202-233 | valid exactly when every listed file is intact and the signature status allows it; a missing or unreadable manifest is an error |
| FederationPackage.PackageDirectory.CreatePackage | src/chronicle/services/federation_package_service.py:45-189 | the whole directory and manifest after creation, or the unknown-key error after the payload files were written |
| FederationLaws.BoundaryCheck | src/chronicle/services/federation_package_service.py:283-334 | with records it gives the creation report's warnings and the consent warning, without any it adds the visibility warning for public only |
| FederationLaws.RoundTrip | src/chronicle/services/federation_package_service.py:167-233 | an untouched package is valid at time t exactly when unsigned, or not revoked and not past its expiry |
| FederationLaws.CreationSucceeds | src/chronicle/services/federation_package_service.py:575-619 | creation fails exactly for a signed package with an unknown key |
| FederationRecorded.FilesAsCreated | src/chronicle/services/federation_package_service.py:73-189 | a creation writes the records, the report and the readme and, if it succeeds, the manifest it returns, touches no other file, and fails exactly when signing with a key id that is neither of the two known ones |
| FederationRecorded.ReportAsCreated | src/chronicle/services/federation_package_service.py:80-116 | the report maps every record, lists the reference-only ones, and warns with the package's and the records' codes and, exactly when some record should be shared less broadly, with the visibility code |
| FederationRecorded.TermsAsAsked | src/chronicle/services/federation_package_service.py:135-165 | the manifest's terms are those of the request and of the wrapped package |
| FederationRecorded.MetadataAsAsked | src/chronicle/services/federation_package_service.py:160-164 | the metadata are the wrapped package's, with its kind and classification |
| FederationRecorded.ConsentAsAsked | src/chronicle/services/federation_package_service.py:147-155 | consent is recorded exactly when somebody granted it, with the request's fields |
| FederationRecorded.SignedAsAsked | src/chronicle/services/federation_package_service.py:599-677 | the signature block of a signed package, whose value is the digest of the named key and the signed fields |
| FederationRecorded.UnsignedAsAsked | src/chronicle/services/federation_package_service.py:585-592 | the placeholder block of an unsigned one |
| FederationRecorded.RankOrder | src/chronicle/services/federation_package_service.py:563-573 | the seven visibilities from private to public |
| FederationRecorded.MappingSays | src/chronicle/services/federation_package_service.py:412-479 | a mapping repeats its record's id, layer and hint, which is unknown when missing |
| FederationRecorded.MappingRationale | src/chronicle/services/federation_package_service.py:412-448 | the rationale names the layer that decided, in both directions |
| FederationRecorded.HintRationale | src/chronicle/services/federation_package_service.py:449-472 | without a layer that counts the rationale names the hint |
| FederationRecorded.SignedMeans | src/chronicle/services/federation_package_service.py:621-639 | a manifest verifies as signed exactly when its block is in force, has the known algorithm, and its value is the digest of the signed fields under the key of its key id |
| FederationRecorded.VerdictWarnings | src/chronicle/services/federation_package_service.py:621-639 | the one warning of every other verdict |
| FederationRecorded.CheckedAsListed | src/chronicle/services/federation_package_service.py:206-219 | what the verification reports of a listed file; it matches exactly when it is there with the listed digest |
| FederationLaws.ValidityNeverReturns | src/chronicle/services/federation_package_service.py:621-639 | any package that is invalid stays invalid as time passes |
| FederationLaws.RevokedIsNeverValid | src/chronicle/services/federation_package_service.py:575-639 | a package created as revoked is valid at no time while its manifest is kept, whatever happens to its other files |
| FederationLaws.FileTamperingIsDetected | src/chronicle/services/federation_package_service.py:206-225 | with the manifest kept, a changed directory is valid exactly when the original is and every listed file is there unchanged |
| FederationLaws.ManifestTamperingIsDetected | src/chronicle/services/federation_package_service.py:621-677 | a manifest that keeps the value of a good signature is accepted exactly when it is marked unsigned, or is not revoked, not expired and unchanged in every signed field |
| FederationLaws.TermsAreSigned | src/chronicle/services/federation_package_service.py:641-677 | any change of the signed terms is a mismatch |
| FederationLaws.EditedStatus | src/chronicle/services/federation_package_service.py:575-677 | a signed package with an edited status is accepted exactly when marked unsigned, or still marked signed, never revoked and not expired |
| FederationLaws.EditedRevocation | src/chronicle/services/federation_package_service.py:621-677 | any other manifest with the signature value of a package created as revoked is accepted exactly when marked unsigned |
| FederationLaws.UnsignedStatusIsAccepted | src/chronicle/services/federation_package_service.py:621-626 | marked unsigned, any created package is valid at all times, and its signature accepts any terms |
| FederationLaws.ConsentIsNotSigned | src/chronicle/services/federation_package_service.py:641-677 | changing the consent block is never noticed |
| FederationLaws.PreviewStatus | src/chronicle/services/federation_package_service.py:556-561 | blocked, warning and pass in both directions |
| FederationLaws.PreviewFindings | src/chronicle/services/federation_package_service.py:481-546 | exactly which findings, by severity and code, a manifest, report and verification lead to, and so which lead to a blocking one and which to a warning |
| FederationLaws.PreviewPackage | src/chronicle/services/federation_package_service.py:235-255 | blocked exactly when verification is invalid, import candidate exactly when valid, pass only with a live signature and recorded consent; the warnings are the codes of the findings |
| FederationLaws.ImportPreview | src/chronicle/services/federation_package_service.py:257-281 | adds one finding to a blocked preview and never changes its status |
| Redaction.RedactSensitiveDict | src/chronicle/exporters/redaction.py:74-88 | the loop over the seven keys overwrites those present in any dictionary it is given and nothing else |
| Redaction.TransformEventDump | src/chronicle/exporters/redaction.py:113-131 | dropped, redacted with its summary, or unchanged |
| Redaction.RedactedHidesExactly | src/chronicle/exporters/redaction.py:74-88 | two dictionaries redact to the same one exactly when they agree outside the hidden values |
| Redaction.RedactedKeepsSensitivity | src/chronicle/exporters/redaction.py:69-88 | a redacted dictionary stays sensitive and is unchanged by another redaction |
| Redaction.RedactedEventsAlike | src/chronicle/exporters/redaction.py:102-131 | two events redact to the same one exactly when they differ in hidden material only |
| Redaction.RedactionIdempotent | src/chronicle/exporters/redaction.py:113-131 | redacting twice is redacting once |
| YamlExport.ExportYaml | src/chronicle/exporters/yaml_exporter.py:27-128 | the export loops compute the document from lifecycle states, redaction and version pruning |
| YamlExport.RedactionNonInterference | src/chronicle/exporters/yaml_exporter.py:41-123 | chronicles that differ only in hidden material give equal documents under redaction |
| YamlExport.RedactedContexts | src/chronicle/exporters/redaction.py:74-99 | under redaction each visible sensitive context has the placeholder under title, summary, source, source reference, source type, path and tags where it has those keys, and its own value at every other key; any other context is its own dump; the seal warning is the one addition |
| YamlExport.RedactedArtifacts | src/chronicle/exporters/redaction.py:74-99 | the same for artifacts |
| YamlExport.RedactedEvents | src/chronicle/exporters/redaction.py:102-131 | the exported events are the shown ones in order, with a sensitive `context` or `artifact` payload overwritten under those seven keys, and then the summary too |
| YamlExport.AlikeEventsNameTheSame | src/chronicle/lifecycle/derived_output_policy.py:62-87 | hidden fields carry no lifecycle target ids |
| YamlExport.ExcludedRecords | src/chronicle/exporters/yaml_exporter.py:89-123 | under exclusion exactly the records neither tombstoned nor sensitive appear |
| YamlExport.ExcludedEvents | src/chronicle/exporters/yaml_exporter.py:89-123 | under exclusion exactly the shown events without sensitive payload appear, unchanged |
| YamlExport.VersionsGoWithArtifacts | src/chronicle/exporters/yaml_exporter.py:89-123 | an artifact's versions are exported, unchanged, exactly when it is neither tombstoned nor excluded as sensitive |
| YamlExport.OrphanVersionsStay | src/chronicle/exporters/yaml_exporter.py:110-119 | version lists without an indexed artifact stay |
| YamlExport.CountsAreConserved | src/chronicle/exporters/yaml_exporter.py:41-87 | the reported counts are the numbers of tombstoned records and hidden events |
| TokenFile.MutualExclusion | src/chronicle/daemon_credentials.py:28-68 | in every interleaving with crashes at most one daemon is between its exclusive create and its end |
| TokenFile.OnlyTheOwnerUnlinks | src/chronicle/daemon_credentials.py:56-61 | a file leaves the path only by its creator's unlink, after the identity check |
| TokenFile.NoIdentityNoUnlink | src/chronicle/daemon_credentials.py:30-61 | a daemon that reaches the cleanup without an identity never changes the path again |
| TokenFile.RefusedHasNoIdentity | src/chronicle/daemon_credentials.py:34-57 | a refused or failed create, and a failed `fstat`, lead there |
| TokenFile.CleanupFindsItsFile | src/chronicle/daemon_credentials.py:57-61 | the identity check always finds the daemon's own file |
| TokenFile.FreePath | src/chronicle/daemon_credentials.py:28-68 | once all have ended the path is free exactly when each removed its file or was refused |
| TokenFile.ExitRemovesTheFile | src/chronicle/daemon_credentials.py:45-61 | from every reachable state a live daemon that exits, or one whose write fails, removes its file with its next two calls, whatever the others do in between |
| TokenFile.FreePathIsTaken | src/chronicle/daemon_credentials.py:34-54 | a new daemon on a free path becomes live by create, `fstat` and write |
| TokenFile.OrderlyRunFreesThePath | src/chronicle/daemon_credentials.py:28-68 | a run in which no call on an existing file fails, no daemon dies and all have ended leaves the path free |
| TokenFile.FailuresEnd | src/chronicle/daemon_credentials.py:34-61 | how each failure ends a daemon, and which ones leave the file behind |
| TokenFile.DeathKeepsTheFile | src/chronicle/daemon_credentials.py:28-68 | a daemon may die at any point before its end, and its file stays |
| TokenFile.LeftoverBlocks | src/chronicle/daemon_credentials.py:34-55 | a stale file stays and refuses every later open |
| GraphIndex.GraphIndexService.AddNode | src/chronicle/services/graph_index_service.py:18-44 | the list update is a map update: merged labels without repeats, right-biased properties, positions kept; unknown records are refused |
| GraphIndex.GraphIndexService.AddEdge | src/chronicle/services/graph_index_service.py:46-75 | the triple's earlier edge is replaced at the end of the list; unknown ends are refused |
| GraphIndex.GraphIndexService.Neighbors | src/chronicle/services/graph_index_service.py:77-91 | the sorted permutation of exactly the adjacent stored nodes, with outgoing and incoming edges in order |
| GraphIndex.GraphIndexService.GetNode | src/chronicle/services/graph_index_service.py:97-100 | the last node written under the id |
| GraphIndex.GraphIndexService.GetEdge | src/chronicle/services/graph_index_service.py:102-114 | the last edge written under the triple |
| GraphIndex.DistinctMeans | src/chronicle/services/graph_index_service.py:27-44 | label merging keeps every label once, in first-seen order |
| GraphIndex.DistinctAppend | src/chronicle/services/graph_index_service.py:27-44 | merging in steps equals merging all at once, and earlier labels keep their places |
| GraphIndex.RunMeaning | src/chronicle/services/graph_index_service.py:18-44 | after any run a node's labels and properties are those of all its calls, last write winning |
| GraphIndex.NodesOfRun | src/chronicle/services/graph_index_service.py:18-44 | after any run of both operations over a changing set of known records, the nodes are what the accepted `add_node` calls make of them |
| GraphIndex.EdgesOfRun | src/chronicle/services/graph_index_service.py:46-75 | after any such run a triple holds the last edge accepted for it |
| GraphIndex.NeighborsSymmetric | src/chronicle/services/graph_index_service.py:77-91 | of two stored nodes each is among the other's neighbours or neither is |

## Left out

- Text formats: YAML, JSON and JSON-lines encoding, corrupt lines skipped on reading, torn writes and the order of mapping entries in files.
- Dates: parsing, time zones and `generated_at`; a clock is a natural number.
- Validation: enumeration membership of most string fields, and record fields no operation here reads (event classification and confidence, integrity hashes, allowed operations of a classification, alternatives and notes of decisions, enabled flags and tags of rules, the list fields of RDE records).
- IndexProjection.Build: leaves out `_attach_rde_record_ids`, which marks the indexed versions an RDE record compares.
- SHA-256 and canonical JSON: a digest and an encoding are parameters; the tamper laws assume both injective and an encoding that starts with a brace.
- Package reports: warning codes are a set, not a sorted list, and package and consent audits are not written.
- Audit entries: the fixed severity and target environment, and the two metadata fields only assertions add.
- Manifests of exports: built by another service; only the lifecycle notes added to them are modelled.
- Export profiles: a profile only selects one of the two redaction options.
- Concurrency of API handlers: each commit is one step, except in `ApiCrash`, where it is three with crashes in between.
- Index writes: a crash leaves an arbitrary index behind, so no property of a partly written index is claimed.
- Token file: symlink, permission and entropy checks, and outside processes that replace the file.
- Graph index: which records the chronicle knows is given to each call, not read from its log and indexes.
- `get_boundaries`, the `list_*` operations and the subset selectors that no modelled read uses: they would only add easy members.
- Command line, daemon server, HTTP boundary, HTML and Markdown rendering, runtime providers and capability tables.
- Ids: a counter with a type prefix stands for random ids, so that two generated ids never collide.
- ArtifactRuns.ChainsOverRuns: assumes updates that file the pair they built, as every update without an artifact or a version in its extra payload does; `UpdateContinuesChain` gives the exact condition for one call.
- ContextRuns.ClassificationSurvives: assumes extra payloads that can be filed; `ServiceRuns.StepConsistency` says what one call with any other payload leaves behind.
- IndexBreakage.ProjectsExactly: string fields with enumerated values validate whatever they hold, so the program also raises on values outside its enumerations.
- GraphOrder.ExportOrderIndependent: assumes that ids identify records, which generated ids do; `PlanOrderShows` gives an input for which they do not, and no exact condition is stated.
- Lifecycle.MarkSealedWarning: its precondition is a `warnings` entry that is a list, as every exported record has.
