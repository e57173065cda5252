# Data-pipeline handlers, modelled in Dafny

This project models the control logic of two small AWS data pipelines and
proves what that logic guarantees.

- **Orchestration handler** (`mini_data_pipeline/orchestration/handler.py`).
  One invocation writes three API snapshots into the raw bucket. It then runs
  the four-check quality gate on each snapshot, stopping at the first check
  that fails. Passes are moved under the staging prefix, failures under the
  quarantine prefix, with one notification per quarantined object. Every pass
  goes to the transformer and to the curated-zone writer. The invocation ends
  with a crawler run and two monitoring calls. The module is
  `Orchestration`, with the class `Orchestrator`.
- **Quality-gate checks** (`mini_data_pipeline/processing/validation.py`).
  Four checks: the schema stub, the record rules (including the e-mail
  pattern under Java regex rules), the Deequ size and completeness check,
  and the expectation suite. The modules are `Validation` and `QualityGate`.
- **Stream ingest** (`mini_data_pipeline/ingestion/kinesis_ingest.py`).
  Each record is decoded and put at
  `kinesis/<date>/<sequence number>.json`. The module is `KinesisIngest`.
- **Entry point** (`mini_data_pipeline/main.py`). Six guarded blocks run in
  order. Each logs its start, calls its steps and logs the first exception
  instead of propagating it. The run ends with "Pipeline completed.". The
  module is `PipelineMain`, with the class `Logger`.
- **Object-created mover** (`unstructured-data-pipeline/lambda_function/lambda_function.py`).
  Each uploaded object with a supported extension is copied to
  `staging/<last path segment>` and the original is deleted. The module is
  `StagingMover`.

The object store is shared by all of them (module `BlobStore`). It is a map
from object name to content, with an `ObjectStore` class whose methods
change that map in place and record every call made. A "move" is a copy
followed by a delete. A copy whose source is missing fails. In the
object-created mover (`StagingMover.LambdaHandler`) that ends the invocation,
and the result reports the missing source. The orchestration handler's
routing loops (`Orchestrator.StageAll`, `Orchestrator.QuarantineAll`) do not
look at whether a copy succeeded. Instead, their preconditions require every
key to be present when its turn comes, and `RoutePlanReady` proves that this
holds for the batch the handler ingests. `Relocate` and `MoveCalls` give the store
and the calls after a run of moves. The orchestration handler records every
outside call in order in a trace of `Event`s. `HandlerGuarantees` reads
which calls happen, how many and in what order off that trace, and where
each ingested object ends up off the final store.

The orchestration handler keeps its own bucket (a map keyed by object name
within the one raw bucket) rather than an `ObjectStore`. This is because its
trace has to interleave the store calls with the notification, transformer,
curated-zone, crawler and monitoring calls in one order. `Orchestrator.Route`
is stated with the same `Moved` as the store client's copy followed by its
delete.

## Model

| member | source | states |
|---|---|---|
| BlobStore.Moved | mini_data_pipeline/orchestration/handler.py:59-61 | one copy of the source onto the destination followed by the delete of the source; its meaning is stated by MovedSpec |
| BlobStore.MovedSpec | mini_data_pipeline/orchestration/handler.py:58-62 | after copy-then-delete the source is gone, a distinct destination holds the source's old content, no new name appears besides the destination, and every other object is unchanged |
| BlobStore.Relocate | unstructured-data-pipeline/lambda_function/lambda_function.py:7-13 | the store after a run of moves, stopping at the first copy whose source is missing and reporting that source; stated by RelocateFrame, RelocateIndependent, RelocateLastWriter and RelocateStuck |
| BlobStore.RelocateFrame | unstructured-data-pipeline/lambda_function/lambda_function.py:7-13 | for any run of moves, colliding or not, finished or stopped at a missing source, a name no move reads or writes keeps its presence and its content |
| BlobStore.RelocateFanIn | unstructured-data-pipeline/lambda_function/lambda_function.py:7-13 | a run whose moves read distinct sources, none of which any move writes, with every source present, never meets a missing source (destinations may be shared) |
| BlobStore.RelocateLastWriter | unstructured-data-pipeline/lambda_function/lambda_function.py:11-13 | in such a run a destination holds the original content of the source of the last move that writes it |
| BlobStore.RelocateIndependent | mini_data_pipeline/orchestration/handler.py:64-68 | a run of moves where no move reads or overwrites a name another move uses, with every source present, never fails; every source ends absent, every destination holds its source's original content, and untouched names keep theirs |
| BlobStore.RelocateStuck | unstructured-data-pipeline/lambda_function/lambda_function.py:7-13 | once a copy has found its source missing, no later move of the batch changes the store or makes a call |
| BlobStore.MoveCalls | unstructured-data-pipeline/lambda_function/lambda_function.py:12-13 | the calls a run of moves makes: a copy and a delete per move, the failed copy last; stated by StagingMover.LambdaHandler and RelocateStuck |
| BlobStore.ObjectStore.PutObject | mini_data_pipeline/ingestion/kinesis_ingest.py:20 | the target now holds the body (replacing any old content); one put call is recorded |
| BlobStore.ObjectStore.CopyObject | unstructured-data-pipeline/lambda_function/lambda_function.py:12 | succeeds exactly when the source exists, then the target holds the source's content; a failed copy changes nothing; the call is recorded either way |
| BlobStore.ObjectStore.DeleteObject | unstructured-data-pipeline/lambda_function/lambda_function.py:13 | the target is absent afterwards, whether or not it existed; the call is recorded |
| Validation.ValidateSchemaGlue | mini_data_pipeline/processing/validation.py:11-15 | the schema-registry check accepts every object |
| Validation.EmailSearch | mini_data_pipeline/processing/validation.py:24 | the executable test holds exactly when some substring of the e-mail matches `[^@]+@[^\.]+\..+` as a whole (Java `.` excludes line terminators), i.e. what a non-empty `regexp_extract` group 0 reports |
| Validation.HasEmailMatch | mini_data_pipeline/processing/validation.py:24 | the executable e-mail test; EmailSearch proves it equals a search for a substring matching the pattern |
| Validation.EmailInsideText | mini_data_pipeline/processing/validation.py:24 | the pattern is searched, not anchored: "x a@b.c y" passes |
| Validation.EmailTooShort | mini_data_pipeline/processing/validation.py:24 | "a@.c", "@b.c" and "a@b." do not match |
| Validation.EmailEmptyDomain | mini_data_pipeline/processing/validation.py:24 | "a@.b.c" does not match: the domain before the first '.' may not be empty |
| Validation.EmailDomainWithAt | mini_data_pipeline/processing/validation.py:24 | the domain part may contain '@': "x@@y.z" matches |
| Validation.RowValid | mini_data_pipeline/processing/validation.py:21-24 | the row filter: id and timestamp not null and the e-mail matching; ValidateRecordRules proves a file passes exactly when every row satisfies it |
| Validation.CountValidAll | mini_data_pipeline/processing/validation.py:21-26 | the filtered count never exceeds the row count, and equals it exactly when every row is valid |
| Validation.ValidateRecordRules | mini_data_pipeline/processing/validation.py:17-28 | passes exactly when every row has an id, a timestamp and a matching e-mail (so an empty dataset passes) |
| Validation.CountIdPresentAll | mini_data_pipeline/processing/validation.py:34 | the non-null id count never exceeds the row count, and equals it exactly when no id is null |
| Validation.ValidateDeequ | mini_data_pipeline/processing/validation.py:30-37 | succeeds exactly when there is at least one row and no row's id is null |
| Validation.ValidateGe | mini_data_pipeline/processing/validation.py:39-47 | answers the expectation suite's own success flag |
| Validation.EmptyDataset | mini_data_pipeline/processing/validation.py:17-37 | an empty dataset passes the record rules but fails Deequ |
| Validation.RecordRulesImplyDeequ | mini_data_pipeline/processing/validation.py:17-37 | on a non-empty dataset the record rules imply the Deequ check |
| Validation.RecordsAndDeequ | mini_data_pipeline/processing/validation.py:17-37 | the record rules and Deequ together accept exactly the non-empty datasets whose every row is valid |
| QualityGate.Passes | mini_data_pipeline/orchestration/handler.py:48-56 | an object passes when every check of the chain accepts it; ChainVerdict and SourceGate state when that happens |
| QualityGate.RunUntilFailure | mini_data_pipeline/orchestration/handler.py:48-55 | the checks run on one object, up to and including the first that rejects; RunUntilFailureStops states its shape |
| QualityGate.RunUntilFailureStops | mini_data_pipeline/orchestration/handler.py:48-55 | the checks that run are a prefix of the chain; all but the last accepted; the run is never empty; a run that stops early ends at a check that rejected |
| QualityGate.ChainVerdict | mini_data_pipeline/orchestration/handler.py:48-56 | an object passes exactly when all four checks run and the last accepts; otherwise the last check run is the one that rejected |
| QualityGate.ChainRun | mini_data_pipeline/orchestration/handler.py:48-55 | case by case, which checks run: only the schema check when it rejects, up to the record rules when they reject, and so on; passing means all four accept |
| QualityGate.Gate | mini_data_pipeline/orchestration/handler.py:48-56 | the four guarded tests answer whether the object passes every check and report the checks that ran |
| QualityGate.SourceGate | mini_data_pipeline/orchestration/handler.py:48-55 | with the source's validators, an object passes exactly when it has at least one row, every row is valid and the suite succeeds; the schema check always runs first and is never the one that rejects |
| QualityGate.SourceAnswers | mini_data_pipeline/processing/validation.py:11-47 | with the source's validators, the schema check accepts and the other three answer the record rules, Deequ and the suite |
| QualityGate.Verdicts | mini_data_pipeline/orchestration/handler.py:47-56 | one verdict per key, in key order, each saying whether that key's object passes the gate |
| QualityGate.Select | mini_data_pipeline/orchestration/handler.py:45-56 | the keys whose verdict is the wanted one, in key order; SelectMember, SelectInterleave, SelectPartition and SelectDistinct state its properties |
| QualityGate.SelectMember | mini_data_pipeline/orchestration/handler.py:45-56 | a key is in the passed (failed) list exactly when some position holds it with a passing (failing) verdict |
| QualityGate.SelectInterleave | mini_data_pipeline/orchestration/handler.py:45-56 | the split loses nothing and keeps order: merging passed and failed back along the verdicts gives the ingested keys |
| QualityGate.SelectPartition | mini_data_pipeline/orchestration/handler.py:45-56 | for distinct keys, every key lands in exactly one of passed and failed, and nothing else lands in either |
| QualityGate.SelectDistinct | mini_data_pipeline/orchestration/handler.py:45-56 | for distinct keys, passed followed by failed has no repeated key |
| Orchestration.IngestedKeys | mini_data_pipeline/orchestration/handler.py:39-43 | the REST, SOAP and GraphQL keys of one timestamp, in that order; IngestedKeysSuffixFree proves them distinct and suffix-free |
| Orchestration.IngestedKeysSuffixFree | mini_data_pipeline/orchestration/handler.py:39-43 | whatever the timestamp, the three snapshot keys are distinct and none is a suffix of another |
| Orchestration.RemoveAll | mini_data_pipeline/orchestration/handler.py:73 | removal of every non-overlapping occurrence of a pattern, left to right; stated by RemoveAllUnchanged and RemoveAllPrefixed |
| Orchestration.RemoveAllUnchanged | mini_data_pipeline/orchestration/handler.py:73 | removing every occurrence of the prefix never lengthens a key, strictly shortens it whenever it changes it, and leaves it unchanged exactly when the prefix is empty or does not occur in it |
| Orchestration.RemoveAllPrefixed | mini_data_pipeline/orchestration/handler.py:73 | stripping the prefix from the staged key gives the same string as stripping it from the pre-route key |
| Orchestration.TransformKey | mini_data_pipeline/orchestration/handler.py:73 | the key handed to the transformer: the passed key with the staging prefix removed; HandlerTransforms and TransformReadsRoutedKey state its use |
| Orchestration.EnrichedKey | mini_data_pipeline/orchestration/handler.py:78 | the enriched prefix followed by the passed key with the staging prefix removed; HandlerCuration states its use |
| Orchestration.CuratedPath | mini_data_pipeline/processing/curated_zone.py:14-17 | the path the curated-zone writer returns, which depends only on the bucket, the curated prefix and the timestamp; HandlerCuration states its use |
| Orchestration.QuarantineMessage | mini_data_pipeline/orchestration/handler.py:68 | the notification text: the quarantined key followed by " failed validations"; HandlerNotifications states its use |
| Orchestration.RouteMoves | mini_data_pipeline/orchestration/handler.py:65-67 | one move per key, in key order, from the key to the prefix followed by the key |
| Orchestration.PlanIndependent | mini_data_pipeline/orchestration/handler.py:58-68 | for suffix-free keys the routing moves never collide: no move reads or overwrites a name another move uses, and every source is a batch key |
| Orchestration.RoutePlanReady | mini_data_pipeline/orchestration/handler.py:58-68 | the routing moves of a batch held in the bucket never collide, and every source is present |
| Orchestration.Orchestrator.constructor | mini_data_pipeline/orchestration/handler.py:16-30 | a handler over the given configuration and bucket, with no calls made |
| Orchestration.Orchestrator.Upload | mini_data_pipeline/orchestration/handler.py:39 | the key now holds the body; one put is traced |
| Orchestration.Orchestrator.IngestAll | mini_data_pipeline/orchestration/handler.py:37-43 | the ingested keys are the REST, SOAP and GraphQL keys of the timestamp; the bucket holds the three snapshots; three puts are traced, in that order |
| Orchestration.Orchestrator.ValidateAll | mini_data_pipeline/orchestration/handler.py:45-56 | passed and failed are the keys whose verdict is pass and fail respectively, each in ingestion order |
| Orchestration.Orchestrator.Route | mini_data_pipeline/orchestration/handler.py:58-62 | the destination is prefix + source; with the source present, the bucket takes the move and a copy and a delete are traced; with it missing, only the failed copy is traced and the bucket is unchanged |
| Orchestration.Orchestrator.StageAll | mini_data_pipeline/orchestration/handler.py:65 | given the states the bucket passes through, the loop ends in the last one and traces a copy and a delete per pass |
| Orchestration.Orchestrator.QuarantineAll | mini_data_pipeline/orchestration/handler.py:66-68 | as StageAll for failures, adding after each move a notification with subject "Data Quarantine" that names the new key |
| Orchestration.Orchestrator.RouteBatch | mini_data_pipeline/orchestration/handler.py:64-68 | both routing loops leave the bucket exactly as the routing moves leave it, with no failed copy; the trace gains the staging then the quarantine events |
| Orchestration.Orchestrator.TransformAll | mini_data_pipeline/orchestration/handler.py:71-74 | one transformer call per pass, in order, with the prefix removed from the key |
| Orchestration.Orchestrator.CurateAll | mini_data_pipeline/orchestration/handler.py:77-80 | per pass, a curated write of the enriched key and then a registration of the returned path |
| Orchestration.Orchestrator.LambdaHandler | mini_data_pipeline/orchestration/handler.py:32-89 | answers "done"; passed and failed are the gate's split of the three snapshot keys; the final bucket is the routing moves applied to the bucket after ingestion, with no failed copy; the trace is the whole invocation's calls in order |
| HandlerGuarantees.IngestUploads | mini_data_pipeline/orchestration/handler.py:38-43 | the upload segment is exactly three puts: REST, SOAP, GraphQL |
| HandlerGuarantees.RouteCopies | mini_data_pipeline/orchestration/handler.py:65 | the staging loop copies each pass exactly once, in order, to the staging prefix + key |
| HandlerGuarantees.QuarantineCopies | mini_data_pipeline/orchestration/handler.py:66-67 | the quarantine loop copies each failure exactly once, in order, to the quarantine prefix + key |
| HandlerGuarantees.QuarantineNotices | mini_data_pipeline/orchestration/handler.py:66-68 | the quarantine loop publishes exactly one notification per failure, in order, naming its new key |
| HandlerGuarantees.TransformEventsShape | mini_data_pipeline/orchestration/handler.py:72-74 | the transform segment has one call per pass, the i-th for the i-th pass |
| HandlerGuarantees.CurateEventsShape | mini_data_pipeline/orchestration/handler.py:77-80 | the curate segment has two calls per pass: the write of its enriched key, then the registration of the curated path |
| HandlerGuarantees.HandlerUploads | mini_data_pipeline/orchestration/handler.py:38-43 | the trace opens with the three snapshot puts, and the invocation uploads nothing else |
| HandlerGuarantees.HandlerCopies | mini_data_pipeline/orchestration/handler.py:64-68 | the invocation copies every pass (to staging) before any failure (to quarantine), each exactly once and in order, and copies nothing else |
| HandlerGuarantees.HandlerNotifications | mini_data_pipeline/orchestration/handler.py:66-68 | exactly one notification per failure, in order, with subject "Data Quarantine" and message "<quarantine prefix><key> failed validations"; passes never notify |
| HandlerGuarantees.HandlerTransforms | mini_data_pipeline/orchestration/handler.py:71-74 | the transformer runs exactly once per pass, in order, on the key with every occurrence of the staging prefix removed, with the invocation's timestamp |
| HandlerGuarantees.HandlerCuration | mini_data_pipeline/orchestration/handler.py:76-80 | per pass and in order, exactly one curated write of the enriched key and then one registration of the curated path |
| HandlerGuarantees.HandlerFinal | mini_data_pipeline/orchestration/handler.py:82-87 | the crawler, job monitoring and drift detection (on the passes) run exactly once each, as the last three calls |
| HandlerGuarantees.RouteRemovesBatch | mini_data_pipeline/orchestration/handler.py:58-67 | routing never meets a missing source, and no batch key remains under its ingested name |
| HandlerGuarantees.PassesPlaced | mini_data_pipeline/orchestration/handler.py:65 | with a non-empty staging prefix, each pass sits at staging prefix + key with the content it was ingested with |
| HandlerGuarantees.FailuresPlaced | mini_data_pipeline/orchestration/handler.py:66-67 | with a non-empty quarantine prefix, each failure sits at quarantine prefix + key with the content it was ingested with |
| HandlerGuarantees.RouteLeavesOthers | mini_data_pipeline/orchestration/handler.py:58-68 | an object that is neither a batch key nor a routing destination keeps its presence and content |
| HandlerGuarantees.TransformReadsRoutedKey | mini_data_pipeline/orchestration/handler.py:72-74 | when the staging prefix is non-empty and does not occur in a passed key, the transformer is handed that ingested key itself (the same string the staged key would give), and routing has already deleted that object |
| StagingMover.Supported | unstructured-data-pipeline/lambda_function/lambda_function.py:6-10 | the decoded key ends with ".csv", ".json", ".xml" or ".txt"; SupportedSpec ties it to the extension list |
| StagingMover.SupportedSpec | unstructured-data-pipeline/lambda_function/lambda_function.py:6-10 | a key is moved exactly when one of ".csv", ".json", ".xml", ".txt" ends it |
| StagingMover.LastSegment | unstructured-data-pipeline/lambda_function/lambda_function.py:11 | the text after the last '/' of the key; LastSegmentSpec states it |
| StagingMover.StagingKey | unstructured-data-pipeline/lambda_function/lambda_function.py:11 | "staging/" followed by the last segment; StagingKeyOfStaged and MoverPlanSources state it |
| StagingMover.LastSegmentSpec | unstructured-data-pipeline/lambda_function/lambda_function.py:11 | the last segment ends the key, holds no '/', and is either the whole key or preceded by a '/' |
| StagingMover.StagingKeyOfStaged | unstructured-data-pipeline/lambda_function/lambda_function.py:11 | a key already of the form "staging/<name>" has itself as destination |
| StagingMover.MoverPlan | unstructured-data-pipeline/lambda_function/lambda_function.py:7-11 | one move per supported record, in record order; MoverPlanSources and MoverPlanCovers state it |
| StagingMover.MoverPlanSources | unstructured-data-pipeline/lambda_function/lambda_function.py:7-13 | every planned move comes from a supported record, stays in that record's bucket and lands on its staging key |
| StagingMover.MoverPlanCovers | unstructured-data-pipeline/lambda_function/lambda_function.py:7-13 | every supported record's move is planned |
| StagingMover.NoMatchNoChange | unstructured-data-pipeline/lambda_function/lambda_function.py:7-14 | a batch without a supported key plans nothing and leaves the store unchanged |
| StagingMover.MoverFrame | unstructured-data-pipeline/lambda_function/lambda_function.py:7-13 | for any batch, an object that is neither the decoded key of a supported record nor that record's staging key keeps its presence and its content, even when keys collide or a copy fails |
| StagingMover.MoverCompletes | unstructured-data-pipeline/lambda_function/lambda_function.py:7-13 | when the supported records name distinct present objects, none a staging key of the batch, no copy finds its source missing |
| StagingMover.MoverLastWriter | unstructured-data-pipeline/lambda_function/lambda_function.py:7-13 | for such a batch, each staging key holds the content of the last supported record of the batch that targets it |
| StagingMover.StagedObjectLost | unstructured-data-pipeline/lambda_function/lambda_function.py:11-13 | a supported object already at its staging key is copied onto itself and then deleted: it is gone afterwards |
| StagingMover.CollisionLastWins | unstructured-data-pipeline/lambda_function/lambda_function.py:11-13 | two supported objects of one bucket with the same last segment land on the same staging key; both originals are gone and the later one's content is what remains |
| StagingMover.LambdaHandler | unstructured-data-pipeline/lambda_function/lambda_function.py:4-14 | the store ends as the planned moves leave it and the calls are the moves' copies and deletes; answers "done" unless a copy found its source missing, in which case it stops there and reports that source |
| KinesisIngest.FirstUndecodable | mini_data_pipeline/ingestion/kinesis_ingest.py:16-17 | every record before the returned position decodes, and the record at that position (if any) does not |
| KinesisIngest.LastWriter | mini_data_pipeline/ingestion/kinesis_ingest.py:19-20 | the last handled record whose key is the given key, or none when no record has that key |
| KinesisIngest.PutCallsSpec | mini_data_pipeline/ingestion/kinesis_ingest.py:16-20 | one put per handled record, in record order, the i-th at record i's key |
| KinesisIngest.StoredAt | mini_data_pipeline/ingestion/kinesis_ingest.py:16-20 | under a record key the bucket holds the payload of the last record written there; every other object is as it was |
| KinesisIngest.ObjectKey | mini_data_pipeline/ingestion/kinesis_ingest.py:19 | "kinesis/<date>/<sequence number>.json"; ObjectKeyInjective proves the key determines both parts |
| KinesisIngest.ObjectKeyInjective | mini_data_pipeline/ingestion/kinesis_ingest.py:18-19 | for dates of one length, the key determines both the date and the sequence number |
| KinesisIngest.Handler | mini_data_pipeline/ingestion/kinesis_ingest.py:8-21 | puts every record up to the first undecodable one, in order; answers "processed" with the record count when all decode, and otherwise fails at that record with the earlier puts kept |
| PipelineMain.Logger.constructor | mini_data_pipeline/main.py:22-23 | a logger with no entries |
| PipelineMain.Logger.LogInfo | mini_data_pipeline/main.py:26 | appends one informational entry |
| PipelineMain.Logger.LogException | mini_data_pipeline/main.py:31 | appends one exception entry |
| PipelineMain.FirstRaise | mini_data_pipeline/main.py:25-31 | every step before the returned position returns, and the step at that position (if any) raises |
| PipelineMain.BlockLog | mini_data_pipeline/main.py:25-31 | what one guarded block logs; BlockLogCounts and RunBlock state it |
| PipelineMain.BlockCalls | mini_data_pipeline/main.py:25-31 | the steps one guarded block calls, up to the first that raises; IngestionCalls, SingleStepCalls and RunBlock state it |
| PipelineMain.BlockLogCounts | mini_data_pipeline/main.py:25-31 | a block logs its start message and exactly one exception when one of its steps raises, none otherwise |
| PipelineMain.IngestionCalls | mini_data_pipeline/main.py:25-31 | the FTP ingest is always called; the API ingest only when the FTP ingest returned; the stream ingest only when both returned |
| PipelineMain.SingleStepCalls | mini_data_pipeline/main.py:33-61 | a one-step block calls its step whatever the step does |
| PipelineMain.PipelineCallsFacts | mini_data_pipeline/main.py:21-63 | the steps called are the ingestion block's, then validation, transformation, curated write, metadata registration and monitoring, each always: a failure never stops a later block |
| PipelineMain.PipelineLog | mini_data_pipeline/main.py:21-63 | the log of the whole run, block by block, then the completion message; PipelineLogFacts and RunPipeline state it |
| PipelineMain.PipelineLogFacts | mini_data_pipeline/main.py:21-63 | the informational entries are the six start messages and then "Pipeline completed.", in order; there is one exception entry per failing block, so at most six; the completion message is last |
| PipelineMain.RunBlock | mini_data_pipeline/main.py:25-31 | a block logs its start, calls its steps in order up to the first that raises, and logs "Error during <activity>: <message>" for it |
| PipelineMain.RunPipeline | mini_data_pipeline/main.py:21-63 | the log and the calls of the whole run are the six blocks' in order, then the completion message |

## Left out

- Network fetches: the REST, SOAP and GraphQL responses are parameters of the orchestration handler, and the gRPC fetch is never called.
- Environment variables are a given `Config`, and a missing one is not modelled. The variables read at import (`mini_data_pipeline/orchestration/handler.py:20-25`) would raise before any invocation. `REST_URL` and the other fetch settings (lines 38-42) are read during ingestion. `SCHEMA_REGISTRY` and `SCHEMA_NAME` (line 48) are read inside the validation loop, after the three uploads. A missing one raises in the middle of the invocation, and the snapshots stay unrouted in the raw bucket. `GLUE_CRAWLER_NAME` is a string here, although the source may read it as absent.
- Clocks: the orchestration timestamp is a parameter, and the stream ingest reads its date through a parameter `today(i)` per record, so a run spanning midnight is covered.
- Decoding: base64 decoding and URL unquoting are parameters (`decode`, `unquote`); a decoding error is `None` from `decode`.
- Inside the validators: reading JSON into rows and running the expectation suite are parameters (`rowsOf`, `suite`); Spark sessions and the Deequ and Great Expectations engines are left out.
- Downstream effects: the transformer, curated-zone writer, table registration, crawler and monitoring calls appear in the trace only. What they read and write is not part of this model, apart from the curated path the writer returns.
- Failures of outside calls other than a copy of a missing source (a failed fetch, upload, publish or transform) are not modelled; they would raise out of the handlers.
- The transformer reads the object under the key it is handed (`mini_data_pipeline/processing/transformation.py:59-60`). `TransformReadsRoutedKey` proves that routing has already deleted that object, so in the deployed system `transformer.run` would raise on the first pass. The curate, crawler and monitoring segments of `HandlerEvents` (and of the trace `Orchestrator.LambdaHandler` promises) are then never reached. The model treats the transformer as an outside call that returns, and states the trace of an invocation in which it does.
- A handler invocation that raises is reported as an `Err` result carrying the failing source or record index.
- `unstructured-data-pipeline/lambda_function/lambda_function.py:11` mixes quote characters and does not parse. The model follows its evident intent, `"staging/" + last path segment`.
- `mini_data_pipeline/main.py:9-18` imports names that the ingestion and processing modules do not define (for instance `ingest_from_kinesis`, where the stream module defines `handler`). Every step is therefore an abstract outcome, either returning or raising with a message. An import failure is not modelled.
- Logging level, format arguments and the attached traceback are not modelled; an entry carries its formatted message.
- ValidateRecordRules / EmptyDataset: a column absent from every row of a file (for instance an empty JSON file, which yields no columns) makes the record-rule lookups at `mini_data_pipeline/processing/validation.py:21-24` raise. `mini_data_pipeline/orchestration/handler.py:50` does not catch that, so the invocation dies after the uploads. The model reads such a field as `None`, so `EmptyDataset` describes a file that has the columns but no rows.
- MovedSpec: the store it describes accepts a copy onto the same name, after which the delete removes the object. S3 rejects a copy onto itself when nothing else changes (which can happen at `mini_data_pipeline/orchestration/handler.py:60` with an empty prefix), and the invocation would raise there instead.
- StagedObjectLost: describes a store that accepts a copy onto the same name. S3 rejects such a copy when nothing else changes, so there the invocation would raise at that record instead.
- PassesPlaced: promised only for a non-empty staging prefix. With an empty prefix the model's copy lands on the source and the delete then removes it. S3 would instead reject that copy onto itself (`mini_data_pipeline/orchestration/handler.py:60`), and the invocation would raise there.
- FailuresPlaced: promised only for a non-empty quarantine prefix, for the same reason, including S3's rejection of the copy onto itself.
- QualityGate.Gate: the individual validator calls are not traced; the gate reports which checks ran instead.
