# ManyRouter: verified model of the control plane

ManyRouter pulls request logs from remote sites, turns them into measurement facts, scores
suppliers, adjusts routing plans and reconciles every site to its plan. This project models
the five parts in which a mistake would be silent and proves what they promise:

1. **Log collection** (`Cursors`, `LogHash`, `Measurement`, `ErrorClasses`, `Conversion`,
   `RequestFacts`, `Batches`, `BatchFacts`, `PerRequest`, `Converter`, `RemoteLogs`, `CollectedWindow`, `LogWindows`, `MeasurementStore`,
   `LateFailure`, `CollectRun`, `CollectionProtocol`). The pager, the recursive splitting of a scan, the converter
   from log records to facts, the long list of rules a batch must meet, the transactional store with
   its revisions, and any number of collectors that interleave, crash and lose replies. The main
   results: no second of log time is skipped, every saved window produced exactly its facts, commits
   chain, and a window of well identified logs always commits.
2. **Site reconciliation** (`NameLists`, `ChannelCodec`, `SiteState`, `SiteGateway`, `SiteSafety`,
   `SiteEffects`, `SiteWorld`, `OperatorSwitch`, `SiteSync`, `SiteStages`, `SiteRunner`, `ManagedSync`, `PlanFence`,
   `SyncService`). The staged run against a gateway that may lose writes and replies while others
   write too, the batch run, and the lock that fences plans. The main results: whatever happens, every
   write was allowed when it was issued; completion means the site is exactly as planned and unchanged
   elsewhere; over a steady gateway a ready site is settled and a second run writes nothing; plan
   versions reaching a site never go back.
3. **Evaluation runs** (`EvaluationPlan`, `EvaluationRun`, `EvaluationProtocol`). Reserve, probe,
   record, with any number of overlapping workers. The main results: no probe is sent twice, success
   means the complete plan with known outcomes, and at most 200 probes per supplier, model and day.
4. **Scoring** (`Histogram`, `Scoring`, `WindowScores`, `Advice`). Nearest-rank percentiles over
   buckets in 64-bit words, weighted windows, gates and streaks.
5. **Automatic membership** (`Automation`, `AutomationRuns`). Decisions, strategies and holds over
   sequences of runs.

`Wrappers`, `Sequences` and `Text` hold what the parts share: options and outcomes, filtering, stable
sorting and deduplication over sequences, decimal text, byte order, comma-separated lists and framing.

## How it is modelled

Code that changes things step by step is written as methods and classes and proved against
functions; code made of expressions is written as functions, and what it promises as lemmas.
Protocols with several actors are state machines over their steps. The following conventions hold
throughout.

- Times are whole seconds, identifiers are opaque numbers, decimals and floating-point numbers are
  real numbers, and strings are sequences of characters compared byte by byte; white space is ASCII
  and Latin-1 white space.
- A SHA-256 digest is the datatype value of the parts it is computed from. The framing that turns parts
  into bytes is proved injective (`Text.FrameInjective`), so equal digests mean equal parts.
- Redaction and the tables of stable codes and text terms are parameters: an `ErrorText` says what
  redaction leaves and whether that can be stored. Redaction is not idempotent for every text, because
  cutting at 240 characters can leave a space at the end; results about validity therefore carry the
  condition that the summary is storable.
- The store's statements are modelled from the SQL in `db/query`: the cursor row is locked and
  compared, revisions are superseded and inserted unless their key exists, confirmations store plan
  version, enabled flag and, where it was written, the credential.
- `SiteState.Codec` stands for how the remote site keeps a written channel and when a channel equals the
  desired one. The results about synchronization hold for every codec; `SiteState.REMOTE` is the one
  the program uses, and `SiteState.RemoteRoundTrips` says for which channels it is faithful.

## What the proofs found

- Snapshot validation accepts model and group names with white space at an end, and exactly such a channel
  never compares equal to what it wrote (`ChannelCodec.WriteReadMatches`, `ChannelCodec.PaddedNameFails`).
  The program does not get there: it trims names before it stores them
  (`internal/domain/supplier/supplier.go:164-176`, `internal/application/operations/prepare.go:65-66`)
  and generates group keys, and then a written channel always matches
  (`ChannelCodec.EnteredChannelMatches`).
- A log that is set aside twice in one window (a page boundary can show it twice) makes the whole window
  fail, although converted records are deduplicated (`CollectedWindow.RepeatedAsideFails`).
- Saving a revision again after another revision of the same request at the same terminal position has
  replaced it is refused and rolls the whole batch back (`MeasurementStore.RevertedRevisionRefused`). The
  collector gets there when the failure log of a retried request shows up late: one window reads its end
  alone, the next reads both, and a third starts after the failure (`LateFailure.LateFailureRefused`).
- The text of an error is the one field of a log record its digest does not cover, so two records that
  differ only there are one record (`LogHash.EqualHashes`).
- Whether an operator has switched a channel off is only asked in the first look of its turn. One who
  switches it off after that, while it is written, reread or tested, is overridden. For every plan that is
  possible exactly when the first look, not locked then, leads to putting the channel in service: when it
  calls for a write that can be encoded, or shows the channel out of service without being switched off
  (`OperatorSwitch.OverrideExactly`). In every run a channel is switched on only from such a look
  (`OperatorSwitch.SwitchFollowsLook`), so one that is first seen enabled and needs no write is left alone.
- The plan fence rests on the database session that holds the site lock. A write is current exactly when
  no edit published anything new since the worker's reload (`PlanFence.WriteCurrentExactly`); as long as
  no lock is lost that always holds, and with a lost one an older version can be written after a newer
  one (`PlanFence.LostLockWritesStale`).
- Overlapping evaluation workers are safe, but a check ends an unfinished run as failed exactly when all
  samples exist and some outcome is unknown (`EvaluationProtocol.CheckFailsExactly`), so also while
  another worker still waits for an answer (`EvaluationProtocol.OverlapEndsRun`, reached in
  `EvaluationProtocol.OverlapReached`).
- Automation decides from members and holds loaded before its transaction and does not look at the holds
  again. A late run leaves a candidate both held and a member exactly when it misses something that
  happened in between (`AutomationRuns.LateRunExactly`): a relation it wants as a member was held
  (`AutomationRuns.LateRunJoinsHeld`), or a relation it holds or does not release joined a strategy it
  leaves alone (`AutomationRuns.LateRunHoldsMember`). The results about holds are for runs one after the
  other.
- A visible group without a display name is never written when its entry is missing; the merge reports
  no change exactly when every entry is as planned or such a one (`SiteState.NothingDiffers`,
  `SiteState.UnnamedStaysMissing`). Plans do not contain such groups: display names are required and
  trimmed where they are entered (`internal/application/operations/prepare.go:165-187`,
  `internal/domain/routing/relation.go:75`, `internal/domain/routing/site_snapshot.go:49`), and for named
  groups a change is reported exactly when an entry is not as planned (`SiteState.NamedNothingDiffers`).

## Model

| member | source | states |
|---|---|---|
| Text.FrameInjective | internal/domain/measurement/newapi.go:378-387 | Length-prefixed framing of part lists is injective, so a hash over frames identifies its parts |
| Cursors.CursorOrderIsNumeric | internal/application/collection/service.go:240-248 | Comparing cursors built from logs as text agrees with comparing second, type order and identifier as numbers, for every identifier below 2^63 |
| Cursors.LogCursorIdentifies | internal/application/collection/newapi_parser.go:54-59 | Two log cursors are equal exactly when second, type order and identifier are |
| Cursors.CompareLaws | internal/domain/measurement/types.go:107-121 | Comparison is antisymmetric, and zero exactly on equal cursors |
| LogHash.EqualHashes | internal/domain/measurement/newapi.go:348-360 | Two records have the same source hash exactly when source, site and every field but the error text agree |
| LogHash.DigestsIdentify | internal/domain/measurement/newapi.go:152-287 | Log, attempt, request, quarantine and revision digests feed the hash the same bytes only when they are of one kind and taken of the same things |
| ErrorClasses.ClassifiedErrorValid | internal/domain/measurement/errors.go:18-38 | A classified error passes validation exactly when its summary is storable |
| Conversion.FailuresExplainOnce | internal/domain/measurement/newapi.go:205-224 | A failure record explains at most one attempt, on its own channel; an attempt stays unexplained only when every failure on its channel is used by an earlier attempt |
| Conversion.GroupComplete | internal/domain/measurement/newapi.go:190-278 | The facts of one request have ordinals 1 to n without gaps, and exactly the last attempt is final and agrees with the request |
| Conversion.AttemptIdentified | internal/domain/measurement/newapi.go:228-246 | Attempts of one request have different source hashes, and every hash quotes a record of that request |
| Conversion.GroupValid | internal/domain/measurement/validation.go:65-134 | The request and attempts of one group pass every field rule exactly when their evidence can be stored |
| RequestFacts.ReasonExactly | internal/domain/measurement/newapi.go:121-149 | A record is set aside for the first of eight faults in its fields, in the order in which they are looked for, and converted exactly when it has none |
| RequestFacts.ChannelsTried | internal/domain/measurement/newapi.go:164-173 | The channels tried are the list of the record that no other list is longer than and every later one shorter, with the last record's channel added exactly when the list is empty or does not end in it |
| RequestFacts.KthTryKthFailure | internal/domain/measurement/newapi.go:205-224 | The k-th earlier try of a channel is explained by the k-th failure recorded on it, and by none when there are fewer |
| RequestFacts.FactsExact | internal/domain/measurement/newapi.go:163-346 | Every field of the request and of each attempt, in terms of the records: results and error classes by code, then status, then text, cut streams, tokens, durations, attribution, hashes |
| RequestFacts.FactsOnce | internal/domain/measurement/newapi.go:163-346 | No other facts say the same: the records determine request and attempts |
| Batches.BatchValid | internal/domain/measurement/validation.go:149-229 | A whole-window batch meets every structural and field rule exactly when its evidence can be stored and no two invalid records share a cursor |
| Batches.ConvertSucceeds | internal/domain/measurement/newapi.go:59-119 | Converting a window succeeds exactly under the conditions on scope, cursors, evidence and invalid records, all of them checkable beforehand |
| Batches.EachRecordOnce | internal/domain/measurement/newapi.go:72-104 | Every input survives as exactly one distinct record, which lands in exactly one request group or among the quarantined ones |
| Batches.NextCursorFacts | internal/domain/measurement/newapi.go:83-95 | The next cursor is the old one or that of a record, and no record and no start lies beyond it |
| BatchFacts.WindowTold | internal/domain/measurement/newapi.go:59-119 | Each distinct record of a converted window is told: one without fault by the facts of its request, which say what all such records of the request show, one with a fault by a quarantine for its first fault |
| BatchFacts.GroupExactly | internal/domain/measurement/newapi.go:72-104 | The group of a request is every faultless distinct record of it, in cursor order |
| PerRequest.ByRequestSucceeds | internal/application/collection/service.go:277-315 | Converting request by request succeeds under exactly the same conditions as converting the whole window |
| PerRequest.ByRequestAgrees | internal/application/collection/service.go:277-315 | Request-by-request conversion gives the batch of whole-window conversion up to order, with the same next cursor |
| Converter.ChannelSequence | internal/domain/measurement/newapi.go:164-173 | The result is the longest reported list, the last one on ties, with the terminal channel appended exactly when the list is empty or does not end in it |
| Converter.ExplainAttempt | internal/domain/measurement/newapi.go:216-223 | The search marks and returns the first unused failure on the channel |
| Converter.NextAttempt | internal/domain/measurement/newapi.go:207-275 | One pass of the loop appends the attempt the specification names and leaves the failures it uses marked |
| Converter.ConvertRequest | internal/domain/measurement/newapi.go:163-278 | Request and attempts say, field by field, what the records show; the attempts run over exactly the tried channels, numbered from 1 |
| Converter.DealOne | internal/domain/measurement/newapi.go:79-104 | A new record goes to its group or is quarantined, exactly as validity says |
| Converter.Deal | internal/domain/measurement/newapi.go:79-104 | The grouping loop yields the deduplicated records by request, the quarantines and the next cursor |
| Converter.ConvertLogs | internal/domain/measurement/newapi.go:59-119 | The imperative converter computes the specified conversion |
| Converter.ConvertRequests | internal/application/collection/service.go:277-315 | The collector's grouping and conversion loop computes the specified request-by-request conversion |
| Converter.ValidateRequests | internal/domain/measurement/validation.go:168-178 | The request loop accepts exactly distinct requests that pass the rule, and leaves them indexed |
| Converter.ValidateAttempts | internal/domain/measurement/validation.go:180-199 | The attempt loop accepts exactly attempts with distinct hashes and distinct ordinals per request that pass the rule |
| Converter.ValidateCompleteness | internal/domain/measurement/validation.go:200-216 | The completeness loop accepts exactly requests whose attempts are numbered 1 to n and agree with them |
| Converter.Validate | internal/domain/measurement/validation.go:149-229 | The validator with its three maps accepts exactly the valid batches |
| RemoteLogs.WindowSplits | internal/application/collection/newapi_parser.go:16-100 | Exactly the consume and error logs with a duration that fits become inputs, in order, with result, code, text, milliseconds and tokens as the log shows them; all others are set aside in order, for the duration first and for the type otherwise |
| RemoteLogs.WindowConverts | internal/application/collection/newapi_parser.go:16-100 | Logs identified by their positions, with storable summaries, always convert, however malformed they are |
| CollectedWindow.WindowBatchSucceeds | internal/application/collection/service.go:118-140 | A window commits exactly when its inputs convert and no two positions among invalid and set-aside logs coincide |
| CollectedWindow.WindowAlwaysCommits | internal/application/collection/service.go:118-140 | Distinct, well identified logs with storable summaries always give a batch that passes validation |
| CollectedWindow.RepeatedAsideFails | internal/application/collection/newapi_parser.go:16-44 | Two logs set aside at one position make the window fail, wherever they are in it and whatever else is in it |
| CollectedWindow.FurthestExactly | internal/application/collection/service.go:128-133 | The next cursor of a window is the batch's or a position set aside, and none of them lies beyond it |
| LogWindows.ReadType | internal/application/collection/service.go:210-239 | Over a steady site, complete reading returns exactly the matching records, and overflow is reported only above 10000; over any site at most 10000 are returned |
| LogWindows.ReadWindow | internal/application/collection/service.go:208-250 | Over a steady site a window overflows exactly when one type exceeds 10000, and otherwise all records of both types come back sorted |
| LogWindows.PlanTiles | internal/application/collection/service.go:166-206 | The visited windows own adjacent ranges that make up the scan, each read without overflow from no later than its first owned second |
| LogWindows.PlanRanges | internal/application/collection/service.go:166-206 | A scan of n seconds considers at most max(1, 2n - 1) ranges |
| LogWindows.PlanDense | internal/application/collection/service.go:188-198 | The scan gives up exactly when some single second in range overflows by itself |
| LogWindows.PlanDenseEmpty | internal/application/collection/service.go:188-198 | With nothing new to own, it gives up exactly when the last second overflows |
| LogWindows.PlanCovers | internal/application/collection/service.go:166-206 | Every log of the scanned seconds is among the records of the visited window that owns its second |
| LogWindows.WindowExactly | internal/application/collection/service.go:208-250 | A window holds exactly the consume and error logs of its seconds, and overflows exactly above 10000 of one type |
| LogWindows.LogOrderExactly | internal/application/collection/service.go:240-248 | Logs are sorted as their cursors compare |
| LogWindows.PlanReadsDue | internal/application/collection/service.go:176-198 | Every visited window reads exactly the seconds from the lower bound and within the overlap before its own, or its last second alone where those overflow; none reads before the lower bound |
| LogWindows.PlanReaches | internal/application/collection/service.go:166-206 | Over a steady site each log within the overlap before the scan, or in it, is in a visited window, unless it lies before the scan and the first window had to be narrowed to its last second |
| CollectRun.SplitLogs | internal/application/collection/newapi_parser.go:16-44 | The parsing loop fails exactly when some log has no valid position; otherwise the logs taken and set aside are those of RemoteLogs.WindowSplits |
| CollectRun.ConvertWindow | internal/application/collection/service.go:110-131 | What the visit builds from a window is the specified batch, validated |
| CollectRun.Sweep.Visit | internal/application/collection/service.go:109-153 | A visit moves the store by exactly the batch of the logs read, from the position the sweep last saw, or changes nothing; it fails only when the logs give no batch or the save is refused |
| CollectRun.Sweep.Probe | internal/application/collection/service.go:176-198 | What reading a range finds, with the retry for its last second, is what the plan of the scan says |
| CollectRun.Sweep.Walk | internal/application/collection/service.go:166-206 | What was committed is always an initial part of the planned windows, all of them on success, and the watermark is that of the last one |
| CollectRun.Collect | internal/application/collection/service.go:73-164 | Starts from the stored watermark or a day back and refuses a watermark in the future; over a steady site success means that the watermark is now and each log since the old one, or within the overlap before it, is in a visited window, none of which reads before that; a reliable steady site is always read |
| MeasurementStore.ReviseHistory | internal/adapters/storage/postgres/measurement.go:232-276 | A revision retires the current row of its request, appends the next number, and leaves every other request alone |
| MeasurementStore.ReviseGood | internal/adapters/storage/postgres/measurement.go:232-276 | After every revision each request has one current row, revisions count up by one, and terminal cursors never decrease |
| MeasurementStore.CommitKeeps | internal/adapters/storage/postgres/measurement.go:119-230 | Every accepted save keeps these histories, never moves cursor or watermark back, and removes no revision |
| MeasurementStore.CommitAttempts | internal/adapters/storage/postgres/measurement.go:152-198 | A save stores all attempts of the revisions it writes, so every stored revision has all its attempts |
| MeasurementStore.SaveExactly | internal/adapters/storage/postgres/measurement.go:119-276 | What a save leaves: the cursor and watermark as they read back, each request's history with its fact as latest revision exactly when that is new and not older, all other histories, exactly the attempts of new revisions, and all quarantines |
| MeasurementStore.SavesExactly | internal/adapters/storage/postgres/measurement.go:119-276 | A save is accepted exactly for a valid batch and window that start where the store stands, when no new revision's key is stored or repeated and none exceeds the revision limit |
| MeasurementStore.ResaveOne | internal/adapters/storage/postgres/measurement.go:244-274 | A revision stored before is never written again; it is accepted exactly when it is current or older than the current one |
| MeasurementStore.ResaveWritesNothing | internal/adapters/storage/postgres/measurement.go:152-198 | After any later saves, saving known facts again writes no request and no attempt |
| MeasurementStore.RevertedRevisionRefused | internal/adapters/storage/postgres/measurement.go:268-274 | Saving the first of two revisions at one terminal position again fails the batch |
| LateFailure.TwoRevisions | internal/domain/measurement/newapi.go:190-286 | A request with and without its earlier failure record has two different revisions at one terminal position |
| LateFailure.RetriedWindows | internal/application/collection/newapi_parser.go:16-44 | The logs of every retried request make a window with both and a window after the failure |
| LateFailure.LateFailureRefused | internal/adapters/storage/postgres/measurement.go:119-230 | A window with the end alone, then one with the failure too, are saved; a third that starts after the failure is refused as a whole |
| MeasurementStore.PrepareRevision | internal/adapters/storage/postgres/measurement.go:232-276 | Skip, supersede and insert, or refuse: the method does what the specification of a revision says |
| MeasurementStore.Store.ReviseRequests | internal/adapters/storage/postgres/measurement.go:147-163 | The loop revises all requests in order and stops at the first refusal |
| MeasurementStore.Store.Save | internal/adapters/storage/postgres/measurement.go:119-230 | Accepted under exactly the conditions of SavesExactly, it leaves what SaveExactly says; refused, it leaves the store as it was |
| CollectionProtocol.NoSecondSkipped | internal/application/collection/service.go:93-158 | In every reachable state, every second from the first commit's start to the watermark was read by a complete, non-overflowing window whose batch was saved; its requests, attempts and quarantines are stored, or a revision at least as late replaced the request |
| CollectionProtocol.CommitsChain | internal/adapters/storage/postgres/measurement.go:143-150 | Every commit starts from the cursor and watermark the one before it left, and the last one is what is stored |
| CollectionProtocol.NeverBack | internal/adapters/storage/postgres/measurement.go:209-226 | Between any two moments of any run neither watermark nor cursor moved back and no stored revision disappeared |
| CollectionProtocol.VisibleRecordRead | internal/application/collection/service.go:208-250 | A log visible when its window was read is converted or set aside by that window's batch |
| CollectionProtocol.OverlapRead | internal/application/collection/service.go:93-206 | In every reachable state a saved window, unless only its last second could be read, holds each log the site showed within the overlap before the window's seconds, back to the first window's start |
| CollectionProtocol.ScanProceeds | internal/application/collection/service.go:166-206 | A collector with seconds left can read its window, split it, or read its last second; only a single second that overflows by itself stops it |
| CollectionProtocol.SaveProceeds | internal/adapters/storage/postgres/measurement.go:119-230 | In every reachable state a held window can be saved exactly when its logs give a batch, nobody saved since, and no request of the batch refuses |
| CollectionProtocol.ReviseAllKeepsThem | internal/adapters/storage/postgres/measurement.go:151-163 | After a save every fact of the batch is stored, or a revision at least as late is current |
| CollectionProtocol.CommitKeepsBatches | internal/adapters/storage/postgres/measurement.go:119-230 | Later saves keep every earlier batch represented |
| NameLists.NamesRoundTrip | internal/adapters/gateway/newapi/read.go:119-129 | Joining names with commas and splitting, trimming and sorting them again gives the same names exactly when none is padded |
| ChannelCodec.MapsEqualExact | internal/application/reconciliation/diff.go:167-177 | Comparing renamings with absent keys read as empty text is equality of maps, because no upstream name is empty |
| ChannelCodec.GroupKeysExact | internal/domain/routing/site_snapshot.go:18-22 | The groups of a valid channel are its own and its extra groups, each once, sorted |
| ChannelCodec.MappingExactly | internal/application/reconciliation/diff.go:79-87 | A model is in the renamings exactly when some route renames it, with the upstream name of the last such route |
| ChannelCodec.MatchesExact | internal/application/reconciliation/diff.go:73-98 | A channel matches exactly when its fields are equal, models and groups compared without regard to order, and its renamings are those of the routes that rename their model, each to its upstream name, and no others |
| ChannelCodec.WriteReadMatches | internal/adapters/gateway/newapi/write.go:75-113 | Writing a validated channel and reading it back matches exactly when no model or group name is padded |
| ChannelCodec.EnteredExactly | internal/domain/supplier/supplier.go:164-176 | The names that can be entered are exactly the trimmed ones of 1 to 191 bytes without commas or line breaks |
| ChannelCodec.EnteredChannelMatches | internal/domain/supplier/supplier.go:164-176 | With names trimmed as they are entered and generated group keys, a written channel always matches |
| ChannelCodec.PaddedNameFails | internal/domain/routing/snapshot.go:176-199 | A channel with a padded model name would pass snapshot validation and not match what it wrote |
| ChannelCodec.BuildPayload | internal/adapters/gateway/newapi/write.go:75-113 | Refuses exactly an unknown protocol; otherwise the payload has the channel's fields, the model names sorted, own and extra groups sorted and once each, and an entry for exactly the renamed models |
| ChannelCodec.SplitCsv | internal/adapters/gateway/newapi/read.go:119-129 | The loop returns the trimmed, non-empty parts, sorted |
| ChannelCodec.ReadChannel | internal/adapters/gateway/newapi/read.go:88-117 | Fields are taken over, slashes at the end of the URL dropped, names split, trimmed and sorted, and the protocol is known exactly for type 1 |
| ChannelCodec.ConfigurationMatches | internal/application/reconciliation/diff.go:73-98 | Accepts a channel of a valid plan exactly when it is the same but for the order of its lists, renamings included |
| SiteState.RemoteRoundTrips | internal/application/reconciliation/site_resource.go:137-139 | The program's codec is faithful exactly on validated channels without padded names |
| SiteState.LocateOwned | internal/application/reconciliation/diff.go:11-37 | A managed channel is found exactly when no two carry its tag and the bound one carries it, and then it is the only one with the tag |
| SiteState.LocateExactly | internal/application/reconciliation/diff.go:11-37 | Two channels with the tag are a conflict; otherwise an identifier in use for another tag is a mismatch; otherwise the channel with the tag is found, or there is none |
| SiteState.LocateManagedChannel | internal/application/reconciliation/diff.go:11-37 | The search loop computes the specified lookup with its two conflicts |
| SiteState.MergeRatiosExact | internal/application/reconciliation/diff.go:39-56 | Merging succeeds exactly for positive planned and acceptable current ratios; it sets every planned ratio, keeps all others, and reports a change exactly when there is one |
| SiteState.MergeAccepts | internal/application/reconciliation/diff.go:39-56 | Ratios are merged exactly when all planned ones are positive numbers and all current ones non-negative numbers |
| SiteState.MergeVisibilityExact | internal/application/reconciliation/diff.go:58-71 | Merging sets every planned entry and keeps all others; the change it reports is the difference it can see |
| SiteState.NothingDiffers | internal/application/reconciliation/diff.go:58-71 | No change is reported exactly when every entry is as planned, or missing for a visible group without a name |
| SiteState.NamedNothingDiffers | internal/domain/routing/site_snapshot.go:46-53 | For named groups, as snapshots require, a change is reported exactly when an entry is not as planned |
| SiteState.UnnamedStaysMissing | internal/application/reconciliation/diff.go:58-71 | The missing entry of a visible group without a name is reported as no change and stays missing |
| SiteState.MergePlanRatios | internal/application/reconciliation/site_service.go:73-81 | The loop over the plan's groups computes the specified merge |
| SiteState.MergePlanVisibility | internal/application/reconciliation/site_service.go:112-117 | The loop over the plan's groups computes the specified merge |
| SiteState.VerifyGroups | internal/application/reconciliation/site_verify.go:8-23 | Passes exactly when every planned ratio, and on request every planned entry, is exact |
| SiteState.VerifyUnmanaged | internal/application/reconciliation/diff.go:133-165 | Passes exactly when every setting outside the plan, except one with an empty key, is as before |
| SiteState.VerifySite | internal/application/reconciliation/site_verify.go:25-57 | Passes exactly when groups and channels are as planned and all other settings as before |
| SiteState.ExactMeans | internal/application/reconciliation/site_verify.go:8-57 | What verification passes, entry by entry: ratios and entries of the plan, settings outside it, and for each resource no conflict and a channel in service and as planned, or off |
| SiteGateway.Gateway.Create | internal/adapters/gateway/newapi/write.go:39-47 | A created channel starts switched off with a new identifier; the attempt is noted even when it fails |
| SiteGateway.Gateway.Update | internal/adapters/gateway/newapi/write.go:49-57 | An update replaces the configuration and leaves the status alone |
| SiteGateway.Gateway.SetEnabled | internal/adapters/gateway/newapi/write.go:65-73 | Sets the status of one channel |
| SiteGateway.Gateway.SetGroupRatios | internal/adapters/gateway/newapi/write.go:17-23 | Replaces the ratios, and refuses a negative or malformed one |
| SiteGateway.Ledger.Confirm | internal/adapters/storage/postgres/reconciliation_site.go:51-69 | A confirmation stores channel, plan version and enabled flag, and the credential only when it was written |
| OperatorSwitch.SwitchFollowsLook | internal/application/reconciliation/site_resource.go:42-126 | In every run, wherever it stops, a channel is put in service only where its first look found the credential at hand and the channel not locked, and either called for a write, which was sent, or showed the channel out of service |
| OperatorSwitch.OverrideExactly | internal/application/reconciliation/site_resource.go:42-126 | For every well-formed plan a run can put a channel in service that its operator switched off after the first look exactly when that look leads to putting it in service |
| SiteSafety.SafePrefix | internal/application/reconciliation/site_service.go:56-129 | Safety of a log is safety of every prefix: each event was allowed by what came before it |
| SiteEffects.StatusTouches | internal/adapters/gateway/newapi/write.go:65-73 | Switching one managed channel leaves every other managed channel and every binding as it was |
| SiteEffects.CreateTouches | internal/adapters/gateway/newapi/write.go:39-47 | Creating a channel with a new identifier leaves every other managed channel and every binding as it was |
| SiteWorld.LockedExactly | internal/application/reconciliation/site_resource.go:56-60 | The lock stands exactly unless the channel is absent or not switched off by hand, not wanted enabled, never confirmed, last confirmed disabled, or resumed by the plan |
| SiteSync.SiteRun.DisableResource | internal/application/reconciliation/site_resource.go:10-40 | Succeeds only after a read showed the channel absent or switched off; over a steady gateway it switches off exactly that channel and confirms it |
| SiteSync.SiteRun.Examine | internal/application/reconciliation/site_resource.go:42-60 | Fails for a manual lock exactly when a read came back, an enabled resource has its credential, ownership is clear, and the channel is switched off by hand though wanted enabled, confirmed before, last confirmed enabled or unknown, and not resumed; goes on exactly when that last part does not hold |
| SiteSync.SiteRun.EnsureWritten | internal/application/reconciliation/site_resource.go:61-90 | Writes only when the channel is missing, differs or its credential changed, and then finds it again by reading |
| SiteSync.SiteRun.TestChannel | internal/application/reconciliation/site_resource.go:100-121 | A channel that was written, is not in service or was never confirmed has passed its test afterwards, and one that was never confirmed and is out of service was written again; any other is left alone |
| SiteSync.SiteRun.SwitchOn | internal/application/reconciliation/site_resource.go:122-126 | Only possible after all shutdowns, settled prices, a passed test in this run and an unlocked first look, for a channel last seen out of service, and without a needed write only if the last look is the first |
| SiteSync.SiteRun.ConfirmApplied | internal/application/reconciliation/site_resource.go:127-148 | Confirms only what a read after all writes shows to be equal to the plan, and succeeds only once the store has the plan version and the switch |
| SiteSync.SiteRun.ApplyResource | internal/application/reconciliation/site_resource.go:42-149 | Every write it issues is allowed; over a steady gateway a ready resource ends up as planned and confirmed with its credential, nothing is written when it already was, and a locked one is refused with nothing changed |
| SiteStages.ShutOne | internal/application/reconciliation/site_service.go:56-65 | Shutting one resource down keeps the others ready and the ones done off |
| SiteStages.ApplyOne | internal/application/reconciliation/site_service.go:95-107 | Applying one resource keeps the others ready or settled |
| SiteRunner.CheckOwnership | internal/application/reconciliation/site_service.go:50-54 | Passes exactly when every managed channel of the plan is unambiguous |
| SiteRunner.ShutDownAll | internal/application/reconciliation/site_service.go:56-65 | Afterwards a read showed every disabled resource off |
| SiteRunner.SetPrices | internal/application/reconciliation/site_service.go:66-94 | Success follows a reread of exact ratios with the pricing basis checked before and after; over a steady gateway only the planned ratios move |
| SiteRunner.ApplyAll | internal/application/reconciliation/site_service.go:95-107 | Afterwards a read showed every enabled resource on and equal to the plan, and the store confirmed it |
| SiteRunner.SetVisibility | internal/application/reconciliation/site_service.go:108-122 | Only possible once prices were reread and every enabled resource was seen on and confirmed in the store; exactly the planned entries change |
| SiteRunner.Finish | internal/application/reconciliation/site_service.go:123-142 | Completes only when the last state read is as planned and, elsewhere, as in the first read |
| SiteRunner.RunSite | internal/application/reconciliation/site_service.go:22-144 | On every prefix of every run each write was allowed; completion means the last state read is exact; over a steady gateway a ready site completes settled, each channel that was switched off by hand and is resumed by the plan ends enabled, as planned and confirmed, and a settled site sees no write |
| SiteRunner.ReadyButForLocks | internal/application/reconciliation/site_resource.go:56-60 | A plan that is ready once every relation is resumed is ready exactly when no channel is locked by hand |
| SiteRunner.SettledReady | internal/application/reconciliation/site_service.go:22-144 | A settled site is, with its confirmations loaded again, ready and settled |
| SiteRunner.RunTwice | internal/application/reconciliation/site_service.go:22-144 | Two runs in a row: the first settles the site, the second completes, changes nothing and sends nothing but reads |
| ManagedSync.ManagedFits | internal/application/reconciliation/site_managed_sync.go:191-222 | The batch path is taken only by approved sites whose limits cover every channel, group and group key of the plan |
| ManagedSync.RouteExactly | internal/application/reconciliation/site_managed_sync.go:13-48 | The batch path is taken exactly by approved sites that announce the contract, every feature, a known database and their pricing, and whose limits fit the plan; the staged path exactly where the interface is denied, missing or unavailable |
| ManagedSync.BuildEntries | internal/application/reconciliation/site_managed_sync.go:84-120 | One entry per resource in order; refused exactly when an enabled resource lacks its credential or one at hand cannot be decrypted |
| ManagedSync.ApplyBatch | internal/application/reconciliation/site_managed_sync.go:50-143 | A request is sent exactly when a sound state was read and every credential is readable; it mirrors the plan and is guarded by that state; success exactly when moreover the reply is sound and the result exact |
| ManagedSync.ConfirmAll | internal/application/reconciliation/site_managed_sync.go:145-176 | Each confirmation names the channel that carries the tag in the state the batch left, the plan version and the wanted status, and the planned credential exactly when it was sent and the channel was missing or had another version of it |
| ManagedSync.RunManagedSite | internal/application/reconciliation/site_managed_sync.go:50-189 | Nothing is confirmed unless the result is exact; over a steady store it completes exactly when the batch succeeds, with one request and all confirmations |
| PlanFence.WriteCurrentExactly | internal/application/reconciliation/service.go:57-101 | Whatever happens to locks, a write carries the version current at the last reload, and is current exactly when no edit published anything new since |
| PlanFence.LockFreezesPlans | internal/adapters/storage/postgres/operations_transaction.go:134-144 | While a worker holds the site lock no plan is published |
| PlanFence.WritesAreCurrent | internal/application/reconciliation/service.go:57-101 | As long as no lock session dies, every write for a plan happens while that plan is current |
| PlanFence.VersionsNeverGoBack | internal/adapters/storage/postgres/operations_transaction.go:134-144 | So the plan versions reaching a site never decrease, over any interleaving of edits and workers |
| PlanFence.EditsExcludeWriters | internal/adapters/storage/postgres/operations_plan.go:66-99 | No edit publishes while a worker writes, and a superseded worker writes nothing |
| PlanFence.LostLockWritesStale | internal/adapters/storage/postgres/site_lock.go:20-52 | With a lost lock session version 1 is written after version 2 |
| SyncService.Run | internal/application/reconciliation/service.go:57-101 | The site is touched only after the reload under the lock showed plan and operation open, and with the store reachable always then; completion by either path means the site is exact; the lock is given back |
| SyncService.Synchronize | internal/application/reconciliation/site_managed_sync.go:13-48 | Takes the staged path where the batch interface is denied, missing or unavailable, the batch path where it is announced and fits, and refuses otherwise; completion means the same on both |
| EvaluationPlan.PlanDistinct | internal/application/evaluation/execute.go:193-229 | The probes of a plan have different key and index |
| EvaluationPlan.CellPlan | internal/application/evaluation/execute.go:196-211 | Twelve samples for each of eight cells in turn, each drawing one of two variants at its place in the sequence |
| EvaluationPlan.SumPlan | internal/application/evaluation/execute.go:214-226 | One or three sums, each drawing left and then right operand between 10 and 49 |
| EvaluationPlan.SampleIdentityInjective | internal/application/evaluation/execute.go:263-265 | The text identity of a sample determines key and index although keys contain colons |
| EvaluationRun.ExecuteProbe | internal/application/evaluation/execute.go:75-97 | A probe is sent at most once and only when the sample did not exist; over a reliable connection a new one is sent and its outcome stored |
| EvaluationRun.Conclude | internal/application/evaluation/execute.go:98-123 | Success exactly when the samples are as many as planned, all outcomes are known and the run was running; otherwise an unfinished run becomes uncertain for a wrong count and failed for an unknown outcome |
| EvaluationRun.Execute | internal/application/evaluation/execute.go:32-124 | From whatever earlier executions left, each missing sample is probed at most once, and success means exactly the plan with known outcomes; over a reliable connection the missing ones are sent in order, and it succeeds exactly when the run was running and nothing earlier was left open |
| EvaluationProtocol.ProbedAtMostOnce | internal/application/evaluation/execute.go:75-97 | Over all retries, crashes and overlapping workers no run, key and index is sent twice |
| EvaluationProtocol.SucceededIsComplete | internal/adapters/storage/postgres/evaluation.go:279-371 | A succeeded run has exactly the samples its seed determines, with their variants and known outcomes |
| EvaluationProtocol.DailyBudgetHolds | internal/adapters/storage/postgres/evaluation.go:104-148 | The runs created on one day for one supplier and model never cause more than 200 probes |
| EvaluationProtocol.ProgramPlansGood | internal/application/evaluation/service.go:287-298 | The program's plans have the planned size and distinct probes, as these results require |
| EvaluationProtocol.EndedStays | internal/adapters/storage/postgres/evaluation.go:575-597 | A run that succeeded or failed never changes again |
| EvaluationProtocol.CheckFailsExactly | internal/application/evaluation/execute.go:98-112 | A check ends an unfinished run as failed exactly when all planned samples exist and some outcome is unknown |
| EvaluationProtocol.OverlapEndsRun | internal/application/evaluation/execute.go:105-112 | In every execution, a worker that finds all samples of a run while another holds one of its probes, sent or not, ends the run as failed for good |
| EvaluationProtocol.OverlapReached | internal/application/evaluation/execute.go:62-112 | For all plans there is an execution in which that happens while a probe is waiting for its answer |
| Histogram.SampleCount | internal/domain/scoring/histogram.go:52-61 | The guarded sum never wraps and is reported exactly when it fits |
| Histogram.RankIsCeiling | internal/domain/scoring/histogram.go:130-134 | The rank is samples times percent over 100, rounded up, and between 1 and the sample count |
| Histogram.PercentileRank | internal/domain/scoring/histogram.go:130-134 | Computed in 64-bit words nothing wraps |
| Histogram.FindPercentile | internal/domain/scoring/histogram.go:94-128 | Succeeds exactly for percents from 1 to 100 and totals from 1 to 64 bits, with the rounded-up rank and the bucket where the running total reaches it; the total cannot wrap and the last error is unreachable |
| Histogram.TallyPermuted | internal/domain/scoring/histogram.go:38-50 | A histogram does not depend on the order of its samples |
| Histogram.BucketTable | internal/domain/scoring/histogram.go:12-30 | A sample is counted in the first of the seventeen buckets whose bound it does not exceed |
| Histogram.PercentileIsNearestRank | internal/domain/scoring/histogram.go:92-128 | For samples in any order, the one at the rounded-up position of the ordered samples lies in the returned bucket and within its bounds |
| Histogram.PercentilesOrdered | internal/domain/scoring/histogram.go:145-169 | Higher percentiles lie in the same or a later bucket, for any histogram |
| Histogram.Merge | internal/domain/scoring/histogram.go:63-80 | Merging succeeds exactly when neither a bucket nor the total wraps, and adds up bucket by bucket |
| Histogram.MergeIsConcatenation | internal/domain/scoring/histogram.go:63-80 | Merged histograms of sample lists are the histogram of the concatenated list |
| Histogram.Summarize | internal/domain/scoring/histogram.go:145-169 | Succeeds exactly on countable, non-empty totals, with P50, P90 and P95 of the merged counts in order |
| Histogram.SummaryOfConcatenation | internal/domain/scoring/histogram.go:144-169 | Percentiles of merged histograms are those of the histogram of all samples together |
| Histogram.MergedIsNearestRank | internal/domain/scoring/histogram.go:144-169 | So a percentile of merged histograms is the nearest rank among all their samples |
| Scoring.ScoreDimension | internal/domain/scoring/dimensions.go:212-240 | The accumulating loop computes the clamped weighted sum, or refuses invalid rules; what that is says Scoring.DimensionExactly |
| Scoring.NormalExactly | internal/domain/scoring/dimensions.go:242-251 | The best value scores 100, the worst 0, values between them in proportion, and values beyond an end as that end; only a rule without a scale gives none |
| Scoring.DimensionExactly | internal/domain/scoring/dimensions.go:212-251 | A dimension is the sum of its metrics' scores times their weights, at most 100; refused exactly for a rule without a scale, a weight outside 0 to 1, or weights that do not sum to 1 |
| Scoring.NormalizeMonotone | internal/domain/scoring/dimensions.go:242-251 | A value nearer to the best end never normalizes lower, whichever way the scale runs |
| Scoring.DimensionMonotone | internal/domain/scoring/dimensions.go:212-251 | Improving any raw metric never lowers the dimension score |
| Scoring.AssessEvidence | internal/domain/scoring/evidence.go:71-143 | Refused exactly for blank gaps and unknown or repeated factors; usable exactly with enough samples, no gap, nothing pending and all eight factors above insufficient, ready when none is low, and as confident as its lowest factor |
| Scoring.LowestRankExact | internal/domain/scoring/evidence.go:100-133 | The lowest rank reaches a level exactly when every factor does |
| WindowScores.EffectiveWeightsSumToOne | internal/domain/scoring/windows.go:103-112 | Redistributed weights are not negative and sum to 1 |
| WindowScores.AverageWithin | internal/domain/scoring/windows.go:107-121 | Each combined score lies between any bounds of the usable windows' scores, so between their minimum and maximum |
| WindowScores.DecisionReadyExactly | internal/domain/scoring/windows.go:123-136 | A combination is ready exactly when all three windows are present, complete and ready by themselves |
| WindowScores.CompositeDefined | internal/domain/scoring/types.go:143-176 | Every kind's fixed weights sum to 1, so valid scores always have a composite between 0 and 100 |
| WindowScores.CompositeExactly | internal/domain/scoring/types.go:143-186 | The composite of each kind as a formula over the four scores; it exists exactly for scores between 0 and 100 |
| WindowScores.CombinedMonotone | internal/domain/scoring/windows.go:103-121 | For fixed usable windows better dimension scores never lower any composite |
| WindowScores.RawMonotone | internal/domain/scoring/dimensions.go:212-251 | From end to end: with windows, completeness and evidence unchanged, improving any raw metric never lowers a composite of any kind |
| WindowScores.WeightedAverage | internal/domain/scoring/windows.go:107-121 | The summing loop computes the clamped average under the effective weights |
| WindowScores.CombineWindowScores | internal/domain/scoring/windows.go:37-137 | The loops over inputs and configured windows compute the specified combination |
| WindowScores.CombineExactly | internal/domain/scoring/windows.go:37-137 | Each combined score is the average of that score over the complete windows with usable evidence, weighted 0.5, 0.3 and 0.2 in proportion; confidence is the lowest of them less one level per window that does not count; ready when all three are; refused exactly for unknown or repeated windows, invalid evidence, or a score out of range in a window that counts |
| Advice.ExclusionIsUniform | internal/domain/scoring/recommendation.go:54-80 | Exclusion depends on the gates alone, so all kinds of one score run agree on it |
| Advice.GatesExactly | internal/domain/scoring/gates.go:43-89 | The failed and the pending gates are listed exactly, each once and in order; only a limit of zero is refused |
| Advice.RecommendExactly | internal/domain/scoring/recommendation.go:52-148 | The advice in every case: excluded for a failed gate, watched for a pending one or windows not ready, otherwise keep, exit, join or watch by score and streak |
| Advice.JoinNeedsTwo | internal/application/scoring/service.go:252-296 | Advice to join needs this score and a recent, confident previous one at the joining line |
| Advice.ExitNeedsTwo | internal/application/scoring/service.go:252-296 | Advice to leave needs this score and a recent, confident previous one below the leaving line |
| Advice.AdviceExactly | internal/application/scoring/service.go:178-296 | A score run advises to join exactly at 75 points now and in a reliable run at most ten minutes back, to leave exactly below 50 both times, to keep a member exactly at 50 or more, and to exclude exactly for a failed gate |
| Advice.NoFlip | internal/domain/scoring/recommendation.go:118-148 | For one model joining and leaving advice never follow each other directly |
| Automation.MakeDecision | internal/domain/automation/decision.go:53-131 | The pass over the models decides as Automation.DecideExactly says, and refuses unnamed, repeated or unreferenced models |
| Automation.DecideExactly | internal/domain/automation/decision.go:53-131 | The decision in every case by the models' actions: target, act, hold action and reasons; made exactly for at least one model, all named, with snapshots and distinct |
| Automation.DecideStrategy | internal/application/automation/service.go:141-191 | Deciding in the evolving member set equals deciding against the members before the run, and a change is reported exactly when there is one |
| Automation.NewMembersOrder | internal/application/automation/service.go:147-168 | The order of the candidates does not matter |
| Automation.ChangedExactly | internal/application/automation/service.go:160-162 | Members change exactly when some decision differs from membership |
| Automation.EntryFollowsMembers | internal/application/automation/service.go:174-184 | Whether an entry is offered never changes, and it is open exactly when it has members |
| AutomationRuns.MembersAfterRun | internal/application/automation/service.go:141-191 | New members are the old ones without the candidates, plus the targeted candidates; strategies kept by hand stay |
| AutomationRuns.RunCompletes | internal/application/automation/service.go:65-139 | A run that is ready, accepted and well advised completes; one that is not changes nothing |
| AutomationRuns.MembersByAdvice | internal/domain/automation/decision.go:98-131 | After a completed run a candidate of an enabled automatic strategy that was a member and not held is one exactly when no model says to leave or excludes it; any other exactly when all models say to join |
| AutomationRuns.HoldsByAdvice | internal/domain/automation/decision.go:98-117 | A held relation stays held exactly until all its models in some such strategy say to join; one that is not held becomes held exactly when a model in one excludes it |
| AutomationRuns.EntryAfterRun | internal/application/automation/service.go:174-190 | After a completed run an entry of an enabled automatic strategy is visible exactly when it is offered and has members, and closed exactly when it is offered and has none |
| AutomationRuns.ScoresAreUniform | internal/application/scoring/service.go:181-204 | Because hard gates are judged once per relation and model, every strategy of a run sees the same exclusions |
| AutomationRuns.NeverAppliesAndClears | internal/adapters/storage/postgres/automation_write.go:245-313 | No run over the advice of a score run both applies and clears a hold on one relation |
| AutomationRuns.HeldNotMember | internal/domain/automation/decision.go:98-117 | After a completed run no held relation is in a processed strategy it was a candidate of |
| AutomationRuns.OffersStay | internal/application/automation/service.go:174-184 | Over any sequence of runs, what is offered and what is automatic stays as the operator set it |
| AutomationRuns.EveryRunKeeps | internal/application/automation/service.go:65-139 | After every completed run of a sequence: open exactly when offered with members, and nobody both held and a member |
| AutomationRuns.PromptRunIsRun | internal/adapters/storage/postgres/automation_write.go:48-153 | When nothing happens between loading and applying, the two-step run is the run |
| AutomationRuns.LateRunExactly | internal/application/automation/service.go:65-139 | A run that decides from an earlier state leaves a candidate both held and a member exactly when a relation it wants was held in between, or a relation it holds or does not release joined in between a strategy it leaves alone |
| AutomationRuns.LateRunJoinsHeld | internal/adapters/storage/postgres/automation_write.go:155-192 | A hold applied by another run after loading is not noticed: a held relation joins |
| AutomationRuns.LateRunHoldsMember | internal/adapters/storage/postgres/automation_write.go:245-313 | A relation that another run let in after loading is held and stays a member |
| AutomationRuns.NoFlipBetweenRuns | internal/domain/automation/decision.go:63-130 | Apart from hard gates, nobody let in by one score run is sent out by the next over the same models, and nobody sent out is let in, whatever the membership was at scoring and at deciding |
| AutomationRuns.HoldsAsked | internal/adapters/storage/postgres/automation_write.go:251-271 | The loop over decisions collects exactly the relations to hold and to release |
| AutomationRuns.SiteRecord.Process | internal/application/automation/service.go:65-139 | A run decides every enabled automatic strategy first and then changes strategies and holds together, or changes nothing |

## Left out

- CollectionProtocol.NoSecondSkipped: a log that appears later than the overlap reaches back, or before a window that had to be narrowed to its last second, is not claimed to be found; how far back windows read says CollectionProtocol.OverlapRead.
- CollectionProtocol.Enabled: reads a window at one moment, while the program pages through it; that pages of a changing source give one moment's records is not claimed.
- SyncService.Run: makes the promise about loading under the lock that `PlanFence.LockFreezesPlans` proves; the two are not joined into one state machine.
- AutomationRuns.Outdated: compares what strategies hold, where the program compares their versions; the refusal while a plan is pending and no hold is to be applied is part of whether the transaction is accepted.
- AutomationRuns.HeldNotMember: stated for runs one after the other; when an interleaving breaks it says AutomationRuns.LateRunExactly.
- SiteGateway.Gateway.Create: the remote site is assumed never to reuse an identifier, as its primary key does not.
- The single-resource plans of the first schema version and their own run: the same lookups, merges and tests on one resource, without the staged order.
- The remote implementation of the batch interface: its answers are arbitrary here, and only what the client checks is concluded from them.
- Operator-triggered automation runs that mix manual and automatic strategies, where previews join the same decision list.
- The Jensen-Shannon distance, the authenticity assessment and the fingerprint built from samples; floating-point rounding.
- Normalization of numbers, colours and coins in answers; the texts of prompts.
- Redaction by regular expressions, the tables of error codes and terms, rule versions and responsibilities, which are constants of every fact.
- Decoding the JSON metadata of logs and plans, URL normalization, time zones and identifiers as text.
- The explanations kept beside scores, such as window issues, evidence issues, dimension components and the order of decision reasons.
- Price, strategy and supplier editing, plan building from their rows, queues, audit records, HTTP routes, sessions, the credential vault and the user interface.
- Retry delays, step records and operation status after a failure.
