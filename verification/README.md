# StreamFlix and GraphVault: models and proofs

A Dafny model of four parts of the repository where correctness is a matter of whole runs or
of preserved meaning. `dafny verify dfyconfig.toml` checks all of it.

* **device-gateway** (`Registry`, `Pipeline*`, `Resp`). `main`, the producers, the workers and the
  closer are one step system over any number of devices and workers; which goroutine steps and
  which ready branch a `select` takes is open. `PipelineSafety` holds the inductive invariant,
  `PipelineDrain` channel safety, conservation and the lossless drain, `PipelineProgress` that
  shutdown never gets stuck and ends, `PipelineFreshness` what `LastSeen` means. The step that
  touches the registry uses `Registry.Recorded`, the function that the class `Registry` is proved
  against. `Resp` is the hand-written Redis encoder with a decoder for the same wire format.
* **graphql-gateway** (`GraphQl`, `Gateway*`). `Gateway` has the planner, the merger, the call
  outcomes and the handler. `GraphQl` is an executor after section 6.3.2 of the GraphQL
  specification (October 2021) over arbitrary resolvers; the meaning of a query is one execution
  over the schema composed of all subgraphs. `GatewayMeaning` proves that splitting, executing on
  the owners and merging gives that meaning, `GatewayExactness` for which queries it does whatever
  the subgraphs resolve, `GatewayOrder` when member order is kept too, `GatewaySilence`
  when data is lost without an error, `GatewayFailures` when failures leave only right values,
  `GatewayReplies` what refusals and errors look like,
  `GatewayFanOut` that the order of the concurrent calls does not matter, `GatewayPlans` that planning
  is a stable partition.
* **core-engine's AlarmStore** (`Alarms`, `AlarmHistory`, `AlarmKeys`): the mutable store against
  a fold over each key's own reports, and what the joined string key does.
* **auth-service** (`Base64Url`, `Token`, `AuthService`, `AuthProvenance`, `AuthTiming`, `AuthFlows`): tokens
  down to base64url (sections 3.2 and 5 of RFC 4648) and the dotted shape of section 7.1 of
  RFC 7515, the handlers over the in-memory store, and where every user of any run comes from. A run
  interleaves requests: a login's lookup and issue, and an admin request's guard and completion,
  are separate steps.
* `Sequences` and `Bytes` are shared.

## Findings

Properties one might expect of the code that hold only under a condition, each with the input that
breaks it and the exact condition:

* A recovery does not clear the alarm of the same stream: it is reduced under its own uei
  (`AlarmKeys.RecoveredStreamStaysActive`, `RecoveryLeavesItsStream`). Only a recovery of another
  stream whose key collides across a colon inside a uei can clear anything
  (`AlarmKeys.ClearingExactly`). The ueis that the other services post have no colon, so nothing they
  post is ever cleared (`AlarmKeys.ColonFreeNeverClears`).
* The merger's comment relies on distinct fields per subgraph, but neither planner nor merger
  rejects two owners under one alias; then the query means the first field and the reply may carry
  another plan's answer (`GatewayExactness.SharedKeyLosesMeaning`, exactly when:
  `MeaningKeptExactly`); with failing subgraphs the wrong value can come through even where it
  otherwise would not (`GatewayFailures.SharedKeyMisleads`, exactly when: `TruthfulExactly`). Queries
  that are valid under section 5.3.2 are not affected.
* Merged members come plan by plan, not in query order as section 7.2.2 of the GraphQL
  specification asks (`GatewayOrder.InterruptedLosesOrder`, exactly when: `OrderKeptExactly`).
* A reply without "errors" need not carry the whole query: a subgraph body without "data" and without
  errors loses its plan's keys silently (`GatewaySilence.EmptyObjectLosesSilently`, exactly when:
  `SilentLossExactly`).
* A token's expiry bounds when a create is admitted, not when it is written, since the guard reads the
  clock before the body is read and the server sets no read timeout (`AuthTiming.LateWrite`, the exact
  bound under a given delay: `WriteBoundExactly`).
* The drain needs at least one worker (`PipelineDrain.LossWithoutWorkers`, exactly when:
  `DrainExactlyWithWorkers`), and `LastSeen` is the newest time only with at most one
  (`PipelineFreshness.OvertakingRun`, exactly when: `FreshExactlyWithOneWorker`); the default is four.

## Hypotheses

Lemmas about tokens assume that JSON encoding a claims value and decoding it gives it back
(`Token.JsonRoundTrips`). Runs in `AuthProvenance` are those whose requests carry tokens issued in
the run or ones that fail the signature check, at times that do not go back, and each complete at
most once. `GatewayMeaning` assumes of each call that it either brings no data or brings the
execution of its plan.

## Model

| member | source | states |
|---|---|---|
| PipelineSafety.InvariantStep | streamflix-stack/device-gateway/cmd/gateway/main.go:92-143 | every step of any goroutine, in any order, keeps the wait groups equal to the unfinished goroutines, the channel protocol, the event accounts, the FIFO order, the registry as a replay of the touches, and per-device order |
| PipelineSafety.ReachableInvariant | streamflix-stack/device-gateway/cmd/gateway/main.go:215-273 | so every state reachable from the start of `main`, for any numbers of devices and workers, has all of these |
| PipelineDrain.ChannelSafety | streamflix-stack/device-gateway/cmd/gateway/main.go:92-118 | no reachable state has panicked; a closed channel implies that every producer is done; it is closed at most once; no enabled send or close meets a closed channel |
| PipelineDrain.EventConservation | streamflix-stack/device-gateway/cmd/gateway/main.go:103-129 | in every reachable state: drawn = held + sent + dropped and sent = buffered + in a worker before `Touch` + touched, as multisets; no drop before cancellation, at most one per device; sent but untouched at most 100 + workers |
| PipelineDrain.FirstInFirstOut | streamflix-stack/device-gateway/cmd/gateway/main.go:110-129 | workers receive in send order whatever their number; every touched event is being published, was published or failed to be, one for one; a device's sends are a prefix of its ticks |
| PipelineDrain.DrainedWhenWorkersStop | streamflix-stack/device-gateway/cmd/gateway/main.go:231-271 | when `main` is past `workers.Wait` and there is a worker: all producers done, channel closed and empty, touched = sent as multisets |
| PipelineDrain.LosslessDrain | streamflix-stack/device-gateway/cmd/gateway/main.go:126-143 | at that point each device's `EventCount` is the number of its successful sends (no record exactly when there are none), whatever publishes failed, and at most one of its ticks was not sent |
| PipelineDrain.ExitWithoutWorkers | streamflix-stack/device-gateway/cmd/gateway/main.go:237-271 | the failing input: with zero workers some run passes `workers.Wait` with the channel still open |
| PipelineDrain.LossWithoutWorkers | streamflix-stack/device-gateway/cmd/gateway/main.go:237-271 | and with a device besides, some run ends with an event sent and never touched |
| PipelineDrain.DrainExactlyWithWorkers | streamflix-stack/device-gateway/cmd/gateway/main.go:237-271 | every run that exits has drained if and only if there is at least one worker |
| PipelineDrain.StartedReachable | streamflix-stack/device-gateway/cmd/gateway/main.go:231-249 | `main` can launch all goroutines before any of them runs |
| PipelineDrain.WaitsExactly | streamflix-stack/device-gateway/cmd/gateway/main.go:225-271 | cancellation can come at any time; `main` and the closer pass each of their waits exactly when what they wait for has happened |
| PipelineDrain.SentAfterCancel | streamflix-stack/device-gateway/cmd/gateway/main.go:110-115 | the select does not favour cancellation: a run in which an event is drawn and sent after it |
| PipelineDrain.DroppedAfterCancel | streamflix-stack/device-gateway/cmd/gateway/main.go:110-115 | and one in which the event in hand is dropped |
| Pipeline.ProducerChoices | streamflix-stack/device-gateway/cmd/gateway/main.go:97-117 | which branches of a producer's two selects are ready, in every state that has not panicked |
| Pipeline.WorkerChoices | streamflix-stack/device-gateway/cmd/gateway/main.go:126-142 | when a worker can receive and when it leaves; a publish can succeed or fail |
| PipelineProgress.WorkFalls | streamflix-stack/device-gateway/cmd/gateway/main.go:97-143 | every step but a tick lowers a measure over held, buffered and in-worker events and unfinished goroutines; a tick raises it by 4 |
| PipelineProgress.NeverStuck | streamflix-stack/device-gateway/cmd/gateway/main.go:246-271 | after cancellation every reachable state before `main` exits has an enabled step that is not a tick |
| PipelineProgress.RunLength | streamflix-stack/device-gateway/cmd/gateway/main.go:97-143 | a run never has more steps than the work at its start plus five per tick |
| PipelineProgress.ShutdownEnds | streamflix-stack/device-gateway/cmd/gateway/main.go:264-272 | from every reachable cancelled state the process can exit without another tick, and every continuation is bounded |
| PipelineFreshness.LastSeenIsLatestTouch | streamflix-stack/device-gateway/cmd/gateway/main.go:65-75 | `LastSeen` is the time of the device's most recent touch, for any number of workers |
| PipelineFreshness.TouchedInTickOrder | streamflix-stack/device-gateway/cmd/gateway/main.go:126-129 | with at most one worker a device's touches are a prefix of its ticks |
| PipelineFreshness.FreshWithOneWorker | streamflix-stack/device-gateway/cmd/gateway/main.go:65-75 | with at most one worker and tickers that do not go back, `LastSeen` is the newest touched time |
| PipelineFreshness.LastSeenNeverGoesBack | streamflix-stack/device-gateway/cmd/gateway/main.go:65-75 | and no step moves it back |
| PipelineFreshness.OvertakingRun | streamflix-stack/device-gateway/cmd/gateway/main.go:126-129 | the failing input: with two workers a run that touches a device's second event before its first |
| PipelineFreshness.FreshExactlyWithOneWorker | streamflix-stack/device-gateway/cmd/gateway/main.go:237-241 | with at least one device, `LastSeen` stays the newest time on every run if and only if there is at most one worker |
| Pipeline.DeviceNamesDiffer | streamflix-stack/device-gateway/cmd/gateway/main.go:234 | `device-%03d` names are different for different devices, beyond 999 too |
| Pipeline.DeviceNameForm | streamflix-stack/device-gateway/cmd/gateway/main.go:234 | a device name is the octets of "device-" and the device's number in at least three digits, zeros in front only up to three |
| Pipeline.TickReports | streamflix-stack/device-gateway/cmd/gateway/main.go:103-109 | a tick's event has the producer's own device name, the octets of "heartbeat", the value drawn and the tick's time |
| Registry.Registry.Touch | streamflix-stack/device-gateway/cmd/gateway/main.go:65-75 | the registry afterwards is the old one with this device's time set and count raised by one, a record being created if missing; no other record changes |
| Registry.Registry.Snapshot | streamflix-stack/device-gateway/cmd/gateway/main.go:77-85 | one value per stored record, each record once |
| Registry.ReplayCounts | streamflix-stack/device-gateway/cmd/gateway/main.go:65-75 | after any history of touches a device's record exists exactly when it was touched, counts its touches and holds the last one's time |
| Resp.RespArray | streamflix-stack/device-gateway/cmd/gateway/main.go:175-181 | the loop builds the RESP2 command for any list of byte strings |
| Resp.CommandRoundTrip | streamflix-stack/device-gateway/cmd/gateway/main.go:175-181 | decoding a command followed by anything gives exactly the parts and exactly what follows, for all byte strings, CRLF included |
| Resp.CommandsAreSelfDelimiting | streamflix-stack/device-gateway/cmd/gateway/main.go:175-181 | two streams that begin with commands and are equal begin with the same command |
| Resp.BulkOnTheWire | streamflix-stack/device-gateway/cmd/gateway/main.go:177-179 | a bulk string is a dollar sign, its length in decimal, CR LF, its octets and CR LF, octet by octet |
| Resp.PublishOnTheWire | streamflix-stack/device-gateway/cmd/gateway/main.go:157-181 | a publish is, octet by octet, *3, $7 PUBLISH, $13 device-events and the payload with its length, each line ended by CR LF |
| Bytes.NumeralOfDigits | streamflix-stack/device-gateway/cmd/gateway/main.go:176-178 | a printed `%d` length reads back as the number |
| Bytes.NoLeadingZero | streamflix-stack/device-gateway/cmd/gateway/main.go:176-178 | a printed number has no leading zero |
| Gateway.GroupByOwner | graphvault-java-podman/graphql-gateway/src/main/java/com/graphvault/gateway/planner/QueryPlanner.java:46-59 | the first loop reports the first selection that is a fragment or has no owner, or fills the ordered map with each owner's fields |
| Gateway.BuildPlans | graphvault-java-podman/graphql-gateway/src/main/java/com/graphvault/gateway/planner/QueryPlanner.java:61-86 | the second loop gives one plan per entry, or names the first owner without a URL |
| Gateway.Plan | graphvault-java-podman/graphql-gateway/src/main/java/com/graphvault/gateway/planner/QueryPlanner.java:33-87 | the planner returns exactly the specified plans or the specified error |
| GatewayPlans.ErrorFree | graphvault-java-podman/graphql-gateway/src/main/java/com/graphvault/gateway/planner/QueryPlanner.java:47-57 | a selection passes exactly when all its members are plain fields with an owner |
| GatewayPlans.FirstOperationExactly | graphvault-java-podman/graphql-gateway/src/main/java/com/graphvault/gateway/planner/QueryPlanner.java:36-40 | the planned operation is one of the document with no operation before it; there is none to plan exactly when there is no operation at all |
| GatewayPlans.PlansExactly | graphvault-java-podman/graphql-gateway/src/main/java/com/graphvault/gateway/planner/QueryPlanner.java:62-86 | one plan per owner, all with URLs, or the rejection naming the first owner without one |
| GatewayPlans.StablePartition | graphvault-java-podman/graphql-gateway/src/main/java/com/graphvault/gateway/planner/QueryPlanner.java:46-86 | successful planning is a stable partition: owners in first-occurrence order, each with its non-empty share in original order, together exactly the original fields |
| GatewayPlans.PlanContents | graphvault-java-podman/graphql-gateway/src/main/java/com/graphvault/gateway/planner/QueryPlanner.java:62-84 | each plan goes to its owner's configured URL and holds exactly the fields its subgraph owns, in the query's order |
| GatewayPlans.PlansByFirstOccurrence | graphvault-java-podman/graphql-gateway/src/main/java/com/graphvault/gateway/planner/QueryPlanner.java:46-59 | of two plans the first has a field in the query before every field of the second |
| GatewayPlans.ReplanningIsIdempotent | graphvault-java-podman/graphql-gateway/src/main/java/com/graphvault/gateway/planner/QueryPlanner.java:33-87 | planning one plan's own fields again gives that plan alone |
| GraphQl.CollectionGroups | graphvault-java-podman/graphql-gateway/src/main/java/com/graphvault/gateway/planner/QueryPlanner.java:46-58 | the reference executor's field collection (section 6.3.2 of the GraphQL specification) groups each response key's included fields in order, keys by first occurrence |
| GraphQl.ExecutedMembers | graphvault-java-podman/graphql-gateway/src/main/java/com/graphvault/gateway/planner/QueryPlanner.java:46-58 | what the reference executor returns key by key and in which order |
| GraphQl.ExecutedExactly | graphvault-java-podman/graphql-gateway/src/main/java/com/graphvault/gateway/planner/QueryPlanner.java:46-58 | a key is in the reference result exactly when some field answers under it, by alias or name, that is not skipped and is included |
| GraphQl.CompletedForms | graphvault-java-podman/graphql-gateway/src/main/java/com/graphvault/gateway/planner/QueryPlanner.java:46-58 | what the reference executor makes of each kind of resolved value |
| GraphQl.MergedFirst | graphvault-java-podman/graphql-gateway/src/main/java/com/graphvault/gateway/planner/QueryPlanner.java:46-58 | under a repeated key the selections of all its fields follow one another |
| GatewayMeaning.SubgraphSimulates | graphvault-java-podman/graphql-gateway/src/main/java/com/graphvault/gateway/planner/QueryPlanner.java:69-84 | below the query root, executing on the combined schema and on the owning subgraph agree, for all resolvers and depths |
| GatewayMeaning.PartMeansReference | graphvault-java-podman/graphql-gateway/src/main/java/com/graphvault/gateway/planner/QueryPlanner.java:46-84 | a plan's execution carries a response key exactly when it is the key's owner, and then with the value the whole query gives it |
| GatewayMeaning.MergeableKeysHaveOneOwner | graphvault-java-podman/graphql-gateway/src/main/java/com/graphvault/gateway/planner/QueryPlanner.java:46-58 | a planned query whose equal response keys name the same field (section 5.3.2) has one owner per key |
| GatewayMeaning.SplitAndMergePreservesMeaning | graphvault-java-podman/graphql-gateway/src/main/java/com/graphvault/gateway/planner/QueryPlanner.java:46-84 | when every subgraph answers without errors, the reply is status 200 and nothing but a "data" object equal, as a map, to executing the original selection set, merged sub-selections of repeated fields included |
| GatewayMeaning.FailureIsolation | graphvault-java-podman/graphql-gateway/src/main/java/com/graphvault/gateway/client/SubgraphClient.java:32-57 | with any subgraphs failing, the reply has status 200 and a "data" object with the query's meaning without the failed subgraphs' response keys; "errors" is present exactly when some call threw, had no body or brought errors, and then lists all calls' errors in plan order |
| GatewaySilence.LossExactly | graphvault-java-podman/graphql-gateway/src/main/java/com/graphvault/gateway/client/SubgraphClient.java:41-47 | the reply lacks some of the query's data exactly when a call that brought no data had a response key to answer |
| GatewaySilence.SilentLossExactly | graphvault-java-podman/graphql-gateway/src/main/java/com/graphvault/gateway/client/SubgraphClient.java:41-47 | it lacks data and has no "errors" if and only if every call brought a body without errors and one of them, asked for a response key, brought no data |
| GatewaySilence.EmptyObjectLosesSilently | graphvault-java-podman/graphql-gateway/src/main/java/com/graphvault/gateway/client/SubgraphClient.java:45-46 | the failing input: one included field whose owner answers with an empty JSON object gives status 200, empty data and no errors |
| GatewayFailures.TruthfulExactly | graphvault-java-podman/graphql-gateway/src/main/java/com/graphvault/gateway/controller/GatewayController.java:59-70 | every key of the reply's data carries the query's value, whichever subgraphs fail and whatever the others resolve, if and only if the included fields with one response key have one owner |
| GatewayFailures.SharedKeyMisleads | graphvault-java-podman/graphql-gateway/src/main/java/com/graphvault/gateway/planner/QueryPlanner.java:46-59 | the failing input: any two included fields of different owners under one alias are planned, and some failures leave the wrong value under the key |
| GatewayMeaning.ErrorsConcatenated | graphvault-java-podman/graphql-gateway/src/main/java/com/graphvault/gateway/merge/ResponseMerger.java:26-29 | the merged errors are each call's errors in plan order |
| GatewayMeaning.MergedUnion | graphvault-java-podman/graphql-gateway/src/main/java/com/graphvault/gateway/merge/ResponseMerger.java:22-29 | merged data is the union of the results' data, later results winning, each key once |
| GatewayMeaning.MergedIsRestriction | graphvault-java-podman/graphql-gateway/src/main/java/com/graphvault/gateway/merge/ResponseMerger.java:22-29 | merging the parts of the subgraphs that answered gives the query's meaning without the keys asked of the others |
| Gateway.Merge | graphvault-java-podman/graphql-gateway/src/main/java/com/graphvault/gateway/merge/ResponseMerger.java:22-37 | the loop returns the merged data and, only if there are any, the errors |
| Gateway.ReplyOfPlans | graphvault-java-podman/graphql-gateway/src/main/java/com/graphvault/gateway/controller/GatewayController.java:59-70 | the body of a planned request, member by member: "data" with the merged data, then "errors" with the errors if there are any |
| GatewayReplies.CallContributes | graphvault-java-podman/graphql-gateway/src/main/java/com/graphvault/gateway/client/SubgraphClient.java:32-57 | the data and errors of one call by how it ended: the body's own, or one error with the text that names subgraph and reason |
| GatewayReplies.BodyErrorsAppear | graphvault-java-podman/graphql-gateway/src/main/java/com/graphvault/gateway/merge/ResponseMerger.java:26-35 | a body's own errors all appear in the reply, together and in their order |
| GatewayReplies.StatusExactly | graphvault-java-podman/graphql-gateway/src/main/java/com/graphvault/gateway/controller/GatewayController.java:50-71 | the status is 400 exactly when planning fails and 200 otherwise; a refusal is one error message and has no "data" |
| GatewayReplies.NothingToPlan | graphvault-java-podman/graphql-gateway/src/main/java/com/graphvault/gateway/planner/QueryPlanner.java:34-40 | a document that does not parse or has no operation is refused with the respective message |
| GatewayReplies.BadSelectionRefused | graphvault-java-podman/graphql-gateway/src/main/java/com/graphvault/gateway/planner/QueryPlanner.java:47-57 | the first selection that is a fragment or has no owner is the one reported, with its message |
| GatewayReplies.MissingUrlRefused | graphvault-java-podman/graphql-gateway/src/main/java/com/graphvault/gateway/planner/QueryPlanner.java:62-67 | otherwise the first owner without a URL is reported |
| GatewayExactness.AlikeExactly | graphvault-java-podman/graphql-gateway/src/main/java/com/graphvault/gateway/planner/QueryPlanner.java:82 | two selection sets mean the same to every resolver, over objects of any type, exactly when they collect the same keys in the same order from fields of the same name and the same (unordered) arguments all the way down |
| GatewayExactness.MeaningKeptExactly | graphvault-java-podman/graphql-gateway/src/main/java/com/graphvault/gateway/planner/QueryPlanner.java:42-59 | a planned query keeps its meaning whatever its subgraphs resolve, over objects of any type, if and only if, for every response key, the owner of its first field comes last among the owners asked for it and is asked for a selection alike to the whole; the root is compared as a map, nested objects with their member order |
| GatewayExactness.SafeAnswersKeepMeaning | graphvault-java-podman/graphql-gateway/src/main/java/com/graphvault/gateway/controller/GatewayController.java:50-71 | on such queries the handler's data is the query's meaning for every federation whose subgraphs all answer |
| GatewayExactness.OneOwnerIsSafe | graphvault-java-podman/graphql-gateway/src/main/java/com/graphvault/gateway/planner/QueryPlanner.java:42-59 | queries with one owner per response key meet that condition |
| GatewayExactness.SharedKeyLosesMeaning | graphvault-java-podman/graphql-gateway/src/main/java/com/graphvault/gateway/merge/ResponseMerger.java:12-17 | the failing input: any two included fields of different owners under one alias are planned, and some subgraphs' answers lose the query's meaning |
| GatewayFanOut.FanOutConfluence | graphvault-java-podman/graphql-gateway/src/main/java/com/graphvault/gateway/controller/GatewayController.java:59-68 | in whatever order the calls complete, a schedule can always go on until all results are joined, and the joined list is that of sequential calls in plan order |
| GatewayFanOut.ConcurrentReply | graphvault-java-podman/graphql-gateway/src/main/java/com/graphvault/gateway/controller/GatewayController.java:50-71 | so the reply of the concurrent handler is that of the sequential one |
| GatewayOrder.MergedKeysAreBuckets | graphvault-java-podman/graphql-gateway/src/main/java/com/graphvault/gateway/merge/ResponseMerger.java:23-29 | the merged keys are the query's keys grouped by plan, each plan's in the query's order |
| GatewayOrder.OrderKeptExactly | graphvault-java-podman/graphql-gateway/src/main/java/com/graphvault/gateway/merge/ResponseMerger.java:23-32 | the reply's data equals the query's result with member order if and only if no response key follows one whose owner's plan comes later |
| GatewayOrder.InterruptedLosesOrder | graphvault-java-podman/graphql-gateway/src/main/java/com/graphvault/gateway/planner/QueryPlanner.java:46-59 | the failing input: three fields under different keys, the first and last of one owner and the middle one of another, are planned and come back in another order |
| Alarms.AlarmStore.RecordEvent | streamflix-stack/core-engine/src/main/java/com/streamflix/core/AlarmStore.java:13-30 | the whole store afterwards is the specified fold step on the report's key, every other entry unchanged |
| Alarms.AlarmStore.GetActiveAlarms | streamflix-stack/core-engine/src/main/java/com/streamflix/core/AlarmStore.java:32-36 | exactly the uncleared entries, as the same objects |
| AlarmHistory.LatestBurstIsMaximal | streamflix-stack/core-engine/src/main/java/com/streamflix/core/AlarmStore.java:17-28 | the latest burst is a maximal recovery-free stretch of a key's reports followed by recoveries only |
| AlarmHistory.HistoryRefinement | streamflix-stack/core-engine/src/main/java/com/streamflix/core/AlarmStore.java:13-30 | after any history the entry of a key is determined by that key's reports alone: absent without a burst, cleared exactly when the last is a recovery, counting the latest burst as a Java `int`, with its first uei and last message |
| AlarmHistory.RecoveryReported | streamflix-stack/core-engine/src/main/java/com/streamflix/core/AlarmStore.java:16-22 | a report whose uei is any text followed by "Recovered" leaves an absent entry absent and only marks a present one cleared |
| AlarmHistory.OtherReported | streamflix-stack/core-engine/src/main/java/com/streamflix/core/AlarmStore.java:23-28 | any other report leaves its key's alarm active with its message: a new alarm if absent or cleared, one more occurrence otherwise |
| AlarmHistory.ActiveExactly | streamflix-stack/core-engine/src/main/java/com/streamflix/core/AlarmStore.java:16-36 | after any history an alarm is active exactly when its key's latest report does not end in "Recovered" |
| AlarmHistory.InterleavingIndependence | streamflix-stack/core-engine/src/main/java/com/streamflix/core/AlarmStore.java:16-36 | histories that agree key by key leave the same store and the same active alarms |
| AlarmHistory.CallersCommute | streamflix-stack/core-engine/src/main/java/com/streamflix/core/AlarmStore.java:16-30 | callers with separate keys leave the same store however their calls interleave |
| AlarmKeys.KeysCoincide | streamflix-stack/core-engine/src/main/java/com/streamflix/core/AlarmStore.java:14 | two (uei, stream) pairs share a reduction key exactly when they are equal or one uei runs past the other across a colon |
| AlarmKeys.ColonFreeKeysInjective | streamflix-stack/core-engine/src/main/java/com/streamflix/core/AlarmStore.java:14 | without colons in the ueis the key determines the pair |
| AlarmKeys.ClearedNeedsReach | streamflix-stack/core-engine/src/main/java/com/streamflix/core/AlarmStore.java:16-22 | a cleared alarm implies a recovery whose key collides with another uei's across a colon |
| AlarmKeys.SameStreamOutOfReach | streamflix-stack/core-engine/src/main/java/com/streamflix/core/AlarmStore.java:14 | a recovery and another report of the same stream never share a key, whatever colons their ueis contain |
| AlarmKeys.RecoveryLeavesItsStream | streamflix-stack/core-engine/src/main/java/com/streamflix/core/AlarmStore.java:14-22 | in any store a recovery leaves every alarm of its own stream as it was |
| AlarmKeys.RecoveredStreamStaysActive | streamflix-stack/core-engine/src/main/java/com/streamflix/core/AlarmStore.java:13-36 | the failing input: a report followed by the recovery of its stream is still an active alarm, count and message unchanged |
| AlarmKeys.OneStreamNeverClears | streamflix-stack/core-engine/src/main/java/com/streamflix/core/AlarmStore.java:13-30 | no history of a single stream ever clears an alarm |
| AlarmKeys.ClearingExactly | streamflix-stack/core-engine/src/main/java/com/streamflix/core/AlarmStore.java:13-30 | reports drawn from a set can leave a cleared alarm if and only if the set holds such a pair |
| AlarmKeys.ColonFreeNeverClears | streamflix-stack/core-engine/src/main/java/com/streamflix/core/AlarmStore.java:13-34 | with colon-free ueis no alarm is ever cleared, no recovery is stored, all alarms are active and their counts (below 2^31) add up to the reports that are not recoveries |
| Base64Url.RoundTrip | streamflix-stack/auth-service/internal/auth/token.go:96-97 | decoding an encoding returns it, for every length modulo 3, and the text has no dot |
| Base64Url.SymbolsAreTheAlphabet | streamflix-stack/auth-service/internal/auth/token.go:96-97 | symbols written and read are exactly those of Table 2 of RFC 4648, section 5 |
| Base64Url.GroupsAreBigEndian | streamflix-stack/auth-service/internal/auth/token.go:96-97 | a group of octets and its sextets are one big-endian number, missing octets counting as zero |
| Base64Url.ForeignOctets | streamflix-stack/auth-service/internal/auth/token.go:97 | line feeds and carriage returns are skipped anywhere; any other octet outside the alphabet is an error |
| Base64Url.DecodableAndCanonical | streamflix-stack/auth-service/internal/auth/token.go:97 | which texts decode (line ends skipped, spare bits ignored), and exactly which of them are the encoding of their own decoding |
| Token.SplitThenJoin | streamflix-stack/auth-service/internal/auth/token.go:58 | splitting at dots loses nothing and leaves no dot in any part |
| Token.SplitSigned | streamflix-stack/auth-service/internal/auth/token.go:50-58 | a signed text splits back into header, payload and the rest |
| Token.SignedExactly | streamflix-stack/auth-service/internal/auth/token.go:57-73 | the signature check passes for exactly the texts made of two dot-free parts and the signature of their join |
| Token.ParsesExactly | streamflix-stack/auth-service/internal/auth/token.go:57-88 | the result for every text of two dot-free parts and a last one: invalid unless the last is the MAC of the others and the payload decodes, then claims or "expired" by the clock, in nanoseconds |
| Token.OthersAreInvalid | streamflix-stack/auth-service/internal/auth/token.go:57-73 | every text that is not so signed is invalid |
| Token.IssuedShape | streamflix-stack/auth-service/internal/auth/token.go:36-54 | an issued token, octet by octet: the fixed JSON header, the JSON of the claims with the expiry second, and the MAC of both, in base64url with dots; there is one exactly when the claims encode |
| Token.SignedParses | streamflix-stack/auth-service/internal/auth/token.go:57-88 | a signed text parses to its payload's claims, to "expired" from the second after its expiry on, or to "invalid" when the payload does not decode, whatever its header |
| Token.TokenRoundTrip | streamflix-stack/auth-service/internal/auth/token.go:36-88 | for all secrets, subjects, roles, lifetimes and instants, parsing an issued token gives exactly the issued claims through the expiry second, and "expired" after it |
| Token.TokenLifetime | streamflix-stack/auth-service/internal/auth/token.go:42-84 | accepted up to issue + ttl, expired from issue + ttl + 1 s, and the exact boundary between, in nanoseconds |
| Token.TamperedSignatureRejected | streamflix-stack/auth-service/internal/auth/token.go:66-73 | any other text in the signature's place is invalid, even one with dots |
| Token.WrongSecretRejected | streamflix-stack/auth-service/internal/auth/token.go:63-73 | under another secret a signed text passes exactly when the two MACs collide |
| AuthService.InMemoryStore.List | streamflix-stack/auth-service/cmd/authsvc/main.go:74-82 | one element per stored entry and nothing else |
| AuthService.Service.constructor | streamflix-stack/auth-service/cmd/authsvc/main.go:197-209 | a new service holds exactly the seeded admin |
| AuthService.Service.CreateUserHandler | streamflix-stack/auth-service/cmd/authsvc/main.go:156-181 | a malformed body changes nothing; otherwise the new user replaces any entry under its email and the reply names its id and role |
| AuthService.Service.Serve | streamflix-stack/auth-service/cmd/authsvc/main.go:197-238 | each request changes the store and is answered as the specification function says, guards and verb switch included; what that function does is stated by the rows of `AuthProvenance` and `AuthFlows` |
| AuthProvenance.GuardExactly | streamflix-stack/auth-service/internal/auth/middleware.go:33-58 | a guard lets a request through exactly when it carries the token, unexpired at the guard's instant, of a user whose role was admin when the login looked it up; other users' live tokens are answered 403 and everything else 401 |
| AuthProvenance.IdentifiedExactly | streamflix-stack/auth-service/internal/auth/middleware.go:16-28 | /me is answered with an identity exactly to the unexpired token of a login, and then with the id and role that login looked up; everything else is 401 |
| AuthProvenance.AdmittedExactly | streamflix-stack/auth-service/cmd/authsvc/main.go:228-238 | what each admin request is answered at its guard: 405 for other verbs, nothing for admins, 403 for other live tokens, 401 for the rest |
| AuthProvenance.AdminRequestsExactly | streamflix-stack/auth-service/cmd/authsvc/main.go:149-238 | users are listed and created only by completing admitted requests of the right verb, creates with a well-formed body; a malformed one is 400; nothing else changes the store |
| AuthProvenance.AccountableStep | streamflix-stack/auth-service/cmd/authsvc/main.go:112-181 | every step, with logins and admin requests in two steps each and others in between, keeps the store equal to the replay of creates, every looked-up user stored at its time, every token issued to its lookup's user, every admission by an unexpired admin token, every create after its own POST admission |
| AuthProvenance.EveryUserHasProvenance | streamflix-stack/auth-service/cmd/authsvc/main.go:112-223 | in every run each stored user is the seed or was written by a create whose request was admitted less than an hour and a second after a token was issued to a user looked up as a stored admin, who has the same provenance strictly earlier; the write itself may come any time after the admission |
| AuthProvenance.UninterruptedIsServed | streamflix-stack/auth-service/cmd/authsvc/main.go:112-238 | a request whose two steps follow each other at one instant has the effect and reply of the service's whole request |
| AuthTiming.LateWrite | streamflix-stack/auth-service/cmd/authsvc/main.go:156-175 | the failing input: for every delay a run whose user is written that long after an admission in the token's last nanosecond |
| AuthTiming.WriteBoundExactly | streamflix-stack/auth-service/cmd/authsvc/main.go:156-175 | when creates are written within a delay of their admission, all writes come less than a bound after an authorizing login if and only if the bound is at least an hour, a second and the delay |
| AuthFlows.LoginIdentifies | streamflix-stack/auth-service/cmd/authsvc/main.go:112-147 | a login is answered with a token exactly when the stored user's hash is that of the password given, and otherwise 401 for unknown email and wrong password alike; the token identifies that user's id and role until the second after an hour, whatever happens to the store |
| AuthFlows.CreatedUserLogsIn | streamflix-stack/auth-service/cmd/authsvc/main.go:156-181 | an accepted create is answered with the email as id and the role asked for, or viewer; it leaves other entries alone and its user can log in with the password and be identified under that role |
| AuthFlows.LoginFailures | streamflix-stack/auth-service/cmd/authsvc/main.go:115-132 | a malformed login is 400, and claims that do not encode are 500 |
| AuthFlows.SeedLogsIn | streamflix-stack/auth-service/cmd/authsvc/main.go:201-208 | on a fresh service there is one user, who logs in with the seeded email and password and is identified as admin-seed with role admin |
| AuthFlows.ListingExactly | streamflix-stack/auth-service/cmd/authsvc/main.go:26-31 | a listing holds the id, email and role of every stored user and does not depend on the password hashes |
| AuthFlows.PermissionsExactly | streamflix-stack/auth-service/internal/auth/rbac.go:23-43 | the permission table, for every role and permission |

## Left out

* The HTTP servers, routing, TCP dialling, signals, tickers, environment variables and logging: each
  is a step that may happen at any time, or an oracle's outcome. A count from the environment that is
  negative behaves as zero; the event interval is assumed positive, since `time.NewTicker` panics
  otherwise. `log.Fatalf` on a listener error, which ends the process, is not a step.
* Goroutine bodies are steps of one transition system rather than methods with loops; each wait-group,
  channel or registry operation is one atomic step, so the mutexes are not modelled further. A publish
  is assumed to return, and its result is open, which covers marshalling errors and the check of
  Redis's reply. The event's JSON payload is not modelled.
* `int64` and Go `int` overflow of event counts, instants and durations; Java's `int` in the alarm
  count is modelled with its wrap-around.
* graphql-java's parser and printer: a document is its syntax tree or a syntax error, and a plan
  carries its fields in place of printed text.
* Variables, fragments below the root, operation directives, mutations and `operationName`, which the
  planner drops or ignores. `skip` and `include` carry literal conditions.
* Null propagation and field errors inside a subgraph: resolvers answer every field, possibly with
  null, and a body's errors are an arbitrary list.
* A null uei or stream id, a body with `"data": null` or `"errors": null` (the merger throws on
  both), and exceptions whose message is null in the planner's reply.
* `QueryPlanner.plan` is three methods, one for each of its loops and one around them.
* `AuthService.Service.Serve` handles one request from start to end; requests that interleave are the
  steps of `AuthProvenance`, which use the same specification functions.
* HMAC, SHA-256 and password hashing are arbitrary functions; that comparison takes constant time is
  not modelled. Response headers and error texts are left out, statuses are kept as reply kinds.
* The order in which Go iterates over a map: `Snapshot` and `List` return their elements in any order.
* The DGS subgraphs, asset-service, catalog-api, northbound, chaos-agent, web UI, nginx and SQL are I/O or
  thin wrappers, and `docs/go more` and `skeleton` hold copies of code modelled here.
