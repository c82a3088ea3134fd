# Verified models of the agent runtime

This project models the parts of the runtime whose promises span several functions or whole
runs, and proves those promises in Dafny 4.11. Verify everything with
`dafny verify dfyconfig.toml`.

Concurrent code is modelled at the granularity of its locks and Store calls: a run is the fold
of a total step function over an arbitrary sequence of steps, where a step that is not enabled
changes nothing, so a lemma about `Run` or `RunAll` speaks about every interleaving. The records
the source updates in place are classes whose methods are proved against the functions those
steps use. In `Commit`, `Grants` and `Retry` the writes of others, the faults and the crashes are
scripts the caller passes in, and so are other callers of `ImageCache`.

| file | models |
|---|---|
| `wrappers.dfy`, `utf8.dfy` | the option type, white-space trimming and UTF-8 offsets the others share |
| `route.dfy` | buffering, stable-read barrier, replay and hand-over of a Codex Session route |
| `draft.dfy` | publication of draft Session states under two locks |
| `redaction.dfy`, `keywords.dfy`, `pointer.dfy` | schema-driven redaction of displayed tool input, what each keyword means, local `$ref` pointers |
| `tool_batches.dfy` | the tool-batch recogniser and the asynchronous pair check |
| `segments.dfy` | splitting by token budget and the segmented summariser |
| `commit.dfy` | the compare-and-swap commit of checkpoints, receipts, adoption |
| `grants.dfy` | MCP grants, the replacement of their file, crashes and revocation epochs |
| `journal.dfy`, `pause_token.dfy` | the execution journal, crash recovery, pause tokens and waiters |
| `task_generation.dfy`, `usage_writer.dfy` | child Task generations and the usage writer |
| `image_regions.dfy`, `image_cache.dfy` | panorama tiles and the image LRU cache |
| `retry.dfy` | the retry loop and its backoff |
| `citation.dfy` | citation markers and citation ranges |

Where a promise turned out not to hold as worded, the code is kept and the exact condition is
proved instead:

- A route that overflows requests its close asynchronously, so later notifications can still be
  accepted: `Route.OverflowLeavesGap` gives the run, `Route.LostExactlyWhen` the guards.
- A permission request can make an earlier Turn active again without publishing for it, so a
  stale requires_action stays on show: `Draft.PreparedTurnCanBeStale` gives the run,
  `Draft.SyncedExactlyWhen` the states, and `Draft.NoReturnIsSynced` a condition on the steps: no
  Turn that was active before is prepared while none is.
- Redaction gives up where depth, patterns or work exceed its limits and then hides more than the
  schema marks. `Redaction.Work` measures schema and input; below the budget nothing is given up.
- The transition table has no step from waiting_approval to unknown_outcome, so recovery would
  refuse a waiting Step and with it everything else: `Journal.BlocksExactly`. The tool journal
  never lets a Step wait, so no run meets this: `Journal.RecoveryNeverBlocked`.
- A stable-read round notices only arrivals that are kept: one that is discarded because the buffer is
  full or the route closed does not disturb it. `Route.AcceptsFirstStableRound` says exactly that.
- Backoff exceeds the exact capped exponential by one where the exponential is one below the
  cap: `Retry.BackoffExact`.

Assumptions about what is not modelled: notification sequences strictly increase
(`adapters/codex/internal/appserver/connection.go:185` counts them on one connection); the Store
adds one revision per mutation and keeps one payload per ID and per idempotency key; invocation
receipts carry identities only this process mints; a rename is atomic and survives a crash, what was synced survives a power
loss, and a proper prefix of a grant document is not one; hashes (grant keys, record identities,
source fingerprints, image keys) are injective; lifecycle writers of a Task keep its generation
and activity and may only end it or journal a cancellation; Task revisions start at 1; regular
expressions, model replies, clocks, jitter and disk outcomes are parameters.

## Model

| member | source | states |
|---|---|---|
| `Route.SessionRoute.EnqueueLocked` | adapters/codex/route.go:55-75 | the locked part of `enqueue` moves the route exactly as `Admit` says: buffered up to 4096, refused when closed, handed on when live |
| `Route.SessionRoute.Send` | adapters/codex/route.go:76-81 | the non-blocking send queues the notification behind the others, or reports a full queue and changes nothing |
| `Route.SessionRoute.AcceptStableBarrier` | adapters/codex/route.go:133-145 | records the barrier, empties the buffer and returns exactly the buffered notifications above the barrier, in order |
| `Route.SessionRoute.TakeBufferedOrSwitchLive` | adapters/codex/route.go:147-163 | one section either takes the whole buffer, goes live with an empty buffer, or reports the closed route |
| `Route.SessionRoute.HasBufferedSince` | adapters/codex/route.go:194-203 | true exactly when some buffered notification lies above the sequence |
| `Route.SessionRoute.ReadLastSequence` | adapters/codex/route.go:205-212 | the newest buffered sequence, or the barrier when nothing is buffered |
| `Route.RunKeeps` | adapters/codex/route.go:55-180 | the invariant of reader, loader and worker (phases, barrier candidates, flow, confirmation) holds after every interleaving |
| `Route.PublishedInOrder` | adapters/codex/route.go:55-180 | in every run what is published are arrivals above the barrier, each once and in arrival order, and an arrival above the barrier that is missing was discarded |
| `Route.ExactIffNothingLost` | adapters/codex/history.go:107-136 | published plus in flight equals the arrivals above the barrier if and only if nothing was discarded |
| `Route.LostLiesAbove` | adapters/codex/history.go:107-136 | whatever a run discards lies above the barrier it accepts, also when the loss precedes the barrier |
| `Route.LostExactlyWhen` | adapters/codex/route.go:55-99 | a run has lost a notification exactly when one of its steps met a discarding guard: full buffer, full queue, closed route or failed publication |
| `Route.OpenRoutePublishesAll` | adapters/codex/route.go:87-99 | a route nobody is closing has lost nothing, and once it serves with nothing in flight it has published every arrival above the barrier |
| `Route.DrainPublishesAll` | adapters/codex/route.go:165-180 | draining without a barrier keeps every arrival |
| `Route.DroppedBeforeConfirmingRead` | adapters/codex/history.go:140-170 | whatever the barrier drops had arrived before the confirming thread/read was issued |
| `Route.AcceptsFirstStableRound` | adapters/codex/history.go:140-171 | over every run a load accepts its barrier exactly with the first round whose history equals that of the round before and during which nothing that was kept arrived; the barrier is the newest notification kept when that round began; at most four rounds are judged |
| `Route.FailsForReason` | adapters/codex/history.go:142-171 | unless one of its calls failed or the route is being closed, a load fails only after four rounds none of which was stable |
| `Route.GivesUpAfterFour` | adapters/codex/history.go:142-171 | and after four such rounds it does fail |
| `Route.FailedReadEndsLoad` | adapters/codex/history.go:149-153 | a failed read ends the load and counts as no round |
| `Route.FailureIsFinal` | adapters/codex/history.go:149-153 | a load that failed stays failed |
| `Route.OverflowLeavesGap` | adapters/codex/route.go:83-85 | because closing is asynchronous, a run exists in which 257 is discarded, the route is still live and 258 is accepted after it |
| `Route.IncreasingIsUnique` | adapters/codex/internal/appserver/connection.go:185-185 | with strictly increasing sequences the order and the members determine the published sequence |
| `Draft.DraftSession.HasPermissionLocked` | adapters/codex/draft.go:89-96 | the scan of the permission map finds an entry for the Turn exactly when there is one, in any iteration order |
| `Draft.DraftSession.Register` | adapters/codex/draft_projection.go:42-55 | a permission is registered under a fresh token exactly when the Turn is named, not cancelled and not the terminal one |
| `Draft.DraftSession.Unregister` | adapters/codex/draft_projection.go:56-64 | answering removes that one permission and nothing else |
| `Draft.DraftSession.Snapshot` | adapters/codex/draft_prompt.go:371-398 | a publishing section reads under the lock whether its Turn is terminal and whether a permission of it is outstanding |
| `Draft.TerminalRun` | adapters/codex/draft_prompt.go:244-297 | in every run a running or requires_action update is published only while its Turn is not the recorded terminal one, an idle update only while it is |
| `Draft.NothingActiveAfterIdle` | adapters/codex/draft_prompt.go:269-297 | after an idle update for a Turn no active update for it follows until another Turn was recorded as terminal |
| `Draft.EndsAreAnnounced` | adapters/codex/draft_prompt.go:269-297 | in every run a Turn recorded as terminal is announced as idle before anything else is published, and an idle update follows nothing else |
| `Draft.ShownIsOutstanding` | adapters/codex/draft_prompt.go:371-398 | with an active Turn and nobody about to publish, the last published status is requires_action exactly when a permission is outstanding, in every run that makes no unsettled Turn active again |
| `Draft.NoReturnIsSynced` | adapters/codex/draft_prompt.go:421-460 | a run in which no Turn is prepared again after it completed or another one replaced it keeps that agreement at every point |
| `Draft.SeenWasActive` | adapters/codex/draft_prompt.go:458-458 | the Turns such a condition speaks of are exactly those some point of the run had active |
| `Draft.PrepareRefused` | adapters/codex/draft_prompt.go:440-457 | a request for the terminal Turn, for another than the active one, or during a cancellation prepares nothing |
| `Draft.SyncedExactlyWhen` | adapters/codex/draft_prompt.go:421-460 | the agreement holds throughout a run if and only if no permission request makes an unsettled Turn active again |
| `Draft.PreparedTurnCanBeStale` | adapters/codex/draft_prompt.go:421-460 | a concrete run in which a prepared Turn is active and shows requires_action with no permission outstanding |
| `Redaction.RedactInputForDisplay` | agent-sdk/approval/display_input.go:15-28 | every position the schema marks writeOnly is hidden at itself or an ancestor, nothing but markers differs, and when the work of schema and input stays below the budget every marker is justified by a mark |
| `Redaction.InputFieldSensitive` | agent-sdk/approval/display_input.go:30-33 | when the work of the schema on the probe stays below the budget a field is reported exactly when the schema marks it or the whole input; an unreported field is never marked |
| `Redaction.Redact` | agent-sdk/approval/display_input.go:35-175 | the traversal handles one schema on one value for every cyclic `$ref`, spends no more of the budget than the work of schema and value and at least one unit, gives up only when that work uses up the budget, and says truly whether it changed anything |
| `Redaction.RedactChildren` | agent-sdk/approval/display_input.go:123-175 | fields or elements are handled by the child schemas within their share of the work, and a scalar has none |
| `Redaction.WorkLess` | agent-sdk/approval/display_input.go:35-52 | masking a value never makes it more work, so what earlier schemas hid is not charged again |
| `Redaction.BareWork` | agent-sdk/approval/display_input.go:123-157 | an object under a schema that applies nothing costs one visit and three per field |
| `Redaction.BareIsClassified` | agent-sdk/approval/display_input.go:11-28 | so an input of up to 1364 fields under such a schema is classified |
| `Keywords.MarkedUnfolds` | agent-sdk/approval/display_input.go:35-52 | a position is marked by the schema itself, by a schema at the same place or by a schema of the child it lies in |
| `Keywords.WriteOnlyMarks` | agent-sdk/approval/display_input.go:45-47 | writeOnly marks the value itself, and only if true |
| `Keywords.BranchesMark` | agent-sdk/approval/display_input.go:73-88 | allOf, anyOf and oneOf mark exactly what one of their branches marks |
| `Keywords.OutcomeMarks` | agent-sdk/approval/display_input.go:89-101 | then and else mark what their schema marks, whatever the condition |
| `Keywords.ReferenceMarks` | agent-sdk/approval/display_input.go:54-72 | a local reference marks what the schema it points to marks, or nothing |
| `Keywords.DependentsMark` | agent-sdk/approval/display_input.go:107-122 | dependentSchemas marks what the schemas of the present fields mark |
| `Keywords.FieldsMark` | agent-sdk/approval/display_input.go:123-157 | a field is governed by its property and every matching pattern, and by both fallbacks only when none of those claims it |
| `Keywords.ItemsMark` | agent-sdk/approval/display_input.go:158-173 | element i is governed by entry i of prefixItems, and from its end on by items |
| `Redaction.RedactInPlace` | agent-sdk/approval/display_input.go:53-122 | the schemas applied to the same value are applied one after the other, each to what the previous one left |
| `Redaction.RedactRef` | agent-sdk/approval/display_input.go:54-72 | a local reference is followed from the root and applied like an in-place schema |
| `Redaction.RedactCombined` | agent-sdk/approval/display_input.go:73-88 | allOf, anyOf and oneOf branches are all applied |
| `Redaction.RedactConditional` | agent-sdk/approval/display_input.go:89-100 | both conditional outcomes are applied |
| `Redaction.RedactDependents` | agent-sdk/approval/display_input.go:107-122 | the dependent schemas of the fields that are present are applied, in any map order |
| `Redaction.RedactFields` | agent-sdk/approval/display_input.go:123-157 | properties, matching patterns and, only for unclaimed fields, the fallbacks are applied to every field in any order |
| `Redaction.RedactItems` | agent-sdk/approval/display_input.go:158-173 | prefixItems by position, then items, are applied to every element |
| `Redaction.MarksKept` | agent-sdk/approval/display_input.go:53-173 | masking a value leaves every mark hidden or still in place, which is what lets schemas be applied in sequence |
| `Redaction.MarksReflected` | agent-sdk/approval/display_input.go:53-173 | a mark found after masking was already a mark of the original value |
| `Redaction.HandledTwice` | agent-sdk/approval/display_input.go:73-122 | handling two sets of schemas in sequence handles their union |
| `Redaction.SchemaHandled` | agent-sdk/approval/display_input.go:53-175 | in-place schemas followed by the children handle the schema itself |
| `Pointer.UnescapeEscape` | agent-sdk/approval/display_input.go:61-61 | unescaping undoes the escapes of section 4 of RFC 6901 for every member name |
| `Pointer.SplitJoin` | agent-sdk/approval/display_input.go:54-56 | splitting a joined pointer gives its escaped parts back |
| `Pointer.WalkFollows` | agent-sdk/approval/display_input.go:55-63 | walking the parts of a pointer follows the member names |
| `Pointer.ReferenceRoundTrip` | agent-sdk/approval/display_input.go:54-64 | a local reference written for a path resolves to the schema at that path |
| `ToolBatches.CompactionPrefixSafe` | agent-sdk/runtime/compaction_prefix.go:8-60 | accepts exactly the message sequences that are concatenations of plain messages and closed tool batches |
| `ToolBatches.OpenCalls` | agent-sdk/runtime/compaction_prefix.go:21-36 | inserting the call identifiers succeeds exactly as the specification of opening a batch says |
| `ToolBatches.CloseResults` | agent-sdk/runtime/compaction_prefix.go:38-53 | deleting the result identifiers succeeds exactly as the specification of answering a batch says |
| `ToolBatches.BatchedScans` | agent-sdk/runtime/compaction_prefix.go:8-60 | every concatenation of valid blocks is accepted |
| `ToolBatches.AcceptedIsBatched` | agent-sdk/runtime/compaction_prefix.go:8-60 | every accepted sequence is such a concatenation |
| `ToolBatches.SafePrefixesConcatenate` | agent-sdk/runtime/compaction_prefix.go:8-60 | acceptance is closed under concatenation and under appending a plain message |
| `ToolBatches.SafePrefixCancels` | agent-sdk/runtime/compaction_prefix.go:8-60 | what follows an accepted prefix is accepted on its own exactly when the whole is |
| `ToolBatches.AsyncToolPairsComplete` | agent-sdk/runtime/compaction_async.go:291-308 | true exactly when every call identifier alternates call and result and ends with a result |
| `ToolBatches.CompleteTail` | agent-sdk/runtime/compaction_async_adoption.go:115-121 | complete covered events followed by a complete tail are complete |
| `ToolBatches.NoPairStraddles` | agent-sdk/runtime/compaction_async_adoption.go:115-121 | no call and its result lie on different sides of the coverage cut |
| `Segments.SplitEventsByTokenBudget` | agent-sdk/runtime/compaction_usage.go:84-108 | the chunks concatenate to the non-nil events, are never empty, fit the budget when they hold several events, and none could have taken the next event |
| `Segments.SplitIsUnique` | agent-sdk/runtime/compaction_usage.go:84-108 | the greedy-maximal split is the only one with these properties |
| `Segments.Segment` | agent-sdk/runtime/compaction_generation.go:96-103 | one level is the greedy budget split if that has several chunks and two halves otherwise, and covers the present events |
| `Segments.PresentExactly` | agent-sdk/runtime/compaction_usage.go:91-94 | the present events are exactly the non-nil ones, in order |
| `Segments.GenerateSegmented` | agent-sdk/runtime/compaction_generation.go:82-121 | what one segmentation depth does: the outcomes for no event, one event and exhausted depth, otherwise `Ends`, within a bounded number of requests at bounded depth |
| `Segments.Summarise` | agent-sdk/runtime/compaction_generation.go:109-118 | a request and, if it overflows, its segmentation end as `Ends` says; every reply in the trace is the model's |
| `Segments.GenerateCompactMarkdown` | agent-sdk/runtime/compaction_generation.go:62-80 | on success the summarised leaves cover the present events in order, each starts from the previous leaf's text normalised once per level left, and no request failed; otherwise the last request says why; the first request is about all events and every other about a segment of an earlier one that overflowed one level above |
| `Segments.DoneIffRecovered` | agent-sdk/runtime/compaction_generation.go:110-121 | success if and only if no request failed and every overflow could still be split |
| `Commit.Store.Append` | agent-sdk/session/append_prepare.go:166-258 | a stale expected revision is refused first; an identity already present is returned or refused by payload without a new revision; otherwise one record and one revision are added |
| `Commit.MergeKeepsUnique` | agent-sdk/session/append_prepare.go:97-157 | the log never holds two records with one ID or one idempotency key, after single and batch appends |
| `Commit.Reconcile` | agent-sdk/runtime/compaction_persistence.go:87-112 | reading back returns the first record under the identity, and only if its payload is the same |
| `Commit.CommitIsReadBack` | agent-sdk/runtime/compaction_persistence.go:87-112 | a write that was committed is found by reading back, whatever others appended since |
| `Commit.PersistCompactionArtifacts` | agent-sdk/runtime/compaction_persistence.go:25-85 | for every script of faults and writes by others, the call adds at most one revision of its own, and only onto one where the rule held; every other revision is the effect of a scripted write; success means the payload is stored, a conflict, failed load or read-back without a match that nothing was; any other result names its cause in the script or the Store, and a script that lets one round through commits |
| `Commit.EighthRoundSuffices` | agent-sdk/runtime/compaction_persistence.go:53-83 | seven disturbed but calm rounds are survived, a quiet eighth commits |
| `Commit.CommitRound` | agent-sdk/runtime/compaction_persistence.go:53-83 | one round of the loop: what its answer leads to, and that a quiet or calm round commits or keeps the chance to |
| `Commit.KeptByOthers` | agent-sdk/runtime/compaction_persistence.go:74-80 | what every scripted write keeps still holds when only they wrote |
| `Commit.PersistCompactionInvocations` | agent-sdk/runtime/compaction_invocation.go:23-41 | the receipts written are in the log under their identities and payloads, each by one revision of its own, and every other revision is by others; all are written exactly when every request was answered or could be read back, and then the counted revision equals the Store's exactly when no one else wrote since the load |
| `Commit.CompactSession` | agent-sdk/runtime/compaction_persistence.go:15-20 | a synchronous checkpoint is committed at most once and only directly behind the main events and state it was computed from, own revisions are exactly the receipts and that commit, and undisturbed it is committed |
| `Commit.AdoptCompactionCandidate` | agent-sdk/runtime/compaction_async_adoption.go:36-87 | an asynchronous candidate adds at most one revision, only where its source is still valid, every other revision is by others, and undisturbed it is adopted exactly when valid and smaller |
| `Commit.ReceiptsInvisible` | agent-sdk/runtime/compaction_async_adoption.go:89-122 | neither validity rule can tell receipts from their absence |
| `Commit.ValidSourceExactly` | agent-sdk/runtime/compaction_async_adoption.go:89-122 | the asynchronous rule holds exactly when state and Session are those of the source and the main events are the covered ones and a later, complete tail without a checkpoint |
| `Commit.CheckpointEndsIt` | agent-sdk/runtime/compaction_async_adoption.go:107-114 | once anyone appended a checkpoint no later Store is a valid source |
| `Commit.MainExactly` | agent-sdk/runtime/compaction_events.go:164-176 | the main events are exactly those of the log, in order |
| `Commit.ReceiptsNotMain` | agent-sdk/runtime/compaction_events.go:164-176 | appending journal records leaves the main events unchanged |
| `Grants.MCPGrantStore.Allows` | agent-sdk/runtime/mcp_grants.go:142-171 | true exactly when one of the call's keys is granted, an error exactly when the call has no key at all, consulted in the source's order |
| `Grants.KeysIdentify` | agent-sdk/runtime/mcp_grants.go:101-136 | a grant has a key exactly when its identity is complete, and keys are equal exactly for the same identity in the same scope and Session |
| `Grants.MCPGrantStore.Change` | agent-sdk/runtime/mcp_grants.go:209-257 | the granted entries with one more or fewer reach memory only after the file was replaced; whichever call fails, memory keeps its grants |
| `Grants.MCPGrantStore.Replace` | agent-sdk/runtime/mcp_grants.go:228-254 | mkdir, create, chmod, write, sync, close and rename in this order, stopping at the first that fails, with the temporary file removed on return |
| `Grants.NewMCPGrantStore` | agent-sdk/runtime/mcp_grants.go:33-56 | a missing file is no grants, a grant document its grants, anything else an error |
| `Grants.UntouchedUntilRename` | agent-sdk/runtime/mcp_grants.go:228-254 | after any number of the calls the file is as before until the rename, and whole and synced from then on |
| `Grants.ReplacedExactly` | agent-sdk/runtime/mcp_grants.go:228-254 | whichever call fails the file holds what it held, otherwise the new grants, and nothing temporary stays unless its removal failed |
| `Grants.FoundExactly` | agent-sdk/runtime/mcp_grants.go:228-255 | a Host that dies at any point of a change, also by power loss, leaves the old grants or, from the rename on, the new ones |
| `Grants.EveryCrash` | agent-sdk/runtime/mcp_grants.go:209-257 | over every run of complete and interrupted changes Hosts open their file, memory is what it holds, and both are the changes whose rename happened |
| `Grants.MCPGrantStore.Grant` | agent-sdk/runtime/mcp_grants.go:174-185 | changes the store for the key exactly when there is one, and succeeds exactly when the file was replaced |
| `Grants.MCPGrantStore.Revoke` | agent-sdk/runtime/mcp_grants.go:189-207 | removes the grant and advances its counter exactly when the file was replaced, otherwise keeps both |
| `Grants.MCPGrantStore.RevocationEpoch` | agent-sdk/runtime/mcp_revocation.go:15-27 | captures the counters of both keys of the call |
| `Grants.MCPGrantStore.CheckEpoch` | agent-sdk/runtime/mcp_revocation.go:28-41 | passes exactly while both counters are as captured |
| `Grants.MCPGrantStore.GrantAtEpoch` | agent-sdk/runtime/mcp_revocation.go:42-56 | commits a grant exactly when the key exists, the counters are current and the file could be replaced |
| `Grants.SameCountIffQuiet` | agent-sdk/runtime/mcp_revocation.go:28-30 | two counter readings are equal exactly when the key was not revoked in between |
| `Grants.RunKeeps` | agent-sdk/runtime/policy.go:137-204 | counters, captures, order, provenance and file agreement hold after every interleaving of calls, approvals, grants and revocations and every failure of the file system |
| `Grants.RevocationIsFinal` | agent-sdk/runtime/mcp_revocation.go:42-74 | once a key is revoked, a call that captured earlier and depends on it never commits a grant or is dispatched |
| `Grants.DispatchedIffUnrevoked` | agent-sdk/runtime/mcp_revocation.go:58-74 | a ready call is dispatched exactly when none of its keys was revoked since its capture |
| `Grants.DispatchNeedsLeave` | agent-sdk/runtime/policy.go:137-204 | over every run a call is dispatched only after it was trusted, was consulted while one of its keys was stored or given and not revoked, or was approved once or by a committed grant |
| `Grants.ConsultedExactly` | agent-sdk/runtime/policy.go:165-203 | consulting the store makes a call ready exactly when one of its keys is backed, refuses it exactly when it has no key, and asks otherwise |
| `Grants.ResolvedExactly` | agent-sdk/runtime/policy.go:289-317 | what every answer to an approval leads to, decided from the log: once is ready, a scope is ready exactly with a complete identity, no revocation since the capture and a replaced file, and is then committed |
| `Grants.RejectRefuses` | agent-sdk/runtime/policy.go:189-204 | rejecting a call, or failing to store its grant, refuses it |
| `Grants.RefusalIsFinal` | agent-sdk/runtime/policy.go:189-204 | a refused call stays refused, commits nothing and is never dispatched |
| `Grants.GrantsAreBacked` | agent-sdk/runtime/policy.go:289-317 | a grant is in force exactly when stored or given and not revoked since, and one given by a call was captured after every revocation before it |
| `Grants.MemoryIsFile` | agent-sdk/runtime/mcp_grants.go:209-257 | whatever file calls fail during a run, memory is what opening the file would read, and no temporary file is in place |
| `Journal.StartRunTurnJournal` | agent-sdk/runtime/execution_journal.go:15-40 | prepares revisions 1 and 2 of the Run and of the Turn, or fails on an incomplete identity |
| `Journal.TransitionRunTurnJournal` | agent-sdk/runtime/execution_journal.go:62-97 | advances the newest Turn and Run records that are not over and not there already, or fails as a whole |
| `Journal.TransitionMoves` | agent-sdk/runtime/execution_journal.go:62-97 | after a transition the newest Turn and Run records have the requested status, reason and, on failure, error unless they were over; every other identity is as before; it fails exactly when one may not be moved |
| `Journal.StartIs` | agent-sdk/runtime/execution_journal.go:15-40 | a start is prepared and started records of the Run and then of the Turn, and fails exactly when one has no name |
| `Journal.StartOpens` | agent-sdk/runtime/execution_journal.go:15-40 | starting what the log does not know leaves Run and Turn started |
| `Journal.LatestRecords` | agent-sdk/runtime/execution_journal.go:192-222 | the index holds exactly the newest record of every identity |
| `Journal.RecoverIncompleteExecutionJournal` | agent-sdk/runtime/execution_journal.go:192-262 | the updates close every open record and pending token once and nothing else, in any map order, and the newest record of each then ends it: interrupted for Run and Turn, unknown outcome for a Step, withdrawn for a token, one revision on and with the former status; it fails exactly when an open record cannot be moved |
| `Journal.NothingUnderWay` | agent-sdk/runtime/execution_journal.go:223-257 | after recovery no Run, Turn or Step is started, waiting or being cancelled and no token is pending |
| `Journal.BlocksExactly` | agent-sdk/session/execution.go:393-404 | an open record cannot be moved exactly when its identity is incomplete or it is a waiting Step |
| `Journal.RecoveryCloses` | agent-sdk/runtime/execution_journal.go:192-262 | run alone, recovery appends all its updates, leaves nothing open, and a second recovery appends nothing |
| `Journal.RecoveryNeverBlocked` | agent-sdk/runtime/execution_journal.go:223-241 | in no run of these writers does an open record stop recovery |
| `Journal.AppendKeeps` | agent-sdk/session/append_prepare.go:122-150 | a batch prepared against an older log keeps the log well formed whatever was appended meanwhile |
| `Journal.WellFormedHistory` | agent-sdk/session/execution.go:357-404 | one payload per key and validated transitions force the revisions 1, 2, 3, ... |
| `Journal.EveryHistory` | agent-sdk/runtime/execution_journal.go:15-97 | over every interleaving of starts, transitions, recoveries, token updates and crashes each Run, Turn and token has revisions 1, 2, 3, ... through allowed transitions with nothing after its end |
| `Journal.NothingBeforeItsStart` | agent-sdk/session/execution.go:393-404 | in every run what waited, succeeded, was interrupted or has an unknown outcome was started before, and a token that ended was pending right before |
| `PauseToken.ReadToken` | agent-sdk/runtime/durable_approval.go:367-387 | returns the newest record of the token |
| `PauseToken.Approvals.Register` | agent-sdk/runtime/durable_approval.go:116-118 | a waiter with an empty channel is registered under the token |
| `PauseToken.Approvals.Unregister` | agent-sdk/runtime/durable_approval.go:119-123 | and removed again |
| `PauseToken.Approvals.DeliverApprovalDecision` | agent-sdk/runtime/durable_approval.go:306-326 | only a resolved token's decision reaches its waiter, and only into an empty channel |
| `PauseToken.RunKeeps` | agent-sdk/runtime/durable_approval.go:226-326 | plans, waiters, verdicts and received decisions stay backed by the durable log in every interleaving |
| `PauseToken.OneEnd` | agent-sdk/runtime/durable_approval.go:253-304 | a token has at most two records and at most one of them ends it, under every race of resolve, cancel and recovery |
| `PauseToken.ReceivedIsDurable` | agent-sdk/runtime/durable_approval.go:306-326 | what a waiter receives and what a resolver is told is accepted is the token's one durable decision |
| `PauseToken.AcceptedIffStored` | agent-sdk/runtime/durable_approval.go:264-272 | a decision that reads an ended token is accepted exactly when it equals the durable one |
| `PauseToken.DurableAgrees` | agent-sdk/runtime/durable_approval.go:389-391 | two durable decisions of one token are equal |
| `PauseToken.DecisionIsReceived` | agent-sdk/runtime/durable_approval.go:226-326 | resolving an awaited token without interference makes the decision durable, accepts it, and hands it to the waiter |
| `PauseToken.CancelEnds` | agent-sdk/runtime/durable_approval.go:226-240 | cancelling one ends it as withdrawn with the reason |
| `PauseToken.WakeExactly` | agent-sdk/runtime/durable_approval.go:306-326 | waking fills an empty channel with the decision and touches no other |
| `TaskGeneration.SubagentTask.OpenLocked` | agent-sdk/runtime/child_task_activity.go:171-197 | opens the next generation exactly for the activity that may, and answers whether the generation is then the activity's |
| `TaskGeneration.RunKeeps` | agent-sdk/runtime/child_task_activity.go:201-248 | stored revisions and every host's cached copy keep their relation under racing activities, lost answers, restarts and lifecycle writers |
| `TaskGeneration.EveryWrite` | agent-sdk/runtime/child_task_activity.go:201-248 | every stored revision keeps its generation and activity, possibly ending it, or opens exactly the next one over a generation that ended or was to be cancelled for it |
| `TaskGeneration.GenerationsBound` | agent-sdk/runtime/child_task_activity.go:224-236 | a generation never goes back, stays bound to one activity, and once durably ended is never running again |
| `TaskGeneration.OpenedByActivity` | agent-sdk/runtime/child_task_activity.go:171-248 | in every run a newly opened generation is bound to an activity observed for just that generation |
| `TaskGeneration.ActivityOpens` | agent-sdk/runtime/child_task_activity.go:171-222 | an activity whose generation is next and free, or selected by the cancellation, does open it |
| `TaskGeneration.ConflictIsRetried` | agent-sdk/runtime/child_task_activity.go:222-245 | after a conflict over an unchanged predecessor the next write opens the generation |
| `TaskGeneration.OnlyOwnersWrite` | agent-sdk/runtime/child_task_activity.go:201-222 | a host writes only what is bound to the activity it writes for |
| `TaskGeneration.TriesCountDown` | agent-sdk/runtime/child_task_activity.go:201-245 | an attempt makes four writes at most |
| `TaskGeneration.CacheIsClose` | agent-sdk/runtime/child_task_activity.go:237-245 | a cached copy is what was stored at its revision or one open activity ahead of it |
| `UsageWriter.ChildTaskUsage.NoteUsage` | agent-sdk/runtime/child_task_usage.go:52-66 | replaces the newest gauge unless closed, and asks for a worker exactly when none runs |
| `UsageWriter.ChildTaskUsage.RetireIfIdle` | agent-sdk/runtime/child_task_usage.go:70-92 | the idle check and giving up ownership are one section |
| `UsageWriter.AtMostOneWorker` | agent-sdk/runtime/child_task_usage.go:52-73 | at most one worker is alive, and then usage says one is running |
| `UsageWriter.NothingLost` | agent-sdk/runtime/child_task_usage.go:75-126 | with no worker alive usage is closed or the latest gauge is the persisted one, and while open the newest admitted gauge is the one in the Store |
| `UsageWriter.NoteStartsWorker` | agent-sdk/runtime/child_task_usage.go:52-66 | a producer's gauge is the newest at once and a worker is alive to write it |
| `UsageWriter.WorkerFinishes` | agent-sdk/runtime/child_task_usage.go:70-126 | a worker left alone writes the newest gauge, marks it persisted and retires |
| `UsageWriter.WriteIsResolved` | agent-sdk/runtime/child_task_usage.go:94-126 | a refused or lost write is tried again, and one that finds the Task no longer current closes the usage and discards the gauge |
| `UsageWriter.DiscardForgets` | agent-sdk/runtime/child_task_usage.go:19-29 | discarding seals the usage and forgets the gauge |
| `UsageWriter.WritesMoveForward` | agent-sdk/runtime/child_task_usage.go:94-112 | an older gauge never replaces a newer one in the Store |
| `UsageWriter.SealedGaugeKept` | agent-sdk/runtime/child_task_usage.go:31-50 | sealing keeps the newest gauge for the terminal write and admits no other |
| `ImageRegions.ImagePreparationRegions` | agent-sdk/model/image_prepare.go:204-228 | a picture of at most 2048 by 2048 or less than three times as long as wide is one region; any other gets 2 to 8 tiles inside the bounds, the first at the near edge, the last ending at the far edge, neighbours overlapping by at least a sixteenth of the tile edge, covering every pixel |
| `ImageRegions.EdgeBounds` | agent-sdk/model/image_prepare.go:210-213 | overlap, tile edge and picture are strictly nested, and eight tiles with overlap reach across |
| `ImageRegions.CountBounds` | agent-sdk/model/image_prepare.go:214-214 | at least two tiles, so no division by zero, at most eight, and their steps reach the far edge |
| `ImageRegions.Covered` | agent-sdk/model/image_prepare.go:216-226 | every position lies in the last tile that starts at or before it |
| `ImageCache.ImagePreparationCache.Get` | agent-sdk/model/image_prepare_cache.go:91-105 | a held entry moves to the front and is returned, an expired one is removed, and the invariant holds |
| `ImageCache.ImagePreparationCache.Put` | agent-sdk/model/image_prepare_cache.go:107-134 | the new entry stands in front of the longest prefix of the others that fits, the key's old entry gone; oversized or disabled changes nothing |
| `ImageCache.ImagePreparationCache.Evict` | agent-sdk/model/image_prepare_cache.go:120-122 | eviction from the back never meets an empty list and leaves the longest prefix that fits |
| `ImageCache.KeptIsLongest` | agent-sdk/model/image_prepare_cache.go:120-122 | no longer prefix would have fit |
| `ImageCache.ImagePreparationCache.Remove` | agent-sdk/model/image_prepare_cache.go:136-144 | map, list and byte count lose that element and nothing else |
| `ImageCache.ImagePreparationCache.Expire` | agent-sdk/model/image_prepare_cache.go:127-133 | a timer removes its own element or nothing, never a newer entry under the key |
| `ImageCache.Prepare` | agent-sdk/model/image_prepare_cache.go:43-74 | whatever other callers and timers do meanwhile, a returned image is what the loader makes of the source, given a deterministic loader and distinct keys; only cancellation returns none; a fresh entry, also one stored while waiting, is returned without loading; and the image then stands in front if it fits |
| `ImageCache.SizeAdds` | agent-sdk/model/image_prepare_cache.go:108-111 | the accounted size adds up over notes, data, types and parts |
| `Retry.RetryDelayForAttempt` | agent-sdk/model/retry.go:453-474 | computes the capped backoff, including the defaults for missing values |
| `Retry.BackoffBounds` | agent-sdk/model/retry.go:453-474 | the backoff is positive, never above the cap, never shorter for the next retry, never below the exact exponential and at most one above it |
| `Retry.BackoffMonotone` | agent-sdk/model/retry.go:453-474 | never shorter for any later retry |
| `Retry.BackoffExact` | agent-sdk/model/retry.go:464-469 | it differs from the exact capped exponential exactly where the exponential is one below the cap |
| `Retry.WaitBounds` | agent-sdk/model/retry.go:323-332 | the jittered wait is at least half the backoff and the server's minimum, and above the backoff only if the server asked |
| `Retry.EffectiveIsLeast` | agent-sdk/model/retry.go:315-319 | the running limit is the smallest finite limit seen, and absent exactly when there was none |
| `Retry.RunAttempt` | agent-sdk/model/retry.go:203-221 | the consumer takes the attempt's non-nil events up to where it stops, and a commit is reported exactly when a final response was passed on |
| `Retry.Generate` | agent-sdk/model/retry.go:158-199 | every stream is legal, within budget, shows after each attempt exactly what the consumer took of it, waits before each retry at least what the server asked and half the capped exponential of the failure's class and beyond it only if the server asked, has one attempt when the provider runs tools, and ends for the reason it gives: what its last attempt met decides between all seven endings |
| `Retry.LimitExactly` | agent-sdk/model/retry.go:315-319 | a failure limits the retries exactly when its class does, to the smaller of that number and the failure's own |
| `Retry.OutsExactly` | agent-sdk/model/retry.go:203-221 | what the consumer sees are exactly the non-nil events, in order, each saying whether it was final |
| `Retry.NoAttemptAfterFinal` | agent-sdk/model/retry.go:167-196 | no attempt starts once a final response was passed on |
| `Retry.OneResetBetween` | agent-sdk/model/retry.go:336-349 | exactly one reset, right before the second, lies between consecutive attempts |
| `Retry.RetriesWithinLimits` | agent-sdk/model/retry.go:315-322 | a retry is never beyond a finite limit any earlier failure set |
| `Citations.ParseCitationMarkers` | agent-sdk/model/citation.go:143-193 | returns the cleaned text and the citations, none dropped or moved by normalising: the text is, from the pieces of the input alone, the prefixes, malformed markers and the tail, with blanks and tabs missing only before a citation that ends its line, and citation j lies at the size of what is kept before its marker |
| `Citations.CleanIsAssembled` | agent-sdk/model/citation.go:152-191 | the same over every offset, by induction on the scan |
| `Citations.MarksExactly` | agent-sdk/model/citation.go:168-189 | the cited pieces are exactly those with a well-formed marker, in order |
| `Citations.RefsExactly` | agent-sdk/model/citation.go:221-242 | a marker has references exactly when it is start, cite, separated parts and end, and they are the trimmed valid parts |
| `Citations.ScanOfIsScan` | agent-sdk/model/citation.go:152-167 | scanning cuts the text into marker-free prefixes, markers up to their first end, and an unclosed tail |
| `Citations.ScanRoundTrip` | agent-sdk/model/citation.go:152-167 | such a cut is unique: it is recovered from the text |
| `Citations.OneCitationPerMarker` | agent-sdk/model/citation.go:168-189 | one citation with a source for every well-formed marker, in order |
| `Citations.CitationsInRange` | agent-sdk/model/citation.go:183-187 | citations are points between characters of the cleaned text, in bytes and from left to right |
| `Utf8.ValidExactly` | agent-sdk/model/citation.go:78-83 | the byte test for an offset accepts exactly the offsets between characters |
| `Utf8.EncodeCharExactly` | agent-sdk/model/citation.go:78-83 | the bytes of a character give its code point back, one to four of them by its range |
| `Citations.InTextExactly` | agent-sdk/model/citation.go:54-58 | a range is accepted exactly when both ends lie between characters and in order |
| `Citations.ParseAgain` | agent-sdk/model/citation.go:143-193 | parsing the cleaned text again changes nothing and finds nothing |
| `Citations.CitationSourcesForRefs` | agent-sdk/model/citation.go:195-219 | every reference takes its first unused source or stands alone, the rest follow, and the result is normalised |
| `Citations.Match` | agent-sdk/model/citation.go:200-208 | the source taken is unused, carries the reference, and no earlier unused one does; none means none does |
| `Citations.AssignPicks` | agent-sdk/model/citation.go:195-213 | every reference gets the first unused source that carries it, or stands alone, and a source is used once |
| `Citations.UnusedExactly` | agent-sdk/model/citation.go:213-217 | the sources no reference took follow in order |
| `Citations.AlwaysASource` | agent-sdk/model/citation.go:195-219 | a well-formed marker always keeps a source |
| `Citations.NormalSourcesNormal` | agent-sdk/model/citation.go:85-112 | normalised sources are trimmed, name something and have different keys |
| `Citations.NormalStays` | agent-sdk/model/citation.go:85-112 | normalising twice changes nothing |
| `Citations.NormalIsFirsts` | agent-sdk/model/citation.go:85-112 | normalising keeps exactly the first usable source of every key, trimmed and in order |
| `Citations.NormalizedInText` | agent-sdk/model/citation.go:48-76 | normalised citations lie between characters of the text, have sources and are ordered by start and then end |
| `Citations.KeptExactly` | agent-sdk/model/citation.go:53-68 | exactly the citations with a valid range and a source are kept, with their sources normalised |
| `Citations.SortIsStable` | agent-sdk/model/citation.go:69-74 | citations of one range keep their order |
| `Citations.SortOrders` | agent-sdk/model/citation.go:69-74 | sorting orders the citations and loses none |
| `Citations.TextContentCitations` | agent-sdk/model/citation.go:117-137 | collects the citations of the non-empty text parts, shifted by the bytes before them |
| `Citations.ShiftedSelects` | agent-sdk/model/model.go:591-599 | every shifted citation is a valid range of the joined text and selects there the bytes it selected in its own part |
| `Citations.ShiftedAll` | agent-sdk/model/citation.go:117-137 | and none is missing: every citation of every part is there at its part's offset |

## Left out

- JSON-RPC and ACP wire encoding, `draftConvert`, tool presentation, titles and terminal metadata.
- Model providers, prompts, salvage requests and summary text: a model request is a reply of text, overflow or failure.
- Route publication content, `handleRequest` and the translation of notifications; a publication only succeeds or fails.
- Failed publications of a draft Session, and the `pending` and config fields a prompt carries.
- The initial history replay of a draft Session: it is the initial state of the runs.
- Draft.ShownIsOutstanding: holds only where no unsettled Turn is made active again, because the code does not publish when it prepares a Turn.
- 64-bit wrap-around of sequences, revisions, counters and durations.
- The request guard of a checkpoint commit (`checkpointValidationKey`), the missing-event error, and how the size comparison before adoption is computed.
- Transient events, event migration and canonicalisation in the Store; events are compared by an abstract payload.
- Shared pending resource approvals (`resolveResourceApproval`): a waiter is a call that is approved without a new grant.
- Per-call policy decisions and approval presentation; a call is trusted, consults the store or is resolved.
- Single-event appends of Stores without batches, active plan cleanup, and the order of recovery updates after sorting by key.
- Tool executions and their recovery; they only write Step records that never wait.
- The Run and Turn transitions around an approval (`resumeAfterApproval`, `abandonWaitingApproval`) are ordinary transitions of the journal, not tied to one token.
- Task output, leases and metadata other than generation, activity, running and the cancellation journal.
- The goroutines of `persist` and `persistUsageLoop` are steps over shared state, not Dafny threads, so blocking and fairness are not captured.
- Decoding, scaling and encoding of images, and `prepareRequest`.
- Error classification of the retry loop: whether a failure is retryable or backpressure is given with it.
- Texts that are not valid UTF-8: citation texts are sequences of characters.
- Several concurrent Hosts on one grant file, and file modes: a change has the file to itself.
- Redaction is defined on JSON values; Go values that are not JSON cannot occur.
- Watermark tables, `scripts/`, `agent-sdk/display/`, workspace paths and clone helpers: constant tables and glue around the modelled code.
