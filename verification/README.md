# Runner observability: a verified model

Runners report to a monitor. A runner-side agent keeps events in a durable outbox on disk and
delivers them over an unreliable link; a heartbeat producer numbers its events so that they can
be put in order. The monitor appends every event to a log, projects it into one row per runner and
per job, marks silent rows offline, opens and closes incidents, and can rebuild its projections by
replaying the log. A deployment tool switches between installed releases and rolls back. An
installer script writes the monitor's private key with a hand-written DER encoder.

This project models that core and proves what it is relied on for.

| files | subject |
|---|---|
| `Contracts`, `EventPayload`, `EventSchema`, `ResourceIds`, `Text`, `Options` | events, their JSON trees, the closed schema as a table of rules, job resource ids |
| `JsonText`, `TextOrder` | the compact JSON text of a tree with a reader for it, and the order of texts |
| `Tables`, `Filtering`, `Health`, `Projection`, `Store`, `History` | the monitor's statements, as methods over a database object |
| `Monitor` | the same monitor as a transition system: ingest, refresh, replay, prune, in any order |
| `Invariants`, `Replay`, `Queries`, `Safety`, `LivenessRefresh`, `Retention` | what holds in every reachable state |
| `OutboxFiles`, `OutboxCapacity`, `Sums`, `Outbox` | the outbox, one file step at a time, each of which may fail, raise past its handlers, or be the last |
| `OutboxPass`, `OutboxCalls`, `OutboxDrains` | what a drain lists, how its calls go, what it comes to, and series of drains |
| `OutboxRuns` | series of enqueues and drains |
| `Delivery`, `EndToEnd` | the retry loop, the link, and outbox, heartbeat producer, link and store as one system |
| `Heartbeat`, `HeartbeatSchedule` | sequence numbers over crashes, and the schedule of the loop |
| `Releases`, `Deploy` | staging, switching and rolling back releases |
| `Der`, `Pem` | the private key encoder, with a decoder for the public standards as its specification |

How the parts fit. `MonitorStore.Store` is proved statement by statement against `Monitor.Next`, and
its `Valid` says that its tables are those of the last world of a run; every theorem about runs
(`IsRun`) is therefore a theorem about the class. The world of a run also keeps the full log, which
retention prunes only from the table. `Delivery.Link` sends to a `Store`; `Outbox.DurableOutbox`
drains over a `Link`; `EndToEnd.Deployment` joins them with the heartbeat producer, so its `Valid`
survives any interleaving of enqueues, drains, heartbeats, other producers, refreshes, replays and
prunes, with every failure and crash the parameters can describe. A drain is specified by the trace
of its deliver calls, each with the state before and after it (`OutboxDrains.Ran`), and the lemmas
about traces say what every drain comes to. Methods that change state are specified by functions on values
(`Project`, `Refresh`, `Rebuild`, `Opened`, `Encoded`, ...); the lemmas are about those functions.

Thresholds, status classes, orders and columns appear in the theorems in numbers, characters and
fields of their own, so that the predicates the methods decide by (`Temporary`, `Expired`,
`Matches`, `Before`, `JobAfter`, `Valid`, ...) are held to a definition that is not theirs.

Times are microseconds as integers in the store and real seconds in delivery and scheduling. A
database transaction that fails leaves the tables as they were (`Database.Rollback`). Failures,
crashes, durations, readable files, probe results and the clock are parameters or scripts
(`Fault`, `Lookup`, `Fate`, `Sight`, `Cycle`, `Check`) that range over everything.

## Where a promise needs a condition

- The outbox's byte and event limits hold after an enqueue exactly when both directory listings
  succeed: a listing that fails counts as an empty directory (`outbox.py:377-382`).
  See `RoomMeansFitsExactlyWhenListed`.
- A valid dead letter keeps its id from being delivered exactly when the drain can list and read it;
  otherwise a pending file of that id is offered again. See `SeenDeadLetterStopsDelivery`,
  `BuriedStaysBuried` for whole runs, and the concrete drain `UnlistedDeadLetterIsOffered`. No step
  ever gives such an id a new pending file.
- A drain's counters add up to the number of valid pending events exactly when no delivered file
  vanishes before it is unlinked (that event is counted nowhere, `outbox.py:223-228`) and no error
  escapes from a dead-letter move: the look at its target (`outbox.py:250`) and the removal of its
  temporary file (`outbox.py:291-296`) are outside the handlers, and the drain then reports zeros
  (`outbox.py:188-190`), whatever it has delivered. See `DrainReports`.
- The heartbeat loop ends on a stop request, or on an error that escapes from a heartbeat: creating
  the state directory and looking for the state file raise past the handlers (`heartbeat.py:223`,
  `heartbeat.py:248`, `heartbeat.py:478`). See `Run`, whose `escaped` says which.
- A deployment of a revision that was not active leaves it active exactly when
  `WillSwitch(order, before) && !WillUndo(order, before) && !EndsInNewline(revision)`, all three read
  off what the deployment is given and finds: it moves the pointer file when the revision is valid,
  preflight and service stop pass, there is a source and no file operation fails up to the
  replacement (`deploy.py:496-529`); it moves it back when the process survives the replacement, a
  check or the service start fails, and the rollback does not. So a failing deployment leaves its
  revision active when the process ends in between, or when the rollback itself raises
  (`deploy.py:629`) because a file operation fails or the old pointer text is no valid revision. See
  `ActiveExactlyIfKept`, `ActiveExactlyIfLeft` for whole series, and the concrete
  `FailedRollbackKeepsRevision`; deployments that return a failure never do it.
- A heartbeat is applied at its first arrival when its event id is new to the store: one that reuses
  an id is taken for a duplicate (`store.py:61-74`). See `HeartbeatsAreApplied`.
- A drain delivers everything within its count budget when the callback returns, no file step fails,
  the replies are successes and take less than the time budget together. See `SmoothDrainDelivers`,
  and `SmoothDrainsEmpty` for as many drains as the list asks for. What becomes of an event
  otherwise is decided by its last reply, see `DrainFollowsReplies`.
- Replay keeps a runner's offline reason unless both its incidents are active; then the order in
  which the database lists them decides. See `SameButReasons`.
- A job resource id parses back exactly when its repository has no `:`; the event contract
  guarantees that. See `ParsePrintedId`.
- The revision pattern's `$` accepts a trailing line feed (`deploy.py:70`), which reading the pointer
  strips: the deployed revision reads as the current one exactly when it does not end in a line feed.
  See `RevisionReadsBack` and `NewlineIsAccepted`.

## Model

| member | source | states |
|---|---|---|
| Replay.ReplayIsIdentityInEveryRun | src/runner_observability/store.py:323-374 | after any run without pruning, replay succeeds and leaves log, flags, incidents, watermarks, job rows and runner rows as they were, except that a runner with both incidents active may show either reason |
| Replay.ReplayIsIdentity | src/runner_observability/store.py:516-531 | the same for one consistent world and any order in which the active incidents are listed |
| Replay.LivenessFollowsIncidents | src/runner_observability/health.py:13-48 | in every reachable state a runner is offline iff one of its incidents is active, a job iff its timeout incident is, a finished job is online, and each active incident belongs to an existing row |
| Replay.RunKeepsInv | src/runner_observability/store.py:33-531 | the invariant of log, tables, liveness and incidents holds after every prefix of every run |
| Replay.NextKeepsInv | src/runner_observability/store.py:33-531 | each ingest, refresh, replay and prune keeps that invariant |
| Replay.UnprunedStaysComplete | src/runner_observability/store.py:510-514 | history stays complete until something is pruned |
| Replay.CompleteHistoryIsTheLog | src/runner_observability/store.py:510-514 | while history is complete the events table is the whole log and every row of it still validates |
| Invariants.IngestKeepsInv | src/runner_observability/store.py:51-106 | ingesting keeps watermarks, rows, flags, liveness and incidents consistent |
| Invariants.RefreshKeepsInv | src/runner_observability/store.py:284-321 | so does a refresh, at any time |
| Invariants.PruneKeepsInv | src/runner_observability/store.py:376-398 | so does retention: the table stays the unpruned part of the log, in order |
| Invariants.AcceptsIgnoresLiveness | src/runner_observability/projection.py:32-36 | accepting an event never depends on liveness, offline reasons or what a refresh changed |
| Queries.RowsAreQueries | src/runner_observability/projection.py:113-215 | in every consistent world each runner row, job row and watermark is the answer of a query on the applied entries of the full log, column by column: last job event, last job.finished, last runner.heartbeat, last event of the job, largest sequence |
| Queries.JobRowIsLastEvent | src/runner_observability/projection.py:173-215 | a job has a row iff an applied started, heartbeat or finished event spoke of it, and the row holds what the last of these said: runner, name, link, id, time, finished or not, and the outcome iff it is the end |
| Queries.WatermarkIsLargest | src/runner_observability/projection.py:80-87 | a stream has a watermark iff an event of it was applied, and it is the largest applied sequence |
| Queries.StreamsIncrease | src/runner_observability/projection.py:69-77 | applied sequences of a stream strictly increase along the log |
| Queries.AcceptanceIsDeclarative | src/runner_observability/projection.py:19-36 | an event is accepted iff it advances its stream, its job has not finished and no newer attempt of its workflow run is the runner's current one, all read off the log |
| Queries.FlagsAreDeserved | src/runner_observability/store.py:87-91 | each entry's projection_applied flag is what the entries before it warrant |
| Queries.LatestIsLast | src/runner_observability/projection.py:113-170 | the query's "latest entry" is the last one that qualifies, and none means there is none |
| Safety.FinishedJobIsFrozen | src/runner_observability/projection.py:102-110 | once a job is finished its row never changes again in the run |
| Safety.AppliedEventShows | src/runner_observability/store.py:87-100 | an applied shutdown has its runner offline with an open incident at once; any other applied event has it online with none open, and a job event its job as well |
| Safety.AttemptNeverDecreases | src/runner_observability/projection.py:90-99 | while a runner stays on one workflow run of one repository its current attempt never goes down |
| Safety.ReingestChangesNothing | src/runner_observability/store.py:61-74 | sending an applied event again, pruned or not, changes no row, watermark or incident |
| Safety.OnlyFirstArrivalsCount | src/runner_observability/store.py:61-74 | without pruning, a run ends in the world it would have ended in had each id arrived only at its first arrival |
| Safety.ArrivedIsRecorded | src/runner_observability/store.py:61-86 | without pruning, an id is in the table iff it ever arrived |
| Safety.LogHoldsEachIdOnce | src/runner_observability/store.py:61-74 | without pruning, the log holds each id at most once |
| LivenessRefresh.OneNoticePerFlip | src/runner_observability/store.py:284-321 | each row that a refresh turns offline yields exactly one new incident notice, and there are no others |
| LivenessRefresh.RefreshSettles | src/runner_observability/store.py:284-321 | after a refresh nobody online has been silent for more than 600 000 000 microseconds; fresh and finished rows are untouched |
| LivenessRefresh.RefreshAbsorbs | src/runner_observability/store.py:284-321 | refresh at t1 then t2 gives the rows of refresh at t2 alone |
| MonitorStore.Store.Ingest | src/runner_observability/store.py:51-106 | one ingest step of the run, or nothing on an invalid event or a failing database; the answer's duplicate, applied and watermark fields are right |
| MonitorStore.Store.Append | src/runner_observability/store.py:75-100 | the transaction's statements together make the ingest of the tables |
| MonitorStore.Store.RefreshLiveness | src/runner_observability/store.py:284-321 | one refresh step, with as many notices as rows turned offline; nothing on failure |
| MonitorStore.Store.Replay | src/runner_observability/store.py:323-374 | succeeds iff history is complete and the database does not fail, is then the identity up to reasons, else changes nothing; keeps the degraded reasons |
| MonitorStore.Store.RebuildFromEvents | src/runner_observability/store.py:341-356 | re-projecting the stored rows one by one yields the rebuilt views and fresh flags |
| MonitorStore.Store.RestoreOfflineRunners | src/runner_observability/store.py:357-361 | exactly the runners that were offline are offline again, each with its reason |
| MonitorStore.Store.RestoreOfflineJobs | src/runner_observability/store.py:362-367 | the same for jobs |
| MonitorStore.Store.RestoreOfflineIncidentLiveness | src/runner_observability/store.py:516-531 | then restores offline liveness from the active incidents, in the order they are listed |
| MonitorStore.Store.PruneHistory | src/runner_observability/store.py:376-398 | a row stays iff it was received at or after now - 604 800 000 000 microseconds, in the same order; marks history incomplete iff it removed any |
| Retention.PruneKeepsSevenDays | src/runner_observability/store.py:376-398 | a prune leaves exactly the rows of the last seven days, touches no row or incident, and leaves history complete only if that was all of it |
| Retention.PruneKeepsPlaces | src/runner_observability/store.py:376-398 | the places of the rows that stay, ascending, are those received within the seven days |
| Retention.FreshTableStays | src/runner_observability/store.py:376-398 | within seven days of its oldest row a table is left as it is |
| Retention.PruneAbsorbs | src/runner_observability/store.py:376-398 | pruning at t1 and again at t2 >= t1 is pruning at t2 |
| MonitorStore.Store.SelectEvent | src/runner_observability/store.py:62-64 | finds the row of an id iff there is one |
| Projection.ApplyEvent | src/runner_observability/projection.py:19-66 | the upserts, watermark and incident statements together are the projection of an accepted event, whose rows `Queries` reads off the log, and nothing for a rejected one |
| Projection.UpsertRunner | src/runner_observability/projection.py:113-170 | the runner's new row, column by column, with what it keeps of the old one |
| Projection.UpsertJob | src/runner_observability/projection.py:173-215 | the job's row holds the event's facts and is online |
| Health.OpenIncident | src/runner_observability/health.py:13-39 | opens the incident and reports it iff it was not active, open and dated from now; an active one is untouched |
| Health.RecoveryCloses | src/runner_observability/health.py:42-48 | a recovery leaves no incident of the resource active, dates those it closes, touches nothing else, and is idempotent |
| Health.ReopensAfterRecovery | src/runner_observability/health.py:13-39 | an incident opened after a recovery is active, opened and last changed then, and not closed |
| History.HistoryPage | src/runner_observability/store.py:157-201 | the streaming scan returns slice [(page-1)*size, page*size) of the reversed, filtered, exclusion-stripped history, and has_next iff more matches remain; every row of a page was asked for and is of no excluded type |
| History.PagesTile | src/runner_observability/store.py:157-201 | pages 1..n put together are the first n*size matches, without gap or overlap |
| History.LastPageCompletes | src/runner_observability/store.py:157-201 | pages up to the last are the whole result |
| History.ReadHistory | src/runner_observability/store.py:143-155 | a row is returned iff it is in the table, in the closed time window, and carries the wanted runner, repository, run and outcome |
| History.HistoryPlaces | src/runner_observability/store.py:608-620 | each of these rows once for each of its places, in the order of the table |
| History.NewestFirstPlaces | src/runner_observability/store.py:157-201 | what is paged is exactly the rows asked for of no excluded type, the last of the table first |
| History.NothingAskedIsEverything | src/runner_observability/store.py:608-620 | without filters the whole table is returned |
| History.WindowsJoin | src/runner_observability/store.py:616-619 | the windows [a, m] and [m+1, b] together hold each row exactly as often as the window [a, b] |
| ResourceIds.ParsePrintedId | src/runner_observability/store.py:577-589 | a printed job resource id parses back to its key iff the repository has no ':' |
| ResourceIds.ResourceIdInjective | src/runner_observability/projection.py:218-221 | two keys without ':' never share an id |
| ResourceIds.ResourceIdReads | src/runner_observability/projection.py:218-221 | a concrete id: repository, run, attempt and job in decimal between colons |
| Contracts.RepositoryHasNoSeparator | src/runner_observability/contracts.py:36 | the repository pattern excludes ':' |
| EventPayload.AcceptsExactlyEvents | src/runner_observability/contracts.py:64-87 | validation accepts a JSON tree as an event iff the tree is that valid event's own: no field missing, added, mistyped or lost |
| EventSchema.AcceptsExactlyWhatConforms | src/runner_observability/contracts.py:64-200 | and accepts a tree at all iff it conforms to the closed schema, given as a table: per type of event the exact fields, and per field its kind, length, range, words or spelling |
| EventPayload.StoredEventValidates | src/runner_observability/store.py:534-547 | freezing, thawing and validating again gives the same event |
| EventPayload.ThawUndoesFreeze | src/runner_observability/contracts.py:239-244 | thawing a frozen tree gives the tree back |
| EventPayload.JobReads | src/runner_observability/contracts.py:125-145 | a job object is read iff it is exactly that job's fields |
| EventPayload.ProgressReads | src/runner_observability/contracts.py:148-158 | the same for progress reports |
| EventPayload.FallbackReads | src/runner_observability/contracts.py:161-168 | the same for fallback reports |
| JsonText.TreeReadsBack | src/runner_observability/outbox.py:411-412 | every JSON tree reads back from its compact text with sorted names, whatever follows but a digit (RFC 8259) |
| JsonText.LiteralReadsBack | src/runner_observability/outbox.py:411-412 | every text reads back from its ASCII-only literal, with short escapes, \uXXXX and surrogate pairs (RFC 8259 section 7) |
| JsonText.ObjectLength | src/runner_observability/outbox.py:411-412 | the length of an object's text is the sum over its members, in whatever order they stand |
| OutboxFiles.FileReadsBack | src/runner_observability/outbox.py:320-338 | what is written to a pending file reads back as exactly its event and its queueing time, and the event validates as itself iff it is valid |
| EndToEnd.DeliveredAtLeastOnce | src/runner_observability/outbox.py:192-240 | at any moment an accepted event is held by the outbox with its content or its id is in the store's log; one removed as delivered is in the log |
| EndToEnd.DeliveredAsSent | src/runner_observability/outbox.py:192-240 | and the log has the event itself, unless something else arrived under its id |
| EndToEnd.SmoothDrainIsLogged | src/runner_observability/outbox.py:192-240 | when no file step fails and every call that the count budget allows is answered with success, all within the time budget by the durations alone, each deliverable event within the count budget ends up in the store's log and off the pending directory |
| EndToEnd.SmoothDrainsAreLogged | src/runner_observability/outbox.py:192-240 | k such drains in a row leave nothing deliverable of a list of at most k * max_drain_events: every event of it is in the store's log and off the pending directory |
| EndToEnd.HeartbeatsAreApplied | src/runner_observability/projection.py:69-77 | while nobody else uses the producer's ids, each of its heartbeats whose event id has not arrived before is applied, through any failures, retries, drains, refreshes, replays and prunes |
| EndToEnd.NoPairTwice | src/runner_observability/heartbeat.py:241-245 | no two heartbeats of a deployment carry the same epoch and number |
| EndToEnd.BuriedStaysBuried | src/runner_observability/outbox.py:86-167 | once an id has a valid dead letter it keeps it, no later step, whatever its event, gives the id a pending file it did not have, and no later drain that can list and read the dead letter offers it |
| EndToEnd.UnlistedDeadLetterIsOffered | src/runner_observability/outbox.py:377-382 | a concrete drain that could not list the dead letters and calls the monitor with an event whose valid dead letter was there before and is there after |
| EndToEnd.EffectOnce | src/runner_observability/store.py:51-106 | while nothing is pruned the log holds each id once and the store is as if each event had arrived once |
| EndToEnd.DiskStaysBounded | src/runner_observability/outbox.py:107-113 | distinct ids within max_events and bytes, an id counted once at its dead-letter size, within max_bytes plus max_events times 46, for the directories of a running deployment |
| EndToEnd.Deployment.Drain | src/runner_observability/agent.py:246-282 | keeps the system's invariant and the capacity of whole runs, and ends within max_drain_seconds plus 1 ms |
| EndToEnd.Deployment.Beat | src/runner_observability/heartbeat.py:460-488 | the heartbeat service's flush of the outbox and its own heartbeat keep the system's and the producer's invariants |
| EndToEnd.Deployment.Enqueue | src/runner_observability/outbox.py:86-140 | keeps both, whatever step fails |
| Outbox.DurableOutbox.Enqueue | src/runner_observability/outbox.py:77-140 | queued means persisted with this content; duplicate iff this very event is stored legibly under its id, conflict iff something else is; a new, valid event for which the check sees room is refused only if a file step fails; every other refusal names the first thing that keeps the event out; an id with a pending file or dead letter is never queued again; nothing accepted is lost |
| Outbox.DurableOutbox.ExistingEvent | src/runner_observability/outbox.py:298-309 | absent iff neither file exists; otherwise the valid stored event or an illegible one |
| Outbox.DurableOutbox.HasRoom | src/runner_observability/outbox.py:311-318 | the check passes iff what the listings show leaves room |
| Outbox.DurableOutbox.PendingEvents | src/runner_observability/outbox.py:142-167 | removes only files whose dead letter it sees, and lists every other readable file once, in dictionary order of the queueing times and then of the ids, counting the corrupt |
| Outbox.DurableOutbox.Drain | src/runner_observability/outbox.py:169-240 | lists exactly the deliverable events, sorted; calls a prefix of them, each once, until the list, the count or the time budget is exhausted; each call's verdict fits its answer and its files; nothing accepted is lost; an escaping error is reported as zeros |
| OutboxDrains.DrainComesTo | src/runner_observability/outbox.py:192-240 | for every such drain: what it offers has no visible dead letter and is all that is deliverable once the list is done; each call fits its answer; what each verdict says holds of the files at the end; only what was called is acknowledged, and only with the store's confirmation |
| OutboxDrains.OldestFirst | src/runner_observability/outbox.py:166 | no event is called while one that the drain could deliver, and that was queued strictly earlier, has not been called before it |
| OutboxDrains.ListedInTurn | src/runner_observability/outbox.py:166 | of two listed events the first has the earlier queueing time in dictionary order, or the same and the earlier id |
| OutboxDrains.DrainReports | src/runner_observability/outbox.py:185-240 | the result counts the verdicts, and accounts for everything listed iff no file vanished and no error escaped |
| OutboxDrains.DrainFollowsReplies | src/runner_observability/outbox.py:209-239 | without file faults, each event that had no dead letter met transient replies up to its last one, in the order of the calls, and that one decides: a success has removed it, a transient reply leaves it pending, any other has dead-lettered it under its reason, all as the drain ends; an event answered after the drain's time stays pending |
| OutboxDrains.StatusesDecide | src/runner_observability/agent.py:101-124 | in numbers: three lost connections, 429s or 5xx leave an event pending; a first status that is not 2xx, 429 or 5xx dead-letters it as rejected; a 2xx removes it |
| OutboxDrains.SmoothDrainDelivers | src/runner_observability/outbox.py:192-240 | a drain that nothing disturbs, which is said of the files, replies and durations it meets, confirms and removes exactly the first max_drain_events of its list, and the rest is what is deliverable afterwards |
| OutboxDrains.SmoothDrainsDeliver | src/runner_observability/outbox.py:192-240 | so a series of k drains works through the first drain's list in its order: after it the first k * max_drain_events are confirmed and gone, and the others are what is deliverable |
| OutboxDrains.SmoothDrainsEmpty | src/runner_observability/outbox.py:192-240 | and a list no longer than that is emptied |
| OutboxDrains.SortedIsUnique | src/runner_observability/outbox.py:166 | sorting by queued_at and event_id leaves no choice: two sorted lists of the same files are the same |
| OutboxCalls.CallFollowsReplies | src/runner_observability/agent.py:90-129 | a call in time, without file faults or a dead letter, has the verdict of its last reply; a first reply that is final decides at once, and three transient ones keep the event |
| OutboxCalls.FilesOfTrace | src/runner_observability/outbox.py:202-240 | whatever the calls, every verdict is borne out by the files at the end, and the rest of the list is still on file |
| OutboxCalls.SmoothCallsDeliver | src/runner_observability/outbox.py:209-228 | calls answered with success, without file faults and with durations within the budget, all have the verdict delivered and the store's confirmation, and use up one reply each |
| OutboxRuns.DeadLettersAreFinal | src/runner_observability/outbox.py:86-167 | in any series of enqueues and drains, dead letters persist, no step, whatever its event, gives their ids new pending files, and drains that see them do not offer them |
| OutboxCalls.CountersAddUp | src/runner_observability/outbox.py:202-240 | counters that match the verdicts add up to their number, vanished files aside |
| Outbox.DurableOutbox.Settle | src/runner_observability/outbox.py:219-239 | late answers and temporary failures keep the event, other failures dead-letter it under their reason, only a delivery removes it, whatever file step fails |
| Outbox.DurableOutbox.DrainOne | src/runner_observability/outbox.py:209-239 | one delivery: the verdict fits what the call returned and what is on disk afterwards; a raising call retains the event |
| Outbox.DurableOutbox.MoveToDeadLetter | src/runner_observability/outbox.py:242-296 | the pending file goes only once its dead letter is in place, no dead letter is overwritten, beside an existing one it goes exactly if that one reads and says the same, and an error outside the handlers changes nothing |
| Outbox.DurableOutbox.Deliver | src/runner_observability/agent.py:265-279 | a delivery within a drain gets only what is left of the drain's time, and its result is what the replies it met make of it: that of the last one, earlier ones having been transient |
| OutboxPass.SeenDeadLetterStopsDelivery | src/runner_observability/outbox.py:146-158 | a readable pending file is not deliverable iff the dead letters are listed, one of its id can be read, and it holds a valid event of that id under one of the five known reasons |
| Outbox.EnqueueKeepsCapacity | src/runner_observability/outbox.py:107-113 | with both listings in order, right after an enqueue count and bytes are within the limits, and the capacity of whole runs is kept |
| OutboxCapacity.RoomMeansFitsExactlyWhenListed | src/runner_observability/outbox.py:311-318 | the check says whether one more file keeps the limits, for every content of the directories, iff both listings succeed |
| OutboxCapacity.CapacityBound | src/runner_observability/outbox.py:242-296 | over all later runs distinct ids stay within max_events, and bytes, an id counted once at its dead-letter size, within max_bytes plus max_events times the longest reason field |
| OutboxCapacity.DrainStaysWithin | src/runner_observability/outbox.py:192-240 | drains and crashes never leave that bound |
| OutboxCapacity.EnqueueStaysWithin | src/runner_observability/outbox.py:107-113 | nor does an enqueue that passed the check |
| OutboxCapacity.LengthMeasures | src/runner_observability/outbox.py:411-412 | the JSON text of a dead letter is longer than that of its pending file by at most the 46 characters of the longest reason field |
| OutboxFiles.InsertedKeepsOrder | src/runner_observability/outbox.py:166 | sorting in one more envelope keeps the order and loses none |
| OutboxFiles.SortedMeans | src/runner_observability/outbox.py:166 | sorted means ascending in dictionary order of queued_at, then of event_id |
| TextOrder.StringLeMeans | src/runner_observability/outbox.py:166 | one text is at most another iff they are equal, or agree up to a place where the first ends or has the smaller character |
| OutboxFiles.Disk.UnlinkPending | src/runner_observability/outbox.py:223-228 | an unlink removes the file, finds it gone, fails, or is the process's last step |
| Delivery.DeliverEvent | src/runner_observability/agent.py:47-129 | at most 3 calls, a second of sleep before the second and two before the third, back within min(5, max_duration_seconds) plus 1 ms; the result is that of the last reply, delivered iff it is 2xx, and then the store has logged the event; temporary iff it is 429 or 5xx, rejected iff any other status; only a lost connection, a 429 or a 5xx is followed by another call, and is given up on only after three calls or a spent budget; the store sees nothing but arrivals of this event |
| Delivery.RefusedAtOnce | src/runner_observability/agent.py:115-124 | a first status such as 400 or 401 ends the delivery after one call, as rejected |
| Delivery.Link.Transport | src/runner_observability/agent.py:90-129 | a call takes as long as its fate says, within its timeout, and meets the next fate: request or reply may be lost, and a 2xx comes only after the store committed |
| Delivery.IngestedIsLogged | src/runner_observability/store.py:51-106 | after a successful ingest the id is in the log, duplicate or not |
| Heartbeat.HeartbeatProducer.EmitOnce | src/runner_observability/heartbeat.py:460-488 | a heartbeat is sent only under a number saved as used before; over all crashes, failed saves and restarts the numbers of an epoch strictly increase; with a credential, its own state file and no failing step it always gets sent; an error escapes only from the look at the state file, creating its directory or clearing a temporary file |
| Heartbeat.HeartbeatProducer.Load | src/runner_observability/heartbeat.py:213-239 | a file that names no other runner or producer, with a well-formed epoch and a positive number, is taken up; one that names another is refused; anything else is replaced by a fresh epoch; never a pair used before |
| Heartbeat.HeartbeatProducer.Reserve | src/runner_observability/heartbeat.py:241-245 | the following number is on disk before this one is handed out |
| Heartbeat.FirstArrivalIsApplied | src/runner_observability/projection.py:69-77 | if heartbeats arrive in sending order, each is applied at its first arrival, whatever else the store goes through |
| Heartbeat.LoggedHasArrived | src/runner_observability/store.py:75-86 | every logged event of a run is one that arrived in it |
| HeartbeatSchedule.HeartbeatLoop.Run | src/runner_observability/heartbeat.py:502-522 | every due time is start plus a whole number of intervals, the first grid point after the last heartbeat ended; lateness is that of the heartbeat's own wait and never adds up; only a stop request or an escaping error ends the loop |
| HeartbeatSchedule.HeartbeatLoop.CatchUp | src/runner_observability/heartbeat.py:518-521 | the catch-up loop ends at the first later grid point after now |
| HeartbeatSchedule.NoSlotTwice | src/runner_observability/heartbeat.py:502-522 | no interval slot sees two heartbeats begin |
| HeartbeatSchedule.SlotsIncrease | src/runner_observability/heartbeat.py:502-522 | the slots of successive heartbeats strictly increase |
| Deploy.DeployRelease | src/runner_observability/deploy.py:475-596 | a lawful deployment: its order and the layout it finds decide exactly when the pointer file moves to the new revision and when it moves back, for every script of file faults and process ends; success is reported exactly when the pointer moved, the process went on and checks and start passed; a failed preflight, a service that does not stop and a failing check are named; a returned failure has the previous revision in it, or none if its directory is gone; other releases are untouched however it ends |
| Deploy.RollbackAfterFailure | src/runner_observability/deploy.py:599-642 | moves the pointer back to the previous revision, or to none, exactly when that revision is valid and the file operations get that far, and reports which; otherwise raises or stops |
| Deploy.UndoUnfinished | src/runner_observability/deploy.py:530-554 | after a failure to stage or activate, the previous revision stays current however this ends |
| Deploy.ActiveExactlyIfKept | src/runner_observability/deploy.py:475-596 | however a deployment of a revision that is not active ends, the revision is current iff, by the order and the layout before it, the pointer moves to it and does not move back, and it does not end in a line feed; among normal returns that is success, which needs every check and the service to pass |
| Deploy.ActiveExactlyIfLeft | src/runner_observability/deploy.py:486-495 | over any series of deployments, however each ends, a revision not active at first is active iff some deployment left it in the pointer and none since took it out, both decided by their orders and the layouts they found |
| Deploy.ReturnedFailuresNeverActivate | src/runner_observability/deploy.py:486-495 | deployments that all return without success leave what was active at first, or none |
| Deploy.ReturnedFailuresKeepActive | src/runner_observability/deploy.py:486-495 | and what was active stays so unless its directory is touched by others |
| Deploy.OtherReleasesUntouched | src/runner_observability/deploy.py:395-419 | over any series, releases other than those deployed and pruned keep their files |
| Deploy.FailedRollbackKeepsRevision | src/runner_observability/deploy.py:629 | a concrete lawful deployment of "new" over "old" whose check fails and whose rollback raises, leaving "new" active |
| Deploy.Installer.Install | src/runner_observability/deploy.py:684-819 | each command adds one lawful deployment to the series, with the order it was given |
| Deploy.RunChecks | src/runner_observability/deploy.py:557-571 | stops at the first check that does not pass, answers as it did and names it; what others pruned until then is gone |
| Deploy.AftermathMeans | src/runner_observability/deploy.py:557-596 | a deployment passes iff every check passes and the service, if there is one, starts; it fails iff a check fails before any other does not pass, or all pass and the start fails |
| Releases.ReleaseLayout.StageRelease | src/runner_observability/deploy.py:395-419 | puts the source in place of the release exactly when none of its file operations fails, and touches only that release and its staging directory |
| Releases.ReleaseLayout.Activate | src/runner_observability/deploy.py:421-444 | moves the pointer to a staged release in one step, or leaves it, and which is decided by the faults met |
| Releases.ReleaseLayout.Deactivate | src/runner_observability/deploy.py:446-455 | removes the pointer, or finds it missing, or leaves it when the removal fails |
| Releases.RevisionReadsBack | src/runner_observability/deploy.py:386-390 | a valid revision written as the current one reads back iff it does not end in a line feed |
| Releases.NewlineIsAccepted | src/runner_observability/deploy.py:70 | a concrete revision that is accepted and then misnamed |
| Releases.RevisionIsOneComponent | src/runner_observability/deploy.py:70-88 | in characters, which revisions are valid: one path component that climbs nowhere, with or without a final line feed |
| Releases.CurrentReadsBack | src/runner_observability/deploy.py:386-390 | writing back the revision that was read reads as the same one |
| Releases.StripTakesBlanks | src/runner_observability/deploy.py:386-390 | reading the pointer takes off the blanks at both ends, and nothing else |
| Releases.StagingIsNoRevision | src/runner_observability/deploy.py:412 | a staging directory's name is no revision |
| Der.EncodePrivateKeyInfo | scripts/Install-RunnerObservabilityMonitor.ps1:130-162 | the encoded key decodes, by the nesting of RFC 5208 section 5 and RFC 8017 appendix A.1.2, to the eight numbers it was made of |
| Der.RsaEncryptionReads | scripts/Install-RunnerObservabilityMonitor.ps1:130-162 | the algorithm octets are the object identifier 1.2.840.113549.1.1.1 by the rules of X.690 section 8.19 |
| Der.PrivateKeyInfoReadsBack | scripts/Install-RunnerObservabilityMonitor.ps1:130-162 | the decoder undoes the nested structure for all non-empty components |
| Der.AllReadBack | scripts/Install-RunnerObservabilityMonitor.ps1:99-110 | concatenated triples parse back to exactly themselves |
| Der.TlvReadsBack | scripts/Install-RunnerObservabilityMonitor.ps1:99-110 | a triple is read back from the front of any octets |
| Der.EncodeTlv | scripts/Install-RunnerObservabilityMonitor.ps1:99-110 | the buffer holds tag, length and content |
| Der.LengthReadsBack | scripts/Install-RunnerObservabilityMonitor.ps1:80-97 | a length reads back, whatever follows (X.690 section 8.1.3) |
| Der.LengthIsShortest | scripts/Install-RunnerObservabilityMonitor.ps1:80-97 | no shorter octets read as the same length (X.690 section 10.1) |
| Der.EncodeLength | scripts/Install-RunnerObservabilityMonitor.ps1:80-97 | the loop produces that length |
| Der.IntegerReadsBack | scripts/Install-RunnerObservabilityMonitor.ps1:112-128 | a component's contents are minimal and read as the same non-negative number (X.690 section 8.3) |
| Der.EncodeInteger | scripts/Install-RunnerObservabilityMonitor.ps1:112-128 | the loop drops leading zeros and adds a sign octet where needed |
| Pem.ConvertToPem | scripts/Install-RunnerObservabilityMonitor.ps1:63-78 | lines of 64 characters, a shorter one only at the end, between the boundaries, that read back as the same base64 text (RFC 7468 section 2) |
| Pem.PemReadsBack | scripts/Install-RunnerObservabilityMonitor.ps1:63-78 | the reader undoes the wrapping, with either line ending |

## Left out

- SQL text, SQLite itself, schema migration, integrity checks, incident row ids and 64-bit limits: tables are maps and sequences, a failed transaction is "unchanged".
- Reopening a store: it replays when the projections are missing, which is the replay modelled here.
- `manage_watermarks=False`, `recent_events`, `recent_job_events` and the plain row getters: unused or easy queries.
- Filters of the history given as explicit `None` values, and the check of their names.
- Base64, UUID, timestamp, URL and job-name patterns, the payload size limit and the forbidden-content patterns: an event's strings are bounded but otherwise free; an input with forbidden content and a wrong schema version is rejected for the other reason. Non-integer JSON numbers are not represented.
- Python's `int` accepts more spellings than are ever printed; parsing here accepts digits and a minus sign.
- HTTP, TLS, DNS and sockets: a transport call is a duration, a request that arrives or not, and a reply.
- Temporary files, fsync and the outbox lock: writing and renaming is one step, enqueue and drain exclude each other.
- Several copies of an event's file and foreign file names in the outbox: a directory maps ids to files.
- EndToEnd.Deployment.Beat: no time bound, because each flushed event gets the full delivery budget; the token file and the status file are reduced to one flag and `lastSuccessAt`.
- Reading the pointer file and looking for a release directory do not fail; an error there escapes before the file operation it precedes, as a failing preparation does.
- A directory pruned between two deployments: others prune directories while checks run.
- Two heartbeat processes on one state file, and restoring an old copy of it: `Tampered` admits any other change of the file.
- HeartbeatSchedule.HeartbeatLoop.Run: the clock is a real number and does not move between two readings without a step between; floating-point rounding of due times is not modelled.
- EventPayload.AcceptsExactlyEvents: the UUID, timestamp, URL and job-name patterns are length bounds here, and the payload size limit and the forbidden-content patterns are missing, as named above.
- EventPayload.JobReads: the job-name pattern and the run URL are length bounds, for the same reason.
- Pem.ConvertToPem: starts from the base64 text; turning bytes into base64 is a library call.
- EndToEnd.DeliveredAtLeastOnce: forces no delivery, since the monitor may never answer; `SmoothDrainIsLogged` and `SmoothDrainsAreLogged` say when drains deliver.
- EndToEnd.DiskStaysBounded: assumes that every enqueue could list both directories; without that the bound fails, see above.
- Deploy.DeployRelease: that the previous service is started again after a rollback is best effort in the code and has no visible effect here; file systems that fold case are not modelled.
- Preflight checks, the smoke test, Windows services, certificates, the dashboard, the gate report, the command lines and onboarding.
