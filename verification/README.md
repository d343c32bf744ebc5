# Verified model of the Port Kubernetes exporter

The exporter watches objects in a Kubernetes cluster, maps them to catalog entities with jq queries and keeps the entities
in Port's catalog in step with the cluster. This project models the parts of it in which state, concurrency and partial
failure meet, and proves what they promise.

- **Initial sync** (`Basics`, `WorkQueues`, `PortApi`, `FlushLog`, `FlushAnswers`, `BatchCollectors`, `QueueDiscipline`,
  `SyncStates`, `SyncCoverage`, `InitialSync`, `DirectSync`, `Handlers`, `Findings`). One controller drains a rate-limited work queue,
  through a goroutine that moves items into a channel, into a batch collector. The collector sends entities in bulk,
  falls back to single upserts, and finishes, puts back or gives up each work item. What comes out decides whether
  entities that were not seen may be deleted. The Port server is an unknown function; informer, back-off timers, polling
  goroutine, shutdown and clock are an environment that acts between the steps of the loop and between the reads of its
  guards. The central results: the loop's retry counter is exact in every state of every run as long as no item is put
  back and forgotten in one flush, and a server that gives only one kind of failure, however often, never causes such a
  flush; until then the loop never blocks on a receive while a retry or a batch is pending, so it ends, idle unless
  somebody shuts the queue down or `HasSynced` lags; when deletion is called safe, every entity mapped from every
  processed object is stored, so no deletion request sent is for one of them, and every item is accounted for except
  those whose lookups all failed; and safe or not, an item is only let go of when what was mapped from it is stored or
  refused for good, or after five pulls, and never pulled again without a failed pull or flush.
- **Deletion** (`Deletion`). Finding stale and owned entities and deleting them in batches from ten goroutines.
- **Custom resource schemas** (`CrdFlatten`, `CrdUnflatten`, `CrdRoundTrip`). A schema is flattened in a map that is
  iterated and changed at the same time; the generated action rebuilds the nested object from the flattened inputs. For
  both directions the exact condition is given under which every iteration order gives the right result.
- **Mapping** (`JqMapping`, `Transforms`, `Suppression`). Maps of queries in any iteration order, the entities of one
  object, and the comparison by hash that holds back updates which change nothing.
- **Smaller protocols** (`Defaults`, `Polling`, `LogBuffer`). Creating default blueprints in stages from interleaved
  goroutines, with rollback; the polling listener's two timestamps over whole runs; the log writer's buffer with
  concurrent writers.

Code that works step by step is a method on a class with the source's fields; beside it stands a function or relation on
values, which the method is proved to compute, and the lemmas are about that function. Where Go iterates a map, the order
is a ghost result or a relation over all orders. Ghost parameters named `s`, `items`, `sent` and the like carry the
specification's state through a method and have no counterpart in the source.

These assumptions about the server, the client library and the configuration appear as preconditions or in the classes
that stand for them:

- `PortApi.Honest`: a bulk request that is accepted names each requested entity among its entities or its errors and
  nothing else among its entities, and a successful single upsert returns the entity it was asked for.
  `Findings.UnnamedEntityIsLost` shows what happens otherwise.
- At least one entity per blueprint batch is allowed (`limits.maxEntities > 0`). Otherwise the collector is always full
  and the loop never pulls an item.
- The informer adds each initial item once (`InitialSync.Controller.Fresh`), and items that it still has to add arrive
  some time, as do items in the poller's hand and behind a back-off (`InitialSync.Cluster.Await`).
- Two flags of `InitialSync.Cluster` name what else may happen: `mayShutDown`, that somebody shuts the queue down, and
  `prompt`, that `HasSynced` turns true together with the last arrival. Nothing requires either; theorems that need one
  say so.
- The controllers of one resync share no queue and no client counter (`Handlers.Separate`).
- An ownership search that succeeds answers for every identifier it was asked about by who owns it
  (`Deletion.Consistent`).
- A catalog request that fails changes nothing, and a creation fails if the blueprint exists (`Defaults.Catalog`).

Where the source does not keep a promise for all inputs, the condition is part of the theorem and an input that breaks it
is a lemma:

- An item whose entities get a permanent failure first and a retryable one later is put back and then forgotten
  (`pkg/k8s/batch_collector.go:293-295`). `FlushLog.ClashMeaning` says exactly when, `Findings.MixedFailuresClash` gives a
  server reply that does it, `QueueDiscipline.FlushDisciplined` and `SyncStates.CounterOverRuns` say what it costs: the
  second `Done` meets an item that is no longer being processed, and the loop's idle guard is never true again.
  The test at `pkg/k8s/batch_collector_test.go:128` is named after the opposite precedence and covers the order of
  failures in which it holds.
- An item whose lookups keep failing is given up without an error mark (`pkg/k8s/controller.go:406-410`), so deletion may
  go ahead: `Findings.GivingUpOnLookupsIsSilent`. After an idle exit that calls deletion safe, a pulled item was mapped
  or found gone if and only if not all of its five lookups failed (`InitialSync.KnownUnlessGivenUp`, ensured by
  `InitialSync.Controller.RunInitialSync`); so if no lookup ever fails, that is so for all of them.
- The idle guard does not see an item that the polling goroutine holds, nor one that arrives after the queue's length was
  read: `Findings.GuardMissesHeldItem`, `Findings.GuardMissesLateItem`. Exactly these items remain unpulled at the idle
  exit (`InitialSync.Controller.RunInitialSync`).
- The guard also counts `HasSynced` being false as queue work (`pkg/k8s/controller.go:227`). If it turns true only after
  the last item has been dealt with, the loop waits in `Get(0)` for an item that does not exist:
  `Findings.LaggingSyncBlocks`. A sync blocks for good only then, with everything done and nothing on its way
  (`InitialSync.Controller.Turn`), and what is on its way is characterised by `SyncStates.ReceivesIff`.
- A sync that sees the shutdown before its first pull calls deletion safe with an empty set
  (`pkg/k8s/controller.go:346-348`): nothing has failed. `Findings.EarlyShutdownIsSafe` is such a case. For that exit
  `InitialSync.Controller.RunInitialSync` says that the queue is shut down, that what was pulled is stored, and that
  deletion counts as safe exactly if nothing failed.
- Flattening loses settings when a nested object is called like a leaf's joined name or like a top-level property:
  `CrdFlatten.FlattensIffSeparable`, `CrdFlatten.SimpleNameExample`.
- A null query makes the mapping of an object panic instead of fail (`pkg/jq/parser.go:189`): the last clause of
  `JqMapping.ParseMapRecursively`. Besides, only a star key that spreads an object can (`JqMapping.MapHazardous`).
- A resync for a request that is seen while the integration has no timestamp forgets the stored one, and the integration
  then starts a resync without having changed: `Polling.UnchangedResyncsIffLost`, `Polling.ForgettingResyncsAgain`. A
  request can be answered twice when an older one is seen in between: `Polling.RequestFiresAgainIff`,
  `Polling.OldRequestReopensNewer`.

## Model

| member | source | states |
|---|---|---|
| WorkQueues.AddedIsKept | pkg/k8s/controller.go:85-91 | an added item is not lost: until it is handed out again it waits, or is being processed and waits as soon as that is done |
| WorkQueues.OpsKeepSound | pkg/k8s/batch_collector.go:104 | over every run of operations in which `Done` meets items being processed, the queue lists each waiting item once and never hands out one that is being processed |
| WorkQueues.CountsRetries | pkg/k8s/batch_collector.go:105 | an item's count is the number of retries since it was last forgotten, whatever happens in between |
| WorkQueues.UndisciplinedDoneRepeats | pkg/k8s/batch_collector.go:100-106 | one `Done` too many, on an item that waits, puts it into the queue a second time |
| PortApi.PortClient.BulkUpsertEntities | pkg/port/cli/entity.go:173-202 | nothing is sent for an empty or too long list; too long means more than 20; a refusal never has status 200 or 207; an accepted request accounts for every entity it was about |
| PortApi.PortClient.CreateEntity | pkg/port/cli/entity.go:83-101 | one request; the entity stored has the key of the one asked for |
| FlushLog.SplitRowsPartitions | pkg/k8s/batch_collector.go:219-225 | chunks concatenate to the blueprint's list with their source items, each with 1 to `size` rows, all but the last with `size` |
| FlushLog.TallyMeaning | pkg/k8s/batch_collector.go:94-98 | the key set holds exactly what was acknowledged, the permanent map exactly the items refused, the failure map exactly those whose last failure is retryable; the flag is set exactly if nothing failed |
| FlushLog.ClashMeaning | pkg/k8s/batch_collector.go:266-283 | an item is in both failure maps exactly when a permanent failure precedes its last retryable one and none follows |
| FlushLog.RepliedFaithful | pkg/k8s/batch_collector.go:241-284 | of an accepted chunk every row is acknowledged, refused or retried singly, and nothing else is recorded |
| FlushLog.FlushFaithful | pkg/k8s/batch_collector.go:204-289 | the same for a whole flush, for every server within the response contract |
| FlushLog.CleanLogStoresAll | pkg/k8s/batch_collector.go:189-289 | a flush that stays clean stored every row and failed no item |
| FlushLog.FaithfulTallyBounds | pkg/k8s/batch_collector.go:189-289 | nothing is stored that was not sent, no item fails that was not in the flush |
| FlushLog.SuccessMeansStored | pkg/k8s/batch_collector.go:108-119 | an item counted as success had every one of its entities stored |
| FlushLog.UnstoredMeansFailed | pkg/k8s/batch_collector.go:108-119 | an item with an entity that was not stored is in a failure map |
| FlushLog.FaultFreeFlushIsClean | pkg/k8s/batch_collector.go:204-289 | against a server without faults every flush is clean |
| FlushLog.NoRefusalsNoPermanents | pkg/k8s/batch_collector.go:226-289 | a server that never refuses for good leaves no item with a permanent failure, however it fails otherwise |
| FlushLog.UpsertsLeaveNoFailures | pkg/k8s/batch_collector.go:317-333 | a server that never fails a single upsert leaves no item with a retryable failure, however often it refuses |
| FlushAnswers.RefusedChunkOfFlush | pkg/k8s/batch_collector.go:229-235 | in any flush, a chunk of 1 to 20 rows answered with 401, 403, 404 or 422 costs exactly one request; the flush is not clean and every source of its rows has a permanent failure |
| FlushAnswers.RefusedChunk | pkg/k8s/batch_collector.go:229-235 | each row of such a chunk is in the log as refused for good, and the chunk has nothing stored and nothing to retry |
| FlushAnswers.FailedChunk | pkg/k8s/batch_collector.go:236-238 | a chunk that is too long for the client, or whose request is neither accepted nor refused for good, is sent row by row, once each and in order, and each single answer is recorded |
| FlushAnswers.AcceptedChunk | pkg/k8s/batch_collector.go:241-284 | of a chunk answered with 200 or 207 the entities named are stored; a row has a permanent failure exactly if an error with one of the four codes names it, and is sent again singly if another error does |
| FlushAnswers.TallyIsSaid | pkg/k8s/batch_collector.go:189-289 | a flush counts a key as stored only if an answer to one of its requests grants it, an item as failed only if a single upsert of one of its rows failed, and as failed for good only if a row of it was refused |
| BatchCollectors.CalculateBulkSize | pkg/k8s/batch_collector.go:343-370 | how many entities of 1.5 times the average of the first ten sizes, rounded up, fit the byte limit; at most the entity limit and at least 1 |
| BatchCollectors.BulkSizeIsLargest | pkg/k8s/batch_collector.go:343-370 | the estimate is the least number of bytes that is 1.5 times the sample average; the size fits both limits unless it is 1, and one entity more would exceed one of them |
| BatchCollectors.ChunksFit | pkg/k8s/batch_collector.go:217-225 | if no entity exceeds the estimate, each chunk fits the byte limit or is a single entity, and none exceeds the entity limit |
| BatchCollectors.ClientLimit | pkg/port/cli/entity.go:177-179 | the client turns a chunk away exactly when it is longer than 20, never with a limit of at most 20 |
| BatchCollectors.ChunkedRows | pkg/k8s/batch_collector.go:204-225 | in every blueprint order a flush sends exactly the batch, each row under its own blueprint |
| BatchCollectors.DoneExactlyOnce | pkg/k8s/batch_collector.go:290-295 | `Done` reaches every item of the flush, and once each if and only if no item is in both failure maps |
| BatchCollectors.BatchCollector.AddEntity | pkg/k8s/batch_collector.go:43-48 | the entity joins its blueprint's list at the end |
| BatchCollectors.BatchCollector.HasPending | pkg/k8s/batch_collector.go:50-57 | true exactly if some blueprint has an entity waiting |
| BatchCollectors.BatchCollector.ShouldFlush | pkg/k8s/batch_collector.go:168-175 | true exactly if the entities waiting in all blueprints reach the batch size or the timeout has passed |
| BatchCollectors.BatchCollector.FallbackToIndividualUpserts | pkg/k8s/batch_collector.go:317-333 | each row is tried once, in order, and ends as stored or as a retryable failure of its item |
| BatchCollectors.BatchCollector.TrackRefusals | pkg/k8s/batch_collector.go:266-274 | exactly the rows named as refused fail for good |
| BatchCollectors.BatchCollector.TrackRefusedChunk | pkg/k8s/batch_collector.go:229-235 | a refused request fails all its rows for good |
| BatchCollectors.BatchCollector.RecordAcks | pkg/k8s/batch_collector.go:242-251 | the keys of the entities named in the reply are stored under the chunk's blueprint |
| BatchCollectors.BatchCollector.RecordReply | pkg/k8s/batch_collector.go:241-284 | acknowledgements, then refusals, then single upserts of the retryable rest |
| BatchCollectors.BatchCollector.SendChunk | pkg/k8s/batch_collector.go:226-284 | sending one chunk adds exactly its events to the log |
| BatchCollectors.BatchCollector.CompleteSuccessfulWorkItems | pkg/k8s/batch_collector.go:108-119 | each item in neither failure map is finished once, in some order |
| BatchCollectors.BatchCollector.CompletePermanentFailures | pkg/k8s/batch_collector.go:121-125 | each refused item is finished once, in some order |
| BatchCollectors.BatchCollector.RequeueOrGiveUp | pkg/k8s/batch_collector.go:133-155 | an item is put back exactly if that is allowed and it has retries left, otherwise finished |
| BatchCollectors.BatchCollector.RequeueFailedWorkItems | pkg/k8s/batch_collector.go:127-158 | each failed item is dealt with once; the count is the number of items put back |
| BatchCollectors.BatchCollector.SettleWorkItems | pkg/k8s/batch_collector.go:293-295 | whatever the iteration orders of the three maps, the queue becomes the one `Settled` describes, and exactly the failed items with retries left are put back |
| BatchCollectors.BatchCollector.SendBlueprint | pkg/k8s/batch_collector.go:204-289 | a blueprint's rows are sent as the chunks that `SplitRows` describes |
| BatchCollectors.BatchCollector.SendBatch | pkg/k8s/batch_collector.go:204-289 | the whole batch is sent once, in some order of blueprints |
| BatchCollectors.BatchCollector.ProcessBatch | pkg/k8s/batch_collector.go:177-315 | the batch is sent and emptied, every item of it settled; result, queue and flag are functions of what the server answered |
| BatchCollectors.SettleEachSettles | pkg/k8s/batch_collector.go:100-158 | every iteration order leaves the same queue, and exactly the failed items with retries left are put back |
| QueueDiscipline.FlushDisciplined | pkg/k8s/batch_collector.go:293-295 | each call of `Done` in a flush meets its item while that is being processed if and only if no item is in both failure maps |
| QueueDiscipline.FlushKeepsSound | pkg/k8s/batch_collector.go:293-295 | so a flush without a clash never queues an item twice |
| SyncStates.EnvRunKeepsInv | pkg/k8s/controller.go:286-298 | no sequence of informer, timer, polling and shutdown steps breaks the invariant |
| SyncStates.ConsumedKeepsInv | pkg/k8s/controller.go:363-404 | finishing, putting back or deferring a pulled item keeps the counter exact and every item in at most one place |
| SyncStates.FlushedKeepsInv | pkg/k8s/batch_collector.go:127-158 | so does a flush, up to the number of items put back and forgotten |
| SyncStates.NoRetriesLeft | pkg/k8s/controller.go:226-228 | counter zero and an empty collector mean that no failure is remembered and nothing delayed |
| SyncStates.IdleMeansDrained | pkg/k8s/controller.go:226-247 | when the guard, read piece by piece while the environment runs on, says idle, nothing is delayed, deferred or in the channel, and what is queued arrived after the length was read |
| SyncStates.StepKeepsInv | pkg/k8s/controller.go:226-247 | every step of loop or environment keeps the invariant |
| SyncStates.ReceivesIff | pkg/k8s/controller.go:305-317 | under the invariant a blocking receive can return without a shutdown if and only if an item is in the channel, in the poller's hand, queued, delayed or still to arrive, or the queue is already shut down |
| SyncStates.EnvRunKeepsComing | pkg/k8s/controller.go:286-298 | no sequence of environment steps takes that away |
| SyncStates.CountedIsComing | pkg/k8s/controller.go:222-227 | a positive counter without a clash means that a delivery is on its way: the counter never makes the loop wait for nothing |
| SyncStates.NothingComesMeansFinished | pkg/k8s/controller.go:222-227 | when nothing is on its way and nothing deferred, no item is outstanding or still to arrive |
| SyncStates.CounterOverRuns | pkg/k8s/controller.go:226-247 | in every run the counter is never negative, and exact if and only if no flush clashed; once one has, it stays positive |
| SyncStates.ConsumedBurns | pkg/k8s/controller.go:390-404 | every pull lowers the fuel, also one that fails and is put back |
| SyncStates.FlushedBurns | pkg/k8s/batch_collector.go:132-156 | so does every flush of a non-empty batch that does not clash, whatever the server does |
| SyncStates.EnvRunBurnsNothing | pkg/k8s/controller.go:286-298 | the environment never raises the fuel |
| SyncStates.WorkBounded | pkg/k8s/controller.go:226-247 | pulls and non-empty flushes of any run without a clash are at most as many as the fuel it starts with, for every server and order of steps and without a clock |
| SyncStates.FuelLinear | pkg/k8s/controller.go:36 | that fuel is at most eleven times the number of items |
| SyncCoverage.AddAllContents | pkg/k8s/controller.go:454-464 | all entities of an item join the batch together, so no flush separates them |
| SyncCoverage.AbsorbKeepsGood | pkg/k8s/controller.go:354-473 | after a pull every pulled item is still covered: its entities stored or waiting, or the sync marked unsafe; and every item let go of has been served or has used up its pulls |
| SyncCoverage.DrainKeepsGood | pkg/k8s/batch_collector.go:177-315 | the same after a flush that does not clash |
| SyncCoverage.EnvKeepsGood | pkg/k8s/controller.go:286-298 | the same after any environment run |
| SyncCoverage.FlushFacts | pkg/k8s/batch_collector.go:177-315 | one flush in any blueprint order stores all or is not clean, and its failures are items of the batch |
| SyncCoverage.AbsorbKeepsServed | pkg/k8s/controller.go:390-473 | a pull lets an item go only with nothing mapped from it or after its fifth pull, defers it only with all its entities in the batch, and makes it come again only if the lookup, the mapping or the cleanup failed |
| SyncCoverage.DrainKeepsServed | pkg/k8s/batch_collector.go:100-158 | a flush without a clash lets an item go only if all its entities are stored, one was refused for good or its pulls are used up |
| SyncCoverage.LastDrainHandles | pkg/k8s/batch_collector.go:335-340 | the flush that puts nothing back lets go of every item of the batch, and gives it up only if the flush failed on it |
| SyncCoverage.InconclusiveIffLookupsFailed | pkg/k8s/controller.go:406-442 | when no pull has marked an error, a pulled item was neither mapped nor found gone if and only if its lookup failed at each pull |
| InitialSync.Cluster.Await | pkg/k8s/controller.go:305-317 | a receive ends with a delivery if something is on its way; if nothing is and nobody may shut the queue down it does not end |
| InitialSync.Controller.ProcessWorkItem | pkg/k8s/controller.go:354-473 | fate, counter change, error mark and batch of one pulled item |
| InitialSync.Controller.Flush | pkg/k8s/controller.go:235-239 | a flush inside the loop clashes exactly if some item with retries left is in both failure maps of that flush; otherwise it keeps the loop's invariant and lowers the fuel if anything was waiting |
| InitialSync.Controller.FlushBatch | pkg/k8s/batch_collector.go:177-315 | the same before the result is merged; a clash needs a server that gives both kinds of failure, and leaves a pulled item delayed without a count |
| InitialSync.Controller.ProcessNext | pkg/k8s/controller.go:332-352 | one turn flushes exactly if the batch is full or its time is up, so fewer entities than the batch size wait whenever an item is pulled; it clashes exactly if it flushes and that flush does; otherwise it keeps the invariant and lowers the fuel or moves the flush time on; it waits for good only if nothing is on its way, and then unless the queue is shut down; else it stops only for shutdown |
| InitialSync.Controller.PullOne | pkg/k8s/controller.go:342-351 | waiting for an item and dealing with it keeps the invariant and lowers the fuel; without a shutdown it waits for good exactly if nothing is on its way |
| InitialSync.Controller.HasQueueWork | pkg/k8s/controller.go:227 | what the guard's reads, taken one after the other, say about the states they were taken in; if it says busy a delivery is on its way, unless `HasSynced` lags |
| InitialSync.Controller.Turn | pkg/k8s/controller.go:226-247 | one iteration: the loop goes on with less fuel or a later flush, ends idle with nothing left but what slipped past the guard, ends by shutdown, is stuck with an item put back and forgotten, or blocks, which needs a lagging `HasSynced`, an empty collector and nothing on its way |
| InitialSync.Controller.QueueIdle | pkg/k8s/controller.go:233 | two reads with the environment running before and between them; neither loses anything, and if it says not idle a delivery is on its way |
| InitialSync.Controller.Work | pkg/k8s/controller.go:233-246 | the body of the loop: clashes exactly if the flush it makes does, never blocks while entities wait in the collector, otherwise progress |
| InitialSync.Controller.DrainQueue | pkg/k8s/controller.go:226-247 | the loop ends, or blocks with everything done; each exit is explained; what is called late had not been added at the start and has not been pulled; all requests made are those of its flushes |
| InitialSync.Controller.FlushRemaining | pkg/k8s/controller.go:249-253 | the flush after shutdown puts nothing back and finishes every deferred item; afterwards deletion is safe exactly if no pull marked an error and no flush failed, and then everything is stored |
| InitialSync.Controller.RunInitialSync | pkg/k8s/controller.go:195-266 | up to the first clash: at most five pulls an item, and for every schedule the sync ends idle, by a shutdown, or blocked after everything was done; without a shutdown, with a prompt `HasSynced` and a server of one kind of failure it ends idle. Its set and its flag are those of its pulls and flushes: deletion is safe exactly if no pull marked an error and no flush failed. Then every entity of every pulled item is stored, and each pulled item was mapped or found gone exactly unless all its five lookups failed. Safe or not, at the idle exit each pulled item was mapped or found gone and everything mapped then is stored or was refused for good, or it was pulled five times; an item is pulled again only after a failed pull or flush; after a shutdown the last batch has been sent. At the idle exit the items not pulled are exactly the one in the poller's hand and those that came late. Without faults deletion is called safe |
| DirectSync.ObjectHandler | pkg/k8s/controller.go:508-567 | there is a result exactly if no mapping fails and every upsert and deletion made succeeds, and then it holds exactly the keys the object maps to; an error exactly if a request fails |
| DirectSync.SucceedsIff | pkg/k8s/controller.go:508-567 | that is so exactly if every mapping works, every entity of a new or changed object is upserted, and the deletion for every kind configuration of a changed or deleted object succeeds |
| DirectSync.BatchedEqualsDirect | pkg/k8s/controller.go:508-552 | from what a batched sync ensures: its set is the union of the direct syncs of all objects |
| DirectSync.SyncBothWays | pkg/k8s/controller.go:195-266 | a batched sync against a server without faults calls deletion safe unless it blocks; without a shutdown and with a prompt `HasSynced` it ends idle; with an empty hand and nothing late it has then collected the union of what `ObjectHandler` collects |
| Handlers.SyncAllControllers | pkg/handlers/controllers.go:165-214 | deletion is called safe only if each controller's set holds everything mapped from its processed objects, and is if nothing goes wrong; each set holds nothing but mapped keys; a complete sync has processed whatever its items produce, unless all lookups of an item failed |
| Handlers.Handle | pkg/handlers/controllers.go:102-133 | the deletion requests sent are for exactly what was found and not stored, never for an entity of a processed object, nor, after a complete sync, for one that any item of the informer produces unless all its lookups failed; what counts as stored was mapped by a controller |
| Deletion.ChunksPartition | pkg/port/cli/entity.go:217-218 | batches concatenate to the list and have between one and `size` members, all but the last `size` |
| Deletion.TasksCount | pkg/port/cli/entity.go:217-218 | how often a batch is sent does not depend on the iteration order of the blueprints |
| Deletion.ScheduleIndependent | pkg/port/cli/entity.go:213-228 | if answers do not depend on what was sent before, two runs that send the same batches in any two orders return the same count and failure |
| Deletion.BulkDeleteEntities | pkg/port/cli/entity.go:213-228 | with at most ten goroutines in any schedule, the requests in the client's log are the batches, once each, whatever fails; the count is the sum of the answers in it, and the call fails exactly if one of them is a failure |
| Deletion.EveryAnswerCounts | pkg/port/cli/entity.go:213-228 | every answer adds what it reports to the count, wherever it comes in the log |
| Deletion.BatchesCoverIds | pkg/port/cli/entity.go:217-225 | the batches ask for exactly the identifiers listed |
| Deletion.StaleIdsMeaning | pkg/port/cli/entity.go:130-135 | an identifier is stale exactly if it was found and its key is not kept |
| Deletion.CollectStale | pkg/port/cli/entity.go:128-135 | the map lists the stale identifiers per blueprint in the order found |
| Deletion.DeleteStaleEntities | pkg/port/cli/entity.go:121-146 | the requests sent are for exactly the found entities without a kept key, whatever fails; only a failed search is an error |
| Deletion.KeyInjective | pkg/port/cli/entity.go:148-150 | keys determine the entity when blueprints contain no semicolon |
| Deletion.StaleAgainstKept | pkg/port/cli/entity.go:121-150 | a kept entity is never deleted; any other is found exactly when no kept one shares its key |
| Deletion.SeparatorHidesStale | pkg/port/cli/entity.go:148-150 | a semicolon in a blueprint name can hide a stale entity |
| Deletion.GroupByBlueprint | pkg/port/entity/entity.go:26-33 | each blueprint's identifiers in request order |
| Deletion.FilterBatch | pkg/port/entity/entity.go:38-55 | the owned identifiers of one batch of at most 50, in order |
| Deletion.FilterBlueprint | pkg/port/entity/entity.go:37-56 | over all batches of one blueprint the order-preserving filter by ownership, or an error exactly if a search failed |
| Deletion.FilterOwnedIdentifiers | pkg/port/entity/entity.go:25-59 | the same for all blueprints |
| Deletion.DeleteEntities | pkg/k8s/controller.go:570-603 | nothing is requested if an ownership search fails, otherwise exactly the entities that are named and owned through this exporter's datasource, or for live events also the automatic one; the call fails exactly if a search or one of the requests sent fails |
| CrdFlatten.NestedRunEffect | pkg/crd/utils.go:22-37 | what any iteration order below the top can do to one key of the shared map |
| CrdFlatten.SeparableFlattens | pkg/crd/utils.go:22-37 | every run of the in-place iteration ends with exactly the leaves under their joined names |
| CrdFlatten.FlattensIffSeparable | pkg/crd/utils.go:22-37 | all iteration orders flatten correctly if and only if no object is called like a joined leaf name, and none below the top like another top-level property |
| CrdFlatten.SimpleNameExample | pkg/crd/utils.go:34 | a schema outside that condition, and an iteration order that does not flatten it |
| CrdFlatten.SharedSchema.ShallowNested | pkg/crd/utils.go:22-37 | below the top the code is one of the runs of the relation |
| CrdFlatten.SharedSchema.ShallowEntry | pkg/crd/utils.go:24-35 | the same for one property |
| CrdFlatten.SharedSchema.ShallowProperties | pkg/crd/utils.go:22-37 | the iteration over the map that it changes, with created keys visited or not, is one of the runs of the relation |
| CrdFlatten.ShallowRequired | pkg/crd/utils.go:40-62 | exactly the joined paths of leaves that are required at every step |
| CrdFlatten.RequiredIsLeaf | pkg/crd/utils.go:40-62 | every such path is the joined path of a leaf |
| CrdFlatten.ShallowJsonSchema | pkg/crd/utils.go:7-20 | for separable schemas the result holds exactly the leaves and requires only properties it has; other kinds of schema are returned as they are |
| CrdUnflatten.PathRoundTrip | pkg/crd/crd.go:283 | splitting the joined name gives the path back if and only if it is well-formed |
| CrdUnflatten.SetPathAddsOne | pkg/crd/crd.go:283 | setting a path adds that leaf and nothing else |
| CrdUnflatten.UnflattenIffWellFormed | pkg/crd/crd.go:283 | the nested object is rebuilt in every input order if and only if all leaf paths are well-formed and no object in it is empty |
| CrdUnflatten.DottedIsDotJoin | pkg/crd/crd.go:107 | replacing separators by dots gives the dotted path of the split name |
| CrdUnflatten.BuildUpdateAction | pkg/crd/crd.go:101-113 | the default of every well-formed input is the query of the nested property it stands for |
| CrdRoundTrip.LeafKeysAreFlatKeys | pkg/crd/utils.go:22-37 | a leaf is stored exactly under the joined name of its path |
| CrdRoundTrip.RequiredNamesAreFlatKeys | pkg/crd/utils.go:40-62 | the required names are exactly the joined paths to leaves each step of which is required |
| CrdRoundTrip.DistinctIffInjective | pkg/crd/utils.go:22-37 | joined leaf names are distinct exactly if joining is injective on leaf paths |
| CrdRoundTrip.WellFormedIsDistinct | pkg/crd/utils.go:22-37 | leaf paths that survive splitting have distinct joined names |
| CrdRoundTrip.FormRoundTrip | pkg/crd/crd.go:283 | flatten the schema in any order, fill the form in, rebuild in any order: every value has an input and the object comes back |
| JqMapping.ParseMapInterface | pkg/jq/parser.go:159-182 | fails exactly if some query fails; otherwise the fold of the results in some order |
| JqMapping.ConfluentIffCompatible | pkg/jq/parser.go:159-182 | all orders agree if and only if the explicit results and the spread fields agree where they overlap, and then give their union |
| JqMapping.HeightBound | pkg/jq/parser.go:184-225 | the measure under which re-wrapping a query in a singleton map terminates exists for every map |
| JqMapping.ShapeMirrors | pkg/jq/parser.go:184-225 | the structural answer mirrors the query place by place: results of texts, objects with the same keys, lists of the same length |
| JqMapping.ParseText | pkg/jq/parser.go:189-194 | a text query contributes its result, or the call fails |
| JqMapping.ParseNested | pkg/jq/parser.go:195-207 | a nested map gets the answer of its entries taken one by one; only a value that is already there and no object makes it panic |
| JqMapping.ParseMany | pkg/jq/parser.go:208-218 | a list contributes the list of its entries' answers |
| JqMapping.ParseEntry | pkg/jq/parser.go:187-222 | one more query extends the answer for those before it |
| JqMapping.ParseMapRecursively | pkg/jq/parser.go:184-225 | in every order the answer is the structural one exactly if the map is regular; a regular map (no null query, no star key over an object, no empty map) fails exactly if a text fails or a query is of the wrong kind, and otherwise keeps the shape; it panics only if a null query or a star key over an object occurs; a map whose only fault is a null query panics |
| Transforms.IsPassSelector | pkg/k8s/controller.go:605-617 | an answer exactly if there is no query or jq gives a boolean |
| Transforms.MapEntities | pkg/port/entity/entity.go:112-126 | all mappings' entities in order, or an error exactly if one fails |
| Transforms.ListObjects | pkg/k8s/controller.go:644-669 | the object itself, or for each listed item, in order, a copy that holds the item under the configured name, or `item`, and is the object itself everywhere else |
| Transforms.GetObjectEntities | pkg/k8s/controller.go:619-709 | fails exactly if listing, a selector or a mapping of a selected object fails; otherwise the ordered flat-map over the selected objects, and separately over the rest |
| Transforms.MatchedMeaning | pkg/k8s/controller.go:671-701 | an entity is produced exactly if some mapping makes it from a selected object |
| Transforms.ExcludedMeaning | pkg/k8s/controller.go:683-692 | the entities for cleanup are exactly those made from objects that do not pass the selector and that every mapping works on |
| Transforms.MatchedInOrder | pkg/k8s/controller.go:671-701 | entities come in the order of the objects, and of one object in the order of the mappings |
| Transforms.ExcludedObjectsHarmless | pkg/k8s/controller.go:683-692 | mappings may do anything on objects the selector excludes |
| Suppression.Write | pkg/port/entity/entity.go:104 | the running hash after a write is the hash of all bytes so far |
| Suppression.HashAllEntities | pkg/port/entity/entity.go:97-110 | the hash of the concatenated encodings, or an error exactly if one entity cannot be encoded |
| Suppression.StepSeparatesBytes | pkg/port/entity/entity.go:98-104 | from one running value the hash step never takes two bytes to the same |
| Suppression.OneByteIsSeen | pkg/port/entity/entity.go:98-104 | streams that differ in one byte, at any place, never hash alike |
| Suppression.HashOfA | pkg/port/entity/entity.go:98-104 | the published FNV-1a value of one text |
| Suppression.StreamInjective | pkg/port/entity/entity.go:97-110 | with self-delimiting encodings the bytes determine the list of entities |
| Suppression.ShouldSendUpdateEvent | pkg/k8s/controller.go:726-760 | held back exactly if only differences are sent and every kind configuration looks the same |
| Suppression.HeldBackIffEqual | pkg/k8s/controller.go:726-760 | unless hashes collide, that is so exactly if every kind configuration maps both versions to the same entities without an error |
| Suppression.OneByteIsSent | pkg/k8s/controller.go:726-760 | an update that changes one encoded byte is sent, with no assumption about collisions |
| Suppression.LostEntityIsSent | pkg/k8s/controller.go:742 | an entity that the object no longer produces is always noticed |
| Defaults.DeconstructBlueprintsToCreationSteps | pkg/defaults/defaults.go:92-121 | the first stage has identifier and schema only, the second is the first with the relations, the last has the relations and all derived properties; nothing is reordered |
| Defaults.MakeRequest | pkg/defaults/defaults.go:154-162 | creating one blueprint remotely keeps the agreement between remote blueprints, open answers and the shared list |
| Defaults.RecordAnswer | pkg/defaults/defaults.go:163-171 | so does recording one answer under the mutex, in any order |
| Defaults.CreateBare | pkg/defaults/defaults.go:152-174 | in every interleaving the list holds exactly the blueprints whose creation succeeded, once each, and a failure is counted exactly if a creation failed |
| Defaults.PatchAll | pkg/defaults/defaults.go:183-204 | each request of a stage is made over the same existing blueprints, and without a failure every blueprint of the stage has been patched |
| Defaults.FindExisting | pkg/defaults/defaults.go:134-139 | each default is looked up once; the list holds exactly those found |
| Defaults.CreateResources | pkg/defaults/defaults.go:133-233 | skipped exactly if a lookup finds a default, and then nothing is created or patched; what is created is bare; no patch before every bare blueprint exists; every patch carries the relations of its default, the first ones nothing else and the others the derived properties as well, none of these before every default has its relations; an abort has a failed request and carries exactly what this run created, once each |
| Defaults.RollBack | pkg/defaults/defaults.go:239-245 | each listed blueprint is deleted once, and exactly those whose deletion failed remain |
| Defaults.InitializeDefaults | pkg/defaults/defaults.go:235-252 | a failed run attempts to delete exactly the blueprints whose creation succeeded in it, once each; afterwards the blueprints are the initial ones and those whose deletion failed |
| Polling.Handler.InitializeResyncRequestWatermark | pkg/event_handler/polling/polling.go:110-122 | only a request that was found sets the watermark |
| Polling.Handler.Start | pkg/event_handler/polling/polling.go:171-180 | both timestamps are taken over unless the integration was not reached |
| Polling.Handler.PollIteration | pkg/event_handler/polling/polling.go:124-169 | resyncs exactly on a different integration timestamp or a request above the watermark; what is stored then; nothing changes without a resync or without the integration |
| Polling.Handler.Run | pkg/event_handler/polling/polling.go:187-196 | which polls of a run resync, and what is stored after it |
| Polling.WatermarkDropsIff | pkg/event_handler/polling/polling.go:163-167 | the watermark goes down in a poll exactly if the integration changed while an older request was seen |
| Polling.WatermarkIsMonotone | pkg/event_handler/polling/polling.go:124-169 | over whole runs it never goes down if request timestamps never go back |
| Polling.RequestFiresOnce | pkg/event_handler/polling/polling.go:78-98 | then a request timestamp starts at most one resync by itself |
| Polling.NewRequestFires | pkg/event_handler/polling/polling.go:78-98 | a request newer than all before starts a resync when first seen, for every history |
| Polling.StoredIsObserved | pkg/event_handler/polling/polling.go:163-167 | after a poll that saw an integration timestamp the stored one equals it |
| Polling.StoredIsLastSeen | pkg/event_handler/polling/polling.go:66-76 | after any run the stored integration timestamp is the last one seen, or none if a poll has forgotten it since |
| Polling.ResyncsExactly | pkg/event_handler/polling/polling.go:124-169 | after any run a poll resyncs exactly on an integration timestamp that differs from the last one seen or follows its being forgotten, or on a request above the watermark |
| Polling.UnchangedResyncsIffLost | pkg/event_handler/polling/polling.go:163-167 | an unchanged integration starts a resync by itself exactly if its timestamp was forgotten since |
| Polling.RequestFiresAgainIff | pkg/event_handler/polling/polling.go:163-167 | a request that has started a resync starts another by itself exactly if an integration change has stored an older one and nothing raised the watermark back since |
| Polling.NeverBackNeverReopens | pkg/event_handler/polling/polling.go:78-98 | which cannot happen if requests never go back |
| Polling.ForgettingResyncsAgain | pkg/event_handler/polling/polling.go:164 | a resync without an integration timestamp makes the next poll resync again |
| Polling.OldRequestReopensNewer | pkg/event_handler/polling/polling.go:163-167 | if requests go back, one request can start two resyncs |
| LogBuffer.HTTPWriter.Push | pkg/logger/logger.go:121 | appending in place or to a larger array leaves every batch handed over as it was |
| LogBuffer.HTTPWriter.Add | pkg/logger/logger.go:120-123 | the critical section is the model's append step, and the caller owes a flush as it says |
| LogBuffer.HTTPWriter.Flush | pkg/logger/logger.go:152-168 | the model's flush: a copy is handed over, earlier batches and the reused array never share a place |
| LogBuffer.HTTPWriter.Write | pkg/logger/logger.go:91-130 | the record is appended; with a known address a buffer that has reached its capacity is handed over at once with it |
| LogBuffer.HTTPWriter.Tick | pkg/logger/logger.go:189-193 | flushes exactly if the interval has passed since the last flush, and then the buffer is empty and its records are with a sender |
| LogBuffer.HTTPWriter.Shut | pkg/logger/logger.go:204-222 | the buffer is empty afterwards |
| LogBuffer.RecordsKept | pkg/logger/logger.go:120-168 | in every interleaving, batches and buffer together are the records in write order |
| LogBuffer.NoEmptyBatch | pkg/logger/logger.go:155-157 | no batch is ever empty |
| LogBuffer.BufferBounded | pkg/logger/logger.go:133-149 | the buffer holds at most capacity less one, or the backlog at the start, plus one for each writer that owes a flush |
| LogBuffer.BatchesBounded | pkg/logger/logger.go:133-168 | with the address known from the start no batch exceeds capacity less one plus the number of writers |
| LogBuffer.UnstartedHoldsAll | pkg/logger/logger.go:134-136 | without an address writers never flush |
| LogBuffer.CloseHandsOverAll | pkg/logger/logger.go:204-222 | after Close all earlier records are with senders, and flushes still owed find nothing to send |
| Findings.MixedFailuresClash | pkg/k8s/batch_collector.go:266-295 | a server reply after which an item is put back and forgotten |
| Findings.CounterExactIffNoClash | pkg/k8s/batch_collector.go:293-295 | a flush leaves the counter exact if and only if no item with retries left is in both failure maps |
| Findings.UnnamedEntityIsLost | pkg/k8s/batch_collector.go:241-284 | an accepted reply that leaves an entity out counts as clean although the entity is not stored |
| Findings.GivingUpOnLookupsIsSilent | pkg/k8s/controller.go:406-410 | failing lookups never mark an error, failing mappings do |
| Findings.GuardMissesHeldItem | pkg/k8s/controller.go:290-291 | the guard can say idle while the polling goroutine holds an item |
| Findings.GuardMissesLateItem | pkg/k8s/controller.go:227 | the guard can say idle with an item that arrived after the length was read |
| Findings.LaggingSyncBlocks | pkg/k8s/controller.go:227 | an item is added, pulled and finished before `HasSynced` turns true; the receive that follows never ends without a shutdown |
| Findings.EarlyShutdownIsSafe | pkg/k8s/controller.go:346-348 | a queue shut down before any item arrives ends the sync with deletion called safe, nothing stored and the item never pulled |

## Left out

- InitialSync.Controller.RunInitialSync: follows a sync up to the first flush that puts an item back and forgets it, and then returns with deletion unsafe. From there on the source loops until shutdown with the flag still false, and may pull an item more than five times; `SyncStates.CounterOverRuns` covers the states after it. A sync that blocks for good returns with deletion unsafe, too, where the source does not return.
- InitialSync.Controller.Fresh: raw data examples, metrics, log output and the kind label of an entity do not take part in any decision and are not modelled.
- InitialSync.Cluster.Interfere: the clock has a horizon, so the flush timer fires finitely often while nothing else happens; `SyncStates.WorkBounded` needs none. Environment steps inside a flush or between receiving and finishing an item are taken to happen before or after it.
- Handlers.SyncController: a blocked sync lets the next controllers go on, with deletion unsafe for all; in the source nothing follows it.
- InitialSync.Controller.ProcessNext: merges the flush result into the loop's variables itself, where the source returns it to the loop.
- BatchCollectors.CalculateBulkSize: integer ceiling and floor in place of floating point, exact where the source rounds.
- PortApi.EntityRequest: identifiers are strings; search identifiers, which are objects, are not modelled.
- Handlers.SyncAllControllers: the sequential branch only. With missing related entities created, the source appends to a slice and combines a flag from goroutines without a lock.
- Handlers.Handle: what a shutdown does to deletion requests already under way, the live-events loop that starts after each controller's initial sync, and kinds without a known API resource (pkg/handlers/controllers.go:79-83).
- Suppression.HeldBackIffEqual: assumes that the two byte streams compared do not collide under the 64-bit hash, and that encodings are self-delimiting.
- Transforms.GetObjectEntities: image enrichment of the object and the conversion from its unstructured form, whose failure is a missing object here.
- JqMapping.ParseMapRecursively: jq evaluation and environment filtering are an unknown function. Where a nested map extends an object that a star key spread, the object jq returned is not shared with the answer.
- CrdUnflatten.UnflattenIffWellFormed: list values and template rendering; a value is null, a scalar or an object.
- CrdFlatten.ShallowJsonSchema: `adjustSchemaToPortSchemaCompatibilityLevel` and `convertToPortSchemas`, which rewrite single properties one by one.
- Defaults.CreateResources: scorecards and pages, whose failures are only logged.
- LogBuffer.HTTPWriter.Write: parsing the record and its level; waiting for senders on Close.
- Polling.Handler.PollIteration: timestamps are instants. Every stored text comes from the handler's own formatting, so it always parses.
- HTTP, authentication, the Kafka consumer, signals, configuration and image detection are input and output only.
