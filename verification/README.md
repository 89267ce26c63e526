# A verified model of wlow

wlow runs workflows: graphs of tasks that are carried out by runners on other machines. A
control plane accepts a workflow, keeps the state of each task in a key-value store, puts task
messages on a stream, takes result messages off another one, and in the end replies to the
caller. Beside it there is a catalogue of artifacts with reference counts, snapshots of virtual
machine memory that are cut into chunks, an output cache, subject-based routing, and a small
framing protocol between host and guest.

This project states what these parts promise and proves it. Code that only computes is written
as functions; code that changes things step by step is written as methods and classes with the
same loops, branches and limits. `dafny verify dfyconfig.toml` checks everything.

## How it fits together

**The orchestration protocol.** `Protocol` is a state machine over one workflow in which every
access to the store, every message that is published, delivered or answered, and everything that
can go wrong is a step of its own. The engine, the result handler, a canceller and any number of
runners interleave between any two steps. These modules prove facts about all its runs:

- `CausalOrder`: with all faults, retries, redeliveries, cancellations and resubmissions;
- `Progress`, `BoundedWork`, `Termination`: in calm runs, in which nothing fails or is lost;
- `Replies`: when the reply can be trusted. `Joins` builds the runs that show where it cannot, and
  `Ladders` proves that in all other workflows it can; `Hurry` is about runs in which results are
  handled during submission. `Awaiting` is about the graph, and `CalmRuns` and `Executing` are what
  such runs are built of.

`WorkflowStore`, `Orchestrator`, `Submission` and `Runners` hold the store's clients as they are
written. Before each of its accesses, the other participants may take any steps of the machine
that are theirs and write records of any content (`Interleaving`). Each method is proved twice
over in one contract: whatever the others do, its own steps and theirs make up a run of the
machine, it takes exactly the steps that belong to it, and the machine agrees with the store
afterwards; and when nobody else writes (`alone`), what becomes of the records. `Refinement`
concludes that what holds of all runs holds of these methods among all others.
`Dispatching` looks at the one loop whose effect can depend on the order of a map.

**The artifact catalogue.** `RefCounting` is one counter under any number of clients with
optimistic updates, and the retry loops of one client among others that may do anything between
its accesses. `TenantKeys` does the same for tenant keys. `References` and `Catalog` are the
bookkeeping of one client over whole histories; `ManifestKeys` are the keys.

**Snapshots.** `MemoryIndex` is the validator and the geometry of what it accepts, on 64-bit
integers; `Chunking` is the loop that cuts a file with reads of any length.

**Smaller parts.** `OutputCache`, `Routing` and `Framing`. `Strings` and `Arithmetic` hold what
several modules need, and `Basics` optional values and accesses that may fail.

## What the proofs found

- A result that is handled while its workflow is still being submitted can leave the workflow
  without a reply for ever, although all its tasks were executed and completed, and this can happen
  to every workflow (`Hurry.HandledWhileSubmitting`). Exactly those calm runs end well in which no
  root is marked as queued after its result was handled (`Progress.QuietIsDoneIff`), and exactly
  those can still end well in which that has not happened and is not about to
  (`Termination.CanBeDoneIff`).
- A task that joins two branches can be published twice, and the caller can then be told that the
  workflow failed although every execution completed (`Joins.JoinCanAnswerFailed`); so it is with a
  task that depends on another one and also on the last thing that one waits for
  (`Joins.NestCanAnswerFailed`).
  These are all such workflows: in exactly the others nothing is published twice
  (`Ladders.PublishesOnceIff`) and every reply is true if no result is handled during submission
  (`Ladders.AnswersTrulyIff`). Where results are handled during submission, every workflow can be
  answered wrongly (`Hurry.HurryCanAnswerFailed`), and such a workflow is in exactly those runs in
  which a root is marked between the two readings that a reply relies on
  (`Hurry.TrueIffTimelyIff`). At the moment of replying, the exact condition is
  `Replies.ReplyIsSureIff`.
- Which dependents one scan publishes depends on the order of a map exactly in the case of
  `Dispatching.OrderFreeIff`.
- Removing what a client takes to be the last reference can lose a reference added meanwhile
  (`RefCounting.LastReferenceCanBeLost`); the count stays exact in exactly the runs where every
  delete takes away one reference (`RefCounting.StaysExactIff`).
- Putting a version again counts its references again, and a tag can overwrite the live manifest of
  a tenant whose name has a dot, whose references then stay counted; counters stay right exactly as
  long as no put does either to a manifest that holds something (`Catalog.TracksThroughoutIff`).
- A processor whose name is another one's followed by a dot shares keys with it, and so do some
  tenants; exactly which is `ManifestKeys.ProcessorsToldApartIff` and `ManifestKeys.TenantsMeetIff`.
- An index of a snapshot can be accepted although addresses are missing; exactly when is
  `MemoryIndex.CoversIff`.
- The key of the output cache does not name the tenant (`OutputCache.TenantsCanBeConfused`).
- A runner does not trim its subject prefix and the dispatcher does
  (`Routing.PrefixesAgreeOrStray`). As libraries they also fall back on different prefixes
  (`Routing.DefaultsDisagree`); every entry point passes both the same one, which hides that
  (cmd/wlow/start.go:32, pkg/config/config.go:41).
- A stream that breaks off right after a frame header looks like one that was closed properly
  (`Framing.EndOfStreamIff`, `Framing.BrokenConnection`).

## Assumptions

- One result handler and one submission handler run at a time, as the orchestrator starts them.
  They, any number of runners and cancellation run beside each other, step by step.
- What a runner has been given, a message, an execution or an outcome, nobody else takes away.
- Handling one result begins with the message waiting and the handler idle.
- An access to the store or a publication that reports an error has had no effect. Deletes of
  reference counters are the exception that the code itself makes.
- A message may be dropped, repeated or given back at any moment; this covers limits on
  deliveries and windows in which duplicates are removed.
- The states of a workflow's tasks are one map, under the workflow's id. The others write it only
  by steps of the machine, with any content beyond the status.
- JSON is a faithful encoding; hashes are functions given as parameters, and that they do not
  confuse inputs is stated for the inputs concerned where it is needed.
- Maps are walked in any order.

## Model

| member | source | states |
|---|---|---|
| Dag.Search.HasCycle | pkg/workflow/models.go:126-140 | the search finds a cycle, or leaves its node finished; `stack` is the current path, finished nodes are topologically ordered and lie on no cycle |
| Dag.ValidateDAG | pkg/workflow/models.go:103-124 | accepts exactly the workflows whose dependency table stays within the tasks and has no cycle, whatever the order of the map |
| Dag.ParseWorkflow | pkg/workflow/models.go:86-101 | accepts exactly the workflows with an id, at least one task and a valid graph |
| Dag.AcceptedIffOrdered | pkg/workflow/models.go:103-140 | a closed workflow with tasks is accepted if and only if its tasks have a topological order |
| Dag.TopologicalOrderExists | pkg/workflow/models.go:103-140 | every closed acyclic workflow has an order of all its tasks in which dependencies come first |
| Dag.RootTasks | pkg/workflow/models.go:175-185 | returns each task without dependencies exactly once, stamped with its ids |
| Dag.Dependents | pkg/workflow/models.go:188-199 | the exact inverse of the dependency relation, without duplicates |
| Dag.EveryTaskIsReachable | pkg/workflow/models.go:175-199 | every task of an accepted workflow is reached from a root through dependents |
| CausalOrder.PublishedAfterDependencies | pkg/workflow/result.go:148-177 | in every run, with every fault, a task is published only after everything on any chain of its dependencies has produced a completed result |
| CausalOrder.CompletedIsJustified | pkg/sandbox/runner.go:235-270 | a task that the store calls completed has been published and completed, and so has every task on any chain of its dependencies |
| CausalOrder.RunIsCausal | pkg/workflow/engine.go:95-146 | each step of engine, runners, handler and faults keeps every event explained by earlier ones |
| Progress.QuietMeansDone | pkg/workflow/result.go:62-202 | no lost wake-up: when a calm run, in which no root is marked after its result was handled, has nothing left to do, every task is completed and the last reply says so |
| Progress.QuietIsDoneIff | pkg/workflow/engine.go:125-146 | the exact condition, results being handled at any time: a calm run that has nothing left to do has all tasks completed and says so if and only if whenever a root was marked as queued, a result of it was still to come |
| Progress.UnhurriedIsClean | pkg/workflow/engine.go:95-123 | in particular it is enough that no result is handled before the submission is over |
| Progress.NotQuietCanMove | pkg/workflow/result.go:62-202 | no deadlock: as long as something is left, some step of such a run is possible that keeps the condition, unless the engine is about to mark a root too late |
| Progress.RunKeepsSound | pkg/workflow/result.go:148-202 | the invariant that a pending task waits for one that is not completed or still has a message on its way |
| BoundedWork.PublishedOncePerChain | pkg/workflow/result.go:148-177 | in every calm run, a task is published at most once per chain of dependents from a root to it |
| BoundedWork.ChainsAreChains | pkg/workflow/result.go:148-177 | the list that is counted holds exactly those chains |
| BoundedWork.ChainsAreDistinct | pkg/workflow/result.go:148-177 | and each of them once |
| BoundedWork.StepConserves | pkg/workflow/result.go:62-109 | messages, executions and results of a task together are its publications that have not been handled |
| Termination.RunsAreBounded | pkg/workflow/result.go:62-202 | every calm run has at most a number of steps computed from the graph |
| Termination.StepSpends | pkg/workflow/result.go:148-202 | a measure decreases with every step, although joins are published repeatedly |
| Termination.RunsComplete | pkg/workflow/result.go:62-202 | every calm run without a late mark, and without one about to happen, can be continued to one where all tasks are completed |
| Termination.CanBeDoneIff | pkg/workflow/engine.go:125-146 | and no other calm run can: whether a run can still be completed is decided by its marks so far and the one about to happen |
| Replies.ReplyIsSureIff | pkg/nats/store.go:153-184 | once completion was found, the reply is sure to say Completed if and only if no task still to be read is unfinished, has a message waiting, or is still to be marked by the engine |
| Replies.UnsteadyCanAnswerFailed | pkg/nats/store.go:153-184 | otherwise a run without any failure leads to the reply Failed |
| Hurry.HandledWhileSubmitting | pkg/workflow/engine.go:116-145 | for every accepted workflow, the calm run in which all tasks are executed and complete and a mark written late leaves the workflow without a reply |
| Joins.JoinCanAnswerFailed | pkg/workflow/result.go:101-174 | in every workflow where a task waits for two others that do not wait for each other: a calm run without hurry in which some task is published twice, and one in which the caller is told Failed although every execution completed |
| Joins.NestCanAnswerFailed | pkg/workflow/result.go:148-177 | the same in every workflow where a task depends on its top dependency, which waits for all its other ones, and also on the top dependency of that |
| Ladders.PublishesOnceIff | pkg/workflow/result.go:148-177 | the exact condition: tasks are published at most once in all calm runs if and only if each task with dependencies has a top one, which waits for all its other ones, and does not also depend on the top dependency of that |
| Ladders.AnswersTrulyIff | pkg/workflow/result.go:101-146 | and the same workflows are those where all replies say Completed in all calm runs without hurry |
| Ladders.WithoutJoinsRepliesAreTrue | pkg/workflow/result.go:111-146 | in particular those where no task has two different dependencies |
| Hurry.TrueIffTimelyIff | pkg/workflow/engine.go:125-146 | the exact condition for all calm runs: in workflows as in PublishesOnceIff, and in no others, exactly those runs are answered truly in which no root is marked between the check that led to a reply and the reading of that root for the reply |
| Hurry.HurryCanAnswerFailed | pkg/workflow/engine.go:125-146 | every accepted workflow has a calm run, with results handled during submission, in which the caller is told Failed |
| Dispatching.OrderFreeIff | pkg/workflow/result.go:148-177 | the published tasks do not depend on the order of the map exactly when no dependent that is due waits for another one |
| Dispatching.ScanMarks | pkg/workflow/result.go:148-202 | a scan marks exactly what it publishes, and publishes only dependents that were due when it began |
| Dispatching.ScanMissesNothing | pkg/workflow/result.go:148-177 | every dependent that is due at the end of a scan was published by it |
| Orchestrator.PublishTask | pkg/workflow/result.go:179-202 | publishes and then marks, as two steps of the machine or one of its faults; a mark means that the message was sent |
| Orchestrator.ResultHandler.IsReady | pkg/workflow/result.go:161-168 | whatever others do, ready exactly when every dependency was read as completed, one step of the machine each; when they do not write, ready only if all dependencies are completed, and then always unless a read fails |
| Orchestrator.ResultHandler.PublishReady | pkg/workflow/result.go:148-177 | whatever others do, walks through the steps of one scan and publishes dependents of the task, each at most once; when they do not write, only ready ones, and it is a scan in some order when nothing goes wrong |
| Orchestrator.ResultHandler.Compose | pkg/workflow/result.go:118-136 | the reply has one record per task as it was read, says Completed exactly when all of those are, and blames the result at hand or else some task that is not completed; the machine reads the same |
| Orchestrator.ResultHandler.Finalize | pkg/workflow/result.go:111-146 | whatever others do, sends at most one reply, faithful to the records as they were read, which are the stored ones when nobody writes meanwhile; and a cancellation after a failure and only then |
| Orchestrator.ResultHandler.HandleResult | pkg/workflow/result.go:62-109 | whatever others do between its accesses: takes the message once and goes through the steps of handling it, or gives it back; what it publishes and replies is what the machine publishes and replies; refuses malformed and unknown results without effect; acknowledges always when nothing fails. When nobody else writes: replies exactly when the workflow is concluded with the result, and otherwise scans its dependents; other workflows are untouched |
| Submission.Engine.SubmitRoot | pkg/workflow/engine.go:125-146 | publishes and marks one root, as far as that succeeds, by its steps of the machine |
| Submission.Engine.SubmitRoots | pkg/workflow/engine.go:116-120 | publishes each root at most once, and each exactly once when nothing fails, whatever others do; when they do not write, exactly the published ones are marked |
| Submission.Engine.HandleWorkflow | pkg/workflow/engine.go:95-123 | whatever others do, goes through the steps of one submission, or gives it up; accepts exactly valid workflows when the store can be reached, and then publishes each root exactly once if nothing fails; a refused one publishes nothing. When nobody else writes, every task ends as Pending or, published, as Queued |
| Submission.CancelHandler.HandleCancel | pkg/workflow/cancel.go:41-60 | each task that reads as waiting is marked, by one step of the machine; when nobody else writes, exactly the waiting ones are, and of them only the status changes |
| Refinement.SubmissionIsCalm | pkg/workflow/engine.go:95-123 | a submission in which nothing fails, among others who are calm, is a calm run from the fresh state, and punctual if no result is taken meanwhile |
| Refinement.HandlingIsCalm | pkg/workflow/result.go:62-109 | a calm run goes on as a calm run when the handler takes a result, nothing fails, and the others are calm |
| Refinement.RunningIsCalm | pkg/sandbox/runner.go:219-270 | and when a runner completes a task and gets its result away |
| Refinement.MachineRuns | pkg/workflow/result.go:62-109 | the steps of such a method and of all others between its accesses continue any run by a run, and a calm one by a calm one if all of them are |
| Refinement.SentAfterDependencies | pkg/workflow/result.go:148-177 | whatever the others do and whatever fails, a task that a handler publishes comes after completed results of everything it waits for |
| Refinement.QuietMachineIsDoneIff | pkg/workflow/result.go:62-202 | when a method leaves nothing to do after calm steps of everybody, the workflow is done exactly when no root was marked too late |
| WorkflowStore.Store.InitWorkflow | pkg/nats/store.go:72-85 | every task is set to Pending, each by one step of the machine, before the definition is written; when nobody else writes, giving up half way leaves some reset and nothing else changed |
| Interleaving.Machine.Step | pkg/workflow/result.go:62-202 | a step of ours prolongs the run, and a runner keeps hold of what it works on |
| Interleaving.Machine.Wait | pkg/workflow/result.go:62-202 | between two accesses the others take any steps that are theirs, which leave alone what is ours |
| WorkflowStore.Store.IsWorkflowCompleted | pkg/nats/store.go:114-134 | whatever others do, the verdict is the one the machine comes to by the same reads; when they do not write, done exactly when some task failed or timed out or none is pending, queued or running, whatever the order of the map |
| WorkflowStore.Store.CancelWorkflow | pkg/nats/store.go:137-150 | cancels by one step of the machine for each task that reads as waiting; when nobody else writes, changes exactly the pending and queued tasks, and of them only the status |
| WorkflowStore.Store.AggregateResult | pkg/nats/store.go:153-184 | one record per task as it was read, which is the stored one when nobody else writes; Completed exactly when all of them are; the error is that of a task that is not completed; the machine reads the same |
| Runners.SandboxRunner.CachedResult | pkg/sandbox/runner.go:330-347 | a hit answers what the cache should answer, under the ids of the asking task; a miss returns the key |
| Runners.SandboxRunner.Execute | pkg/sandbox/runner.go:235-270 | writes Running and then the outcome, each by its step of the machine; the outcome is what the cache or the program should give, and only completed results are kept |
| Runners.SandboxRunner.HandleTask | pkg/sandbox/runner.go:219-233 | whatever others do, takes exactly the steps of an execution and its report; gives a task back exactly when it failed and may be tried again, and otherwise publishes its result |
| Runners.KitRunner.Execute | pkg/sdk/runner.go:250-284 | one of the four final statuses, with the program's output exactly for Completed |
| Runners.KitRunner.Handle | pkg/sdk/runner.go:193-248 | whatever others do, drops a task that reads as cancelled, and otherwise carries it out and reports it as above; when nobody else writes, it is dropped exactly when it is cancelled |
| OutputCache.TransparentIff | pkg/sandbox/runner.go:330-347 | no sequence of requests can tell the cache from always executing if and only if requests that share a key have one output |
| OutputCache.CacheIsTransparent | pkg/sandbox/runner.go:235-270 | that holds while a processor and a reference name one manifest, deterministic programs are, and the hash does not confuse the requests |
| OutputCache.AgreedAnswers | pkg/sandbox/runner.go:235-270 | from any cache whose entries are outputs of requests with their keys, every sequence of requests is answered as if nothing were cached |
| OutputCache.KeysEqualIff | pkg/workflow/cache.go:71-84 | keys of names without NUL are equal exactly when processor, reference and encoded input are |
| OutputCache.SeparatorConfusesNames | pkg/workflow/cache.go:77-82 | names with NUL can share a key whatever the hash |
| OutputCache.TenantsCanBeConfused | pkg/sandbox/runner.go:334-346 | two tenants that resolve one name to different programs are given one answer |
| RefCounting.CountIsAccountedFor | pkg/artifact/store.go:317-404 | under any interleaving the count is the initial count plus increments minus decrements plus what unconditional deletes drifted |
| RefCounting.CountIsExact | pkg/artifact/store.go:339-382 | and there is no drift while no decrement reads a count of 1 or less |
| RefCounting.StaysExactIff | pkg/artifact/store.go:362-382 | the exact condition: the count is what the operations make it after every prefix of a run if and only if every delete of the run took away exactly one reference and none failed unnoticed |
| RefCounting.LastReferenceCanBeLost | pkg/artifact/store.go:369-371 | the run in which an increment is lost |
| RefCounting.FailsOnlyUnderContention | pkg/artifact/store.go:341-359 | where conflicts are the only errors, an operation fails only after eight commits of others during its attempts |
| RefCounting.RunKeepsMatched | pkg/artifact/store.go:341-359 | in every run, each refused write is matched by a commit of somebody else |
| RefCounting.Key.RefCount | pkg/artifact/store.go:423-433 | count and revision of the key at that moment, or zeros for a missing one |
| RefCounting.Key.IncrementRef | pkg/artifact/store.go:339-360 | the retry loop follows the machine, whatever others do meanwhile, and reports how its operation ended |
| RefCounting.Key.DecrementRef | pkg/artifact/store.go:362-382 | the same for decrements, with the unconditional delete |
| TenantKeys.CallersAgree | pkg/artifact/store.go:210-235 | any two successful calls for a tenant, at any two moments, return the same 32 bytes |
| TenantKeys.FailsOnlyOnBadKey | pkg/artifact/store.go:210-235 | without errors a call fails only because a key of a wrong size was there from the start |
| TenantKeys.Bucket.EnsureTenantKey | pkg/artifact/store.go:210-235 | returns the stored key, which is the one that was there before if there was one |
| References.DedupeChunks | pkg/artifact/tree.go:205-219 | keeps exactly the distinct hashes that are not empty |
| References.ManifestChunks | pkg/artifact/tree.go:22-35 | the distinct chunk hashes of a manifest, or 2^20 of its chunks when it is over the cap |
| References.ManifestCompositeRefs | pkg/artifact/tree.go:38-50 | all links with their multiplicity, or 2^20 of them when there are more |
| References.ManifestOCIDescriptors | pkg/artifact/tree.go:53-67 | all descriptors with their multiplicity, or 2^20 of them when there are more |
| Catalog.Validate | pkg/artifact/model.go:262-333 | fills in defaults and accepts exactly the manifests with safe names, known kind and hash, something to run, and well-made artifacts |
| Catalog.TracksThroughoutIff | pkg/artifact/store.go:106-207 | after every call of any sequence of puts and deletions, for any tenants, each counter is what live manifests hold, and absent exactly when that is nothing, if and only if no put replaces a live manifest that holds something, by its own key or by that of a tag it writes |
| Catalog.Replay | pkg/artifact/store.go:106-207 | any sequence of calls on a new store that can be reached does just that, and what is live was put |
| Catalog.ArtifactStore.Perform | pkg/artifact/store.go:106-207 | one call on a store that can be reached has the effect that such sequences are made of |
| Catalog.PutKeepsTracksIff | pkg/artifact/store.go:106-132 | a put keeps the counters right if and only if neither it nor one of its tags replaces a live manifest that holds anything |
| Catalog.RemoveKeepsTracks | pkg/artifact/store.go:190-207 | a deletion always does |
| Catalog.TagResolvesIff | pkg/artifact/store.go:106-156 | a tag given with a manifest resolves to it exactly when no other live version has that name |
| Catalog.OthersResolveAsBeforeIff | pkg/artifact/store.go:106-156 | the exact condition: puts under one tenant and processor never change what references under another resolve to if and only if the beginnings of their keys, of manifests and of tags, do not continue one another |
| ManifestKeys.NamesApart | pkg/artifact/model.go:353-360 | for names without dots that is so exactly when they differ |
| Catalog.ArtifactStore.PutArtifact | pkg/artifact/store.go:106-132 | stores the manifest with its defaults, raises each counter by what it holds, and writes the tags; nothing changes for one that is refused |
| Catalog.ArtifactStore.DeleteVersion | pkg/artifact/store.go:190-207 | lowers each counter by what the manifest holds and removes it |
| Catalog.ArtifactStore.DecrementRefs | pkg/artifact/store.go:290-315 | lowers the counters one by one, removing those that reach nothing |
| Catalog.ArtifactStore.PutTags | pkg/artifact/store.go:265-275 | writes the tags up to the first that is not a safe name |
| Catalog.ArtifactStore.Resolve | pkg/artifact/store.go:144-156 | a version, or else the version a tag names; latest when nothing is given |
| ManifestKeys.ManifestKeysEqualIff | pkg/artifact/model.go:353-355 | keys tell tenants, processors and versions apart when the first two have no dots |
| ManifestKeys.TagKeysEqualIff | pkg/artifact/model.go:358-360 | so do keys of tags |
| ManifestKeys.TagIsNoManifest | pkg/artifact/model.go:353-360 | a tag never takes the key of a manifest, for tenants without dots |
| ManifestKeys.OwnTagIsNoManifest | pkg/artifact/model.go:353-360 | nor that of a manifest of its own tenant, with dots or without |
| ManifestKeys.DotsConfuseKeys | pkg/artifact/model.go:353-360 | with dots both fail: a version can be moved into the name of its processor, and a tag of one tenant can take the key of another one's manifest |
| ManifestKeys.ProcessorsToldApartIff | pkg/artifact/model.go:353-355 | the exact condition: for tenants without dots, keys tell a set of processors apart, whatever the versions, if and only if none of them is another one followed by a dot |
| ManifestKeys.TenantsMeetIff | pkg/artifact/model.go:353-355 | manifests of two tenants can share a key if and only if the tenants are one, or one continues the other with .processor as whole tokens |
| ManifestKeys.TagMeetsManifestIff | pkg/artifact/model.go:353-360 | a tag of one tenant can take the key of a manifest of another if and only if one continues the other in that way, with .processor or .tag |
| ManifestKeys.ParserRecoversProcessor | cmd/wlow-mcp/main.go:228-241 | a manifest key gives its processor to its own tenant and nothing to others |
| ManifestKeys.ParserFindsIff | cmd/wlow-mcp/main.go:228-241 | a tenant without dots gets a processor out of exactly its own manifest keys of that processor, and the name has no dots |
| ManifestKeys.ParserRejectsTags | cmd/wlow-mcp/main.go:228-241 | a tag key gives nothing |
| ManifestKeys.ListProcessors | cmd/wlow-mcp/main.go:219-260 | lists, in order, exactly those of the first 512 entries that are the first to name their processor and hold valid manifests, as those manifests describe themselves |
| ManifestKeys.ListedOnce | cmd/wlow-mcp/main.go:219-260 | where manifests are stored under their own keys, no processor is listed twice |
| MemoryIndex.Validate | pkg/artifact/memory_index.go:46-98 | accepts exactly the well-formed indexes, without overflow on 64-bit integers |
| MemoryIndex.CountIsExact | pkg/artifact/memory_index.go:62-96 | there are as many chunks as the memory divided by the chunk size, rounded up |
| MemoryIndex.ChunksAreDisjoint | pkg/artifact/memory_index.go:65-96 | chunks lie inside the memory, in order, without overlap |
| MemoryIndex.AddressIsInItsSlot | pkg/artifact/memory_index.go:65-96 | an address can be held only by the chunk that division gives, and is exactly when that chunk is long enough |
| MemoryIndex.GapsAreAccepted | pkg/artifact/memory_index.go:80-82 | an accepted index can leave addresses that no chunk holds |
| MemoryIndex.CoversIff | pkg/artifact/memory_index.go:62-96 | every address is held by some chunk if and only if all chunks but the last are full |
| MemoryIndex.PageIsInOneSlot | pkg/artifact/memory_index.go:56-58 | no page of 4 KiB lies in two slots |
| Chunking.SnapshotMemoryLayers | pkg/artifact/registry.go:416-500 | success means that the whole file was read, the chunks put together are the file, and all but the last are 2 MiB; without a broken read it succeeds exactly for files of 1 byte to 1 TiB whose reads are full except the last |
| Chunking.AcceptedIff | pkg/artifact/registry.go:470-479 | the index is accepted exactly when it is not empty, within bounds, and only its last part is short |
| Chunking.CapIsOutOfReach | pkg/artifact/registry.go:427-462 | a full list of chunks exceeds the memory bound, so the cap never cuts a file short |
| Routing.ConsumerFilters | pkg/sandbox/runner.go:411-426 | filters for exactly the first 64 runtimes, for the node as well if there is one; without runtimes, the single filter or its default |
| Routing.DefaultFilterHearsIff | pkg/sandbox/runner.go:427-431 | a runner without runtimes hears the tasks of every runtime exactly when the dispatcher's prefix is that of the default filter, or continues it with the filter's next token |
| Routing.RuntimeReachesIff | pkg/workflow/dispatch.go:34-39 | a runtime subject reaches a runner exactly when its prefix needs no trimming and it serves the runtime |
| Routing.NodeReachesIff | pkg/workflow/dispatch.go:47-52 | a node subject reaches exactly that node, on the same terms |
| Routing.RoutedTaskReachesIff | pkg/workflow/dispatch.go:62-91 | a sandboxed task that was routed reaches exactly the runners meant for it |
| Routing.PrefixesAgreeOrStray | pkg/workflow/subjects.go:11-17 | runner and dispatcher use the same prefix, or the runner's begins no subject at all |
| Routing.DefaultsDisagree | pkg/sandbox/runner.go:368-370 | without a prefix the two libraries fall back on different ones |
| Framing.FrameRoundTripIff | cmd/wlow-agent/main.go:349-374 | a frame is read back exactly when its payload has 1 byte to 8 MiB; of any other, what is read is the part that the length in 32 bits says, if that is of such a size, and otherwise it is refused |
| Framing.FramesRoundTrip | cmd/wlow-agent/main.go:349-374 | a list of frames is read back as that list and then ends cleanly |
| Framing.EndOfStreamIff | cmd/wlow-agent/main.go:349-361 | the plain end is reported at the end and right after a valid header |
| Framing.BrokenConnection | cmd/wlow-agent/main.go:349-361 | whatever the point where a connection breaks, exactly the whole frames are delivered, and the end looks clean exactly at a boundary or after a header |
| Framing.Connection.ReadFrame | cmd/wlow-agent/main.go:349-362 | reads what the specification says, and consumes no more than a frame |
| Framing.Serve | cmd/wlow-agent/main.go:184-207 | reads and answers requests in order, up to a disconnect or a clean end, and at most 2^20 of them; unless a write breaks off, number of requests and outcome are those of the specified session; what was written is all answers, or all but a part of the last |
| Framing.ConversationIsAnswered | cmd/wlow-agent/main.go:184-207 | a session over fewer than 2^20 requests to run something reads all, ends without an error, and its answers are read back by the host, one for each request in order |
| Framing.Converse | cmd/wlow-agent/main.go:184-207 | so it is with what the agent's loop leaves on a connection that does not break |
| Framing.RunsAreServed | cmd/wlow-agent/main.go:184-207 | whatever the input, if only requests to run something arrive and not too many, all are served, and the session ends well exactly when the stream ends cleanly |

## Left out

- Orchestrator.ResultHandler.HandleResult: several result handlers at once; the orchestrator runs one, and the machine has one.
- Orchestrator.PublishTask: the subject is any string or an error here; how it is found is in Routing.
- Submission.CancelHandler.HandleCancel: what a cancellation message does to an execution that is under way is only one of the outcomes an execution may have.
- Runners.KitRunner.Handle: the lock around the table of active tasks and the subscription to cancellations.
- Progress.QuietIsDoneIff: it speaks of the last reply; replies are published under the workflow's id as message id, so within the window for duplicates the caller gets the first one.
- Runners.SandboxRunner.HandleTask: what other runners put into the output cache meanwhile; whole sequences of requests are in OutputCache.
- Runners.SandboxRunner.Execute: fetching artifacts and choosing an executor can fail, and otherwise have no effect.
- Catalog.Replay: manifests whose reference lists are over the cap of 2^20, where what is counted depends on the order of a map.
- Catalog.ArtifactStore.DeleteVersion: concurrent clients; one counter under concurrent clients is RefCounting.
- Framing.Serve: running the command of a request, and the file that supplies a command when a request has none.
- Choosing a node by the artifacts it already has: a scan for the largest score; in routing the node is arbitrary.
- Lost acknowledgements of writes that did take effect.
- Times: time-outs as such, expiry of cached entries and of duplicate detection, heartbeats and progress marks.
- NATS, the OCI registry, Wasmtime, Firecracker, vsock and subprocesses, beyond what their clients see of them.
- JSON, SHA-256, BLAKE3 and hexadecimal encoding.
- External and HTTP processors, policies, quotas, blob storage and tenant sweeps, which only add simple branches.
- Command-line tools, configuration, metrics, logging and image building.
