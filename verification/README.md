# Photon Controller task and client core, modelled in Dafny

This project models the part of Photon Controller that the workflow services are built on:

- **`DcpRestClient`** is the Xenon REST client. It builds each request (verb, expiration, queuing pragma, target URI). It picks a server and sends the request. It sorts the completed operation into a normal return or one of its exceptions. It also runs batched GETs, broadcast queries, paged queries and the poll that waits for a query task to finish.
- **`CopyStateTriggerTaskService`** is the periodic trigger. It validates its start document and patches. It merges counters by "largest wins", answers the maintenance pulse only on the owner host, and decides whether to start a copy-state task. That decision depends on which copy tasks are still running, and sets a watermark from the last finished one.
- **Task state machines.** The Swarm cluster-create task (stage and sub-stage) and the allocate-host-resource task (stage only) are modelled from the transition tables their tests pin down. Both rely on the common `@NotNull` / `@Immutable` field rules.
- **The cloud-store VM document.** It has five required fields at start and a partial `vmState` patch, reached through the REST client.
- **The Ruby `SecurityGroup` resource.** It is built from a parsed hash and has an equality method.

Everything the Java or Ruby code does through the network, the clock, threads or reflection is an explicit input of the model. In detail:

- A single send completes as a `Completion`: a status code and body, a latch timeout, or an interrupt.
- A batch join completes as a `JoinOutcome` that maps operation ids to responses.
- The clock and the server choice are an `Env`.
- The poll loop reads one `Tick` per round: when its GET was sent, and when the clock was read after the sleep.
- Owner selection, the broadcast query of copy-state tasks, and the start of a copy-state task are given outcomes.

`@NotNull` and `@Immutable` are an explicit per-field `Schema` instead of annotations read by reflection. The state classes of the Swarm and allocate tasks are not part of this model, so their schemas are parameters of the services.

The Swarm tests accept or reject 8 start states and 50 moves. They leave one start state (STARTED without a sub-stage) and 14 well-formed moves undecided. The model keeps the tests' tables as constants. It proves that a closed-form rule reproduces every entry. The service decides the undecided pairs through a policy it is given, so the model does not settle them.

The allocate tests decide all 25 stage moves. Together they say a move is allowed exactly when the source stage is CREATED or STARTED and the target is not CREATED.

The code settles three cases that are easy to misread:
- **Negative counters.** A negative counter in a trigger patch resets the stored counter to 0 (`updateLongWithMax`, CopyStateTriggerTaskService.java:388-396); it is not clamped against the previous value. `ReplayCounterResets` states this.
- **Success statuses.** Only 200 and 202 count as success (`handleOperationResult`, DcpRestClient.java:414-433).
- **Immutable fields in trigger patches.** The trigger's patch ignores the `@Immutable` fields it carries instead of rejecting them. Its `applyPatch` (CopyStateTriggerTaskService.java:369-375) copies only `executionState` and the two counters.

## Model

| member | source | states |
|---|---|---|
| DcpRestClient.HandleOperationResult | java/common-dcp/src/main/java/com/vmware/photon/controller/common/dcp/DcpRestClient.java:414-433 | 200 and 202 pass; 404 is DocumentNotFound, 408 is a timeout and 400 a bad request carrying the body's message. Every other code is a runtime failure with that code. Each class holds in both directions |
| DcpRestClient.HandleOperationResults | java/common-dcp/src/main/java/com/vmware/photon/controller/common/dcp/DcpRestClient.java:436-441 | passes iff every completed operation has a success status; otherwise fails with the classification of the first failing one, all before it having succeeded |
| DcpRestClient.Send | java/common-dcp/src/main/java/com/vmware/photon/controller/common/dcp/DcpRestClient.java:444-509 | returns the completed operation exactly when it completed with 200/202. A latch timeout becomes a timeout and an interrupt becomes Interrupted. Any other completion raises what HandleOperationResult gives |
| DcpRestClient.FirstLocalServer | java/common-dcp/src/main/java/com/vmware/photon/controller/common/dcp/DcpRestClient.java:588-592 | finds the first server in the set whose address is the local host's; none iff no server is local |
| DcpRestClient.GetServiceUri | java/common-dcp/src/main/java/com/vmware/photon/controller/common/dcp/DcpRestClient.java:580-613 | an http URI for the given path on a member of the server set. When the set contains the local host, it is the first such server in the set's order (address and port); otherwise the member at the random pick. An empty set has no server to choose |
| DcpRestClient.Post | java/common-dcp/src/main/java/com/vmware/photon/controller/common/dcp/DcpRestClient.java:112-125 | succeeds iff a server exists and the send completed with 200/202; the operation is a POST to the path, expiring 60 s after now, without NO_QUEUING, with this host as referer and the request id as context |
| DcpRestClient.Get | java/common-dcp/src/main/java/com/vmware/photon/controller/common/dcp/DcpRestClient.java:128-141 | as Post, but a GET expiring 120 s after now with NO_QUEUING, returning the reply body |
| DcpRestClient.GetUri | java/common-dcp/src/main/java/com/vmware/photon/controller/common/dcp/DcpRestClient.java:144-156 | a GET to the given URI itself, 120 s expiration, NO_QUEUING; succeeds iff it completed with 200/202 |
| DcpRestClient.Delete | java/common-dcp/src/main/java/com/vmware/photon/controller/common/dcp/DcpRestClient.java:192-206 | a DELETE expiring 60 s after now with NO_QUEUING; success iff a server exists and 200/202 |
| DcpRestClient.Patch | java/common-dcp/src/main/java/com/vmware/photon/controller/common/dcp/DcpRestClient.java:231-245 | a PATCH expiring 60 s after now with NO_QUEUING; success iff a server exists and 200/202 |
| DcpRestClient.PostToBroadcastQueryService | java/common-dcp/src/main/java/com/vmware/photon/controller/common/dcp/DcpRestClient.java:209-228 | a POST to the local query-task factory through the default node selector's broadcast, 60 s expiration, no NO_QUEUING |
| DcpRestClient.Query | java/common-dcp/src/main/java/com/vmware/photon/controller/common/dcp/DcpRestClient.java:248-268 | a POST of a query task to the query-task factory, 60 s expiration, without broadcast selector or NO_QUEUING |
| DcpRestClient.JavaDiv | java/common-dcp/src/main/java/com/vmware/photon/controller/common/dcp/DcpRestClient.java:170 | Java's integer division truncates toward zero: the remainder has the dividend's sign and is smaller in size than the divisor |
| DcpRestClient.BatchCountIsCeiling | java/common-dcp/src/main/java/com/vmware/photon/controller/common/dcp/DcpRestClient.java:170 | for n > 0 links, `1 + (n-1)/batchSize` is the ceiling of n/batchSize and at least 1 |
| DcpRestClient.SendBatch | java/common-dcp/src/main/java/com/vmware/photon/controller/common/dcp/DcpRestClient.java:512-540 | the join waits batchCount × 90 s. Its timeout or interrupt is rethrown. Success iff every operation completed with 200/202, and then the result maps exactly the source links to their completed operations. Otherwise the classification of the first failed operation, in creation order, is thrown |
| DcpRestClient.BatchGet | java/common-dcp/src/main/java/com/vmware/photon/controller/common/dcp/DcpRestClient.java:159-189 | empty links are rejected first, then a non-positive batch size, then an empty server set. Otherwise the join's timeout or interrupt is rethrown, the call succeeds iff the reply to every link's GET is 200/202, and a failure is the classification of the first failed reply. On success the result's keys are exactly the links, each a GET of that link with expiration batchCount × 120 s and NO_QUEUING, carrying the status and body of its reply |
| DcpRestClient.Dedup | java/common-dcp/src/main/java/com/vmware/photon/controller/common/dcp/DcpRestClient.java:394-400 | keeps the same links without duplicates |
| DcpRestClient.AllLinks | java/common-dcp/src/main/java/com/vmware/photon/controller/common/dcp/DcpRestClient.java:392-394 | the links of every node's result |
| DcpRestClient.AllDocuments | java/common-dcp/src/main/java/com/vmware/photon/controller/common/dcp/DcpRestClient.java:288-292 | the documents of every node's result, each under its own link |
| DcpRestClient.BroadcastLinks | java/common-dcp/src/main/java/com/vmware/photon/controller/common/dcp/DcpRestClient.java:392-400 | the distinct links of a broadcast response, nothing for any other body |
| DcpRestClient.QueryDocuments | java/common-dcp/src/main/java/com/vmware/photon/controller/common/dcp/DcpRestClient.java:283-293 | a null document type is rejected. Otherwise it succeeds iff the broadcast of the kind's EXPAND_CONTENT query does, and then returns exactly the documents the nodes reported, each under its link |
| DcpRestClient.QueryDocumentsForLinks | java/common-dcp/src/main/java/com/vmware/photon/controller/common/dcp/DcpRestClient.java:387-401 | a null document type is rejected; otherwise the distinct links any node reported |
| DcpRestClient.BuildPagedQuerySpec | java/common-dcp/src/main/java/com/vmware/photon/controller/common/dcp/DcpRestClient.java:323-330 | the paged query always broadcasts and expands content exactly when asked; its result limit is the page size |
| DcpRestClient.QueryDocumentPage | java/common-dcp/src/main/java/com/vmware/photon/controller/common/dcp/DcpRestClient.java:363-372 | a null page link and an empty page link are rejected; otherwise the page's results when the GET succeeds |
| DcpRestClient.FirstPageLink | java/common-dcp/src/main/java/com/vmware/photon/controller/common/dcp/DcpRestClient.java:342-348 | the first page is fetched separately exactly when a page size was given and the results name a next page |
| DcpRestClient.QueryTaskUri | java/common-dcp/src/main/java/com/vmware/photon/controller/common/dcp/DcpRestClient.java:335-339 | the finished query task is polled on the same host and port, at its own self link |
| DcpRestClient.PollUntil | java/common-dcp/src/main/java/com/vmware/photon/controller/common/dcp/DcpRestClient.java:724-743 | polling (with a fixed deadline) GETs the task URI each round. It returns the first successful reply in FINISHED, FAILED or CANCELLED, and rethrows the first failed GET. It times out only in a round whose reply is still running and whose clock, read after the sleep, is past the deadline, every earlier round having been running and within the deadline |
| DcpRestClient.WaitForTaskToFinish | java/common-dcp/src/main/java/com/vmware/photon/controller/common/dcp/DcpRestClient.java:724-743 | the polling loop computes exactly PollUntil with the first GET's expiration as deadline, and so returns only a terminal task |
| DcpRestClient.PollUntilTimesOutOnRunningTask | java/common-dcp/src/main/java/com/vmware/photon/controller/common/dcp/DcpRestClient.java:738-742 | with a fixed deadline, a task that keeps answering "still running" ends in a timeout |
| DcpRestClient.PollAsWritten | java/common-dcp/src/main/java/com/vmware/photon/controller/common/dcp/DcpRestClient.java:727-739 | the loop as written returns a successful poll only for a terminal task |
| DcpRestClient.AsWrittenNeverTimesOut | java/common-dcp/src/main/java/com/vmware/photon/controller/common/dcp/DcpRestClient.java:727-739 | as written, a task that keeps answering "still running" within the 90 s latch wait is polled forever: the loop never times out |
| DcpRestClient.AfterQueryFinished | java/common-dcp/src/main/java/com/vmware/photon/controller/common/dcp/DcpRestClient.java:340-349 | after the query task finished, the results are returned as they are unless paging asks for the first page, which is then fetched |
| DcpRestClient.QueryDocumentsPaged | java/common-dcp/src/main/java/com/vmware/photon/controller/common/dcp/DcpRestClient.java:312-350 | a null document type, then a page size below 1, are rejected, and a failed query post is rethrown. Otherwise the result is that of waiting on the posted query task's own URI, with the fixed deadline of the corrected wait (see Findings): a failed wait is rethrown, and a finished task gives the first page when paged, else its results |
| CopyStateTrigger.InitializeDefaults | java/deployer/src/main/java/com/vmware/photon/controller/deployer/dcp/task/CopyStateTriggerTaskService.java:79-121 | null fields with a declared default take it: protocols "http", "taskState.stage", limit 10, counters 0, flags 0. Every other field is kept |
| CopyStateTrigger.StartState | java/deployer/src/main/java/com/vmware/photon/controller/deployer/dcp/task/CopyStateTriggerTaskService.java:133-155 | a null execution state becomes RUNNING, the pulse is cleared, defaults are filled and the addresses and links are kept |
| CopyStateTrigger.CheckCounter | java/deployer/src/main/java/com/vmware/photon/controller/deployer/dcp/task/CopyStateTriggerTaskService.java:380-383 | a counter passes iff present and not negative |
| CopyStateTrigger.ValidateState | java/deployer/src/main/java/com/vmware/photon/controller/deployer/dcp/task/CopyStateTriggerTaskService.java:343-348 | passes iff the required fields and the execution state are present and both counters are non-negative. A missing field is reported iff one is null, and the one reported is the first null field in declaration order; the execution state is reported iff it alone of these is null |
| CopyStateTrigger.ValidatePatch | java/deployer/src/main/java/com/vmware/photon/controller/deployer/dcp/task/CopyStateTriggerTaskService.java:355-361 | a patch fails iff it carries none of the two counters, the pulse and the execution state |
| CopyStateTrigger.UpdateLongWithMax | java/deployer/src/main/java/com/vmware/photon/controller/deployer/dcp/task/CopyStateTriggerTaskService.java:388-396 | null keeps the previous value, a negative value resets to 0, otherwise the larger of the two |
| CopyStateTrigger.Merge | java/deployer/src/main/java/com/vmware/photon/controller/deployer/dcp/task/CopyStateTriggerTaskService.java:369-375 | only the execution state (when given) and the two counters change; every other field stays, immutable ones included |
| CopyStateTrigger.MergeKeepsValid | java/deployer/src/main/java/com/vmware/photon/controller/deployer/dcp/task/CopyStateTriggerTaskService.java:166-170 | merging any patch into a valid state gives a state that passes validation |
| CopyStateTrigger.MergeIdempotent | java/deployer/src/main/java/com/vmware/photon/controller/deployer/dcp/task/CopyStateTriggerTaskService.java:369-396 | a patch delivered twice has the effect of one delivery |
| CopyStateTrigger.MergeMonotone | java/deployer/src/main/java/com/vmware/photon/controller/deployer/dcp/task/CopyStateTriggerTaskService.java:388-396 | a patch without negative counters never lowers a counter |
| CopyStateTrigger.ReplayCounterIsMax | java/deployer/src/main/java/com/vmware/photon/controller/deployer/dcp/task/CopyStateTriggerTaskService.java:388-396 | replaying non-negative counter patches in any order yields the maximum of the start and every value |
| CopyStateTrigger.ReplayCounterResets | java/deployer/src/main/java/com/vmware/photon/controller/deployer/dcp/task/CopyStateTriggerTaskService.java:390-392 | a negative value wipes everything before it: the counter restarts from 0 |
| CopyStateTrigger.SuccessPatchCountsOnce | java/deployer/src/main/java/com/vmware/photon/controller/deployer/dcp/task/CopyStateTriggerTaskService.java:294-298 | the success self-patch is accepted and raises the success counter by exactly one, even if delivered twice |
| CopyStateTrigger.ErrorPatchCountsOnce | java/deployer/src/main/java/com/vmware/photon/controller/deployer/dcp/task/CopyStateTriggerTaskService.java:287-292 | the failure self-patch is accepted and raises the error counter by exactly one, even if delivered twice |
| CopyStateTrigger.PulseLeavesStateUnchanged | java/deployer/src/main/java/com/vmware/photon/controller/deployer/dcp/task/CopyStateTriggerTaskService.java:191-207 | the maintenance pulse is an accepted patch that changes no stored field |
| CopyStateTrigger.LatestFinishedUpdateTime | java/deployer/src/main/java/com/vmware/photon/controller/deployer/dcp/task/CopyStateTriggerTaskService.java:244-250 | the watermark is the largest update time among FINISHED copy tasks, and 0 when none finished |
| CopyStateTrigger.BuildCopyStateStartState | java/deployer/src/main/java/com/vmware/photon/controller/deployer/dcp/task/CopyStateTriggerTaskService.java:271-285 | the copy task copies the trigger's ten configuration fields and takes the watermark |
| CopyStateTrigger.QueryTerms | java/deployer/src/main/java/com/vmware/photon/controller/deployer/dcp/task/CopyStateTriggerTaskService.java:300-330 | the running-task query matches copy-state tasks by kind and then by the trigger's eight configuration values, each clause naming its field and carrying the trigger's value for it |
| CopyStateTrigger.StartedTaskMatchesQuery | java/deployer/src/main/java/com/vmware/photon/controller/deployer/dcp/task/CopyStateTriggerTaskService.java:271-330 | a copy task the trigger starts matches every configuration term of the trigger's own query |
| CopyStateTrigger.ProcessPatch | java/deployer/src/main/java/com/vmware/photon/controller/deployer/dcp/task/CopyStateTriggerTaskService.java:221-269 | nothing happens unless the trigger runs and the patch is a pulse. A copy task starts iff the query succeeded and no queried task is still running. A failed query or start self-patches the error counter, a started task the success counter |
| CopyStateTrigger.CopyStateTriggerTaskService.HandleStart | java/deployer/src/main/java/com/vmware/photon/controller/deployer/dcp/task/CopyStateTriggerTaskService.java:133-155 | stores the defaulted start state iff it validates; a rejected start stores nothing |
| CopyStateTrigger.CopyStateTriggerTaskService.ApplyPatch | java/deployer/src/main/java/com/vmware/photon/controller/deployer/dcp/task/CopyStateTriggerTaskService.java:369-375 | the stored state becomes the merge of the old state and the patch, and stays valid |
| CopyStateTrigger.CopyStateTriggerTaskService.HandlePatch | java/deployer/src/main/java/com/vmware/photon/controller/deployer/dcp/task/CopyStateTriggerTaskService.java:161-179 | a patch without effect is rejected and changes nothing. Otherwise it is merged and the state stays valid. Processing follows iff the trigger runs and the patch is a pulse |
| CopyStateTrigger.CopyStateTriggerTaskService.MaintenancePatch | java/deployer/src/main/java/com/vmware/photon/controller/deployer/dcp/task/CopyStateTriggerTaskService.java:185-216 | the pulse is sent iff owner selection succeeded and named this host |
| TaskDocuments.FirstMissingRequired | java/cluster-manager/backend/src/test/java/com/vmware/photon/controller/clustermanager/tasks/SwarmClusterCreateTaskServiceTest.java:273-287 | finds the first required field the document lacks; none iff every required field is present |
| TaskDocuments.FirstImmutableSet | java/cluster-manager/backend/src/test/java/com/vmware/photon/controller/clustermanager/tasks/SwarmClusterCreateTaskServiceTest.java:487-511 | finds the first immutable field the patch carries; none iff it carries none |
| TaskDocuments.ValidateRequired | java/cluster-manager/backend/src/test/java/com/vmware/photon/controller/clustermanager/tasks/SwarmClusterCreateTaskServiceTest.java:273-287 | a start passes iff every `@NotNull` field is present, and otherwise names a missing one |
| TaskDocuments.ValidateImmutable | java/deployer/src/test/java/com/vmware/photon/controller/deployer/dcp/task/AllocateHostResourceTaskServiceTest.java:411-438 | a patch passes iff it sets no `@Immutable` field, whatever value it sets |
| TaskDocuments.MergePatch | java/cluster-manager/backend/src/test/java/com/vmware/photon/controller/clustermanager/tasks/SwarmClusterCreateTaskServiceTest.java:319-339 | fields the patch carries replace the stored ones; all others are kept |
| TaskDocuments.MergeKeepsImmutable | java/deployer/src/test/java/com/vmware/photon/controller/deployer/dcp/task/AllocateHostResourceTaskServiceTest.java:411-438 | a patch that passed the immutable check leaves every immutable field as stored |
| TaskDocuments.MergeKeepsRequired | java/cluster-manager/backend/src/test/java/com/vmware/photon/controller/clustermanager/tasks/SwarmClusterCreateTaskServiceTest.java:273-287 | a stored document keeps its required fields under every patch |
| SwarmClusterCreate.StartRule | java/cluster-manager/backend/src/test/java/com/vmware/photon/controller/clustermanager/tasks/SwarmClusterCreateTaskServiceTest.java:203-271 | a start state is accepted iff a sub-stage is present exactly in STARTED, rejected iff a stage other than STARTED carries one |
| SwarmClusterCreate.RuleVerdict | java/cluster-manager/backend/src/test/java/com/vmware/photon/controller/clustermanager/tasks/SwarmClusterCreateTaskServiceTest.java:341-485 | a move is rejected iff it goes to CREATED, leaves a final stage or goes back along the sub-stages. An accepted move goes from a non-final stage to FAILED, CANCELLED or the next step of the chain |
| SwarmClusterCreate.StartRuleMatchesTables | java/cluster-manager/backend/src/test/java/com/vmware/photon/controller/clustermanager/tasks/SwarmClusterCreateTaskServiceTest.java:203-271 | the start rule gives the tables' verdict on all 25 stage and sub-stage combinations |
| SwarmClusterCreate.RuleMatchesTables | java/cluster-manager/backend/src/test/java/com/vmware/photon/controller/clustermanager/tasks/SwarmClusterCreateTaskServiceTest.java:341-485 | the transition rule gives the tables' verdict on all 64 pairs of well-formed states, the 14 undecided ones included |
| SwarmClusterCreate.AcceptedMovesProgress | java/cluster-manager/backend/src/test/java/com/vmware/photon/controller/clustermanager/tasks/SwarmClusterCreateTaskServiceTest.java:341-380 | every accepted move goes strictly forward along CREATED, the four sub-stages and the final stages |
| SwarmClusterCreate.TableMovesProgress | java/cluster-manager/backend/src/test/java/com/vmware/photon/controller/clustermanager/tasks/SwarmClusterCreateTaskServiceTest.java:341-380 | every move in the accepted table goes strictly forward |
| SwarmClusterCreate.StartDecision | java/cluster-manager/backend/src/test/java/com/vmware/photon/controller/clustermanager/tasks/SwarmClusterCreateTaskServiceTest.java:189-287 | a start passes iff every required field is present and the tables accept the start state (or leave it open and the policy admits it); a missing field is reported first |
| SwarmClusterCreate.PatchDecision | java/cluster-manager/backend/src/test/java/com/vmware/photon/controller/clustermanager/tasks/SwarmClusterCreateTaskServiceTest.java:319-511 | a patch passes iff it sets no immutable field and the tables accept its move (or leave it open and the policy admits it). A move out of a final stage, to CREATED or backward always fails |
| SwarmClusterCreate.SwarmClusterCreateTaskService.HandleStart | java/cluster-manager/backend/src/test/java/com/vmware/photon/controller/clustermanager/tasks/SwarmClusterCreateTaskServiceTest.java:189-201 | an accepted start stores the posted document; a rejected one stores nothing |
| SwarmClusterCreate.SwarmClusterCreateTaskService.HandlePatch | java/cluster-manager/backend/src/test/java/com/vmware/photon/controller/clustermanager/tasks/SwarmClusterCreateTaskServiceTest.java:319-339 | after an accepted patch the stored stage and sub-stage are the patch's and the carried fields overwrite the stored ones; a rejected patch changes nothing |
| AllocateHostResource.EveryStageStarts | java/deployer/src/test/java/com/vmware/photon/controller/deployer/dcp/task/AllocateHostResourceTaskServiceTest.java:208-217 | every one of the five stages is an accepted start stage |
| AllocateHostResource.RuleMatchesTables | java/deployer/src/test/java/com/vmware/photon/controller/deployer/dcp/task/AllocateHostResourceTaskServiceTest.java:331-401 | a move is in the accepted table iff its source is CREATED or STARTED and its target is not CREATED, and in the rejected table iff not |
| AllocateHostResource.PatchDecision | java/deployer/src/test/java/com/vmware/photon/controller/deployer/dcp/task/AllocateHostResourceTaskServiceTest.java:309-438 | a patch passes iff it sets no immutable field and its move is in the accepted table; every move out of a final stage fails |
| AllocateHostResource.AllocateHostResourceTaskService.HandleStart | java/deployer/src/test/java/com/vmware/photon/controller/deployer/dcp/task/AllocateHostResourceTaskServiceTest.java:195-250 | a start in any stage stores the document as posted, so a final stage and the host service link are kept; every stage is an accepted start stage |
| AllocateHostResource.AllocateHostResourceTaskService.HandlePatch | java/deployer/src/test/java/com/vmware/photon/controller/deployer/dcp/task/AllocateHostResourceTaskServiceTest.java:309-329 | after an accepted patch the stored stage is the target (STARTED to STARTED included); a rejected patch changes nothing |
| VmService.NewStateHasEveryFieldNull | java/cloud-store/src/test/java/com/vmware/photon/controller/cloudstore/dcp/entity/VmServiceTest.java:85-95 | a freshly constructed VM state has every required field null |
| VmService.ValidateStart | java/cloud-store/src/test/java/com/vmware/photon/controller/cloudstore/dcp/entity/VmServiceTest.java:141-230 | a start passes iff all five fields are present, and otherwise fails with "<field> cannot be null" for a missing one |
| VmService.MissingFieldIsNamed | java/cloud-store/src/test/java/com/vmware/photon/controller/cloudstore/dcp/entity/VmServiceTest.java:152-230 | a start lacking exactly one field fails with that field's message |
| VmService.MergePatch | java/cloud-store/src/test/java/com/vmware/photon/controller/cloudstore/dcp/entity/VmServiceTest.java:282-292 | each field a patch carries replaces the stored one; the others are kept |
| VmService.VmStatePatch | java/cloud-store/src/test/java/com/vmware/photon/controller/cloudstore/dcp/entity/VmServiceTest.java:282-292 | a patch of only `vmState` sets it, changes nothing else and keeps the document complete |
| VmService.VmServiceHost.HandleStart | java/cloud-store/src/test/java/com/vmware/photon/controller/cloudstore/dcp/entity/VmServiceTest.java:141-150 | a complete start is stored as posted; an incomplete one stores nothing |
| VmService.VmServiceHost.HandlePatch | java/cloud-store/src/test/java/com/vmware/photon/controller/cloudstore/dcp/entity/VmServiceTest.java:282-292 | the stored document becomes the merge with the patch and stays complete |
| VmService.ToDocument | java/cloud-store/src/test/java/com/vmware/photon/controller/cloudstore/dcp/entity/VmServiceTest.java:141-150 | the posted JSON holds `name` exactly when the state has one, with the same value |
| VmService.PostCompleteVmReturnsName | java/cloud-store/src/test/java/com/vmware/photon/controller/cloudstore/dcp/entity/VmServiceTest.java:141-150 | posting a complete VM through the client succeeds and returns the created document with the posted name |
| VmService.PostMissingFieldIsBadRequest | java/cloud-store/src/test/java/com/vmware/photon/controller/cloudstore/dcp/entity/VmServiceTest.java:152-230 | posting a VM lacking one field through the client raises a bad request whose message is "<field> cannot be null" |
| SecurityGroups.CreateFromHash | ruby/common/lib/common/resources/security_group.rb:19-38 | succeeds iff the input is a hash whose keys include `name` and `isInherited` (more keys allowed), taking both values from it. Otherwise it fails with UnexpectedFormat naming the input |
| SecurityGroups.CreateFromHashRoundTrip | ruby/common/lib/common/resources/security_group.rb:33-37 | a group's own hash, with or without further keys, parses back to the same group |
| SecurityGroups.EqualsAsWritten | ruby/common/lib/common/resources/security_group.rb:40-42 | `==` as written answers only for an object that has `id`, and otherwise raises NoMethodError |
| SecurityGroups.AsWrittenGroupsNeverCompare | ruby/common/lib/common/resources/security_group.rb:40-42 | as written, comparing a group with any group raises NoMethodError |
| SecurityGroups.AsWrittenIgnoresFlag | ruby/common/lib/common/resources/security_group.rb:41 | as written, the answer is just whether the name equals `other.id`; the inherited flag plays no part |
| SecurityGroups.AsWrittenCounterexample | ruby/common/lib/common/resources/security_group.rb:40-42 | as written, a group compared with itself raises |
| SecurityGroups.Equals | ruby/common/lib/common/resources/security_group.rb:40-42 | corrected equality holds exactly when both groups have the same name and the same flag |
| SecurityGroups.EqualsIsEquivalence | ruby/common/lib/common/resources/security_group.rb:40-42 | corrected equality is reflexive, symmetric and transitive |
| SecurityGroups.EqualsOnParsedGroups | ruby/common/lib/common/resources/security_group.rb:33-42 | two parsed groups are equal iff their hashes agree on `name` and `isInherited` |

## Left out

- Transport, threads and logging. These are the Netty client, `start`/`stop`, the operation latches and every log-message builder. A send is an oracle `Completion`, a batch join a `JoinOutcome`, and sleeping is a gap in the clock readings.
- The clock is read once per client call (`Env.nowMicros`), and once per round while polling (`Tick`). The random server choice is the `Env.pick` input.
- `ServiceUriPaths`, `QueryTaskUtils`, `ServiceUtils.selectRandomItem`, `InitializationUtils` and `ValidationUtils` are not part of this model. Query-task bodies are a `Body` datatype, defaults are listed field by field, and `@NotNull`/`@Immutable` are a `Schema`. An empty server set is modelled as the error NoServerAvailable.
- The overridable expiration and interval getters are taken at their declared constants.
- The order in which a batch join lists completed operations is not modelled; they are taken in creation order. The result map is keyed by source link, so the order does not change it. Which exception a batch with several failed operations raises does depend on that order: the model reports the first failure in creation order, while the join may list the operations differently.
- Java `long` overflow is not modelled: integers are unbounded.
- The message text of exceptions built from operation bodies is not modelled. Only a bad request's message is carried, taken from an error body.
- CopyStateTrigger.ProcessPatch: a queried copy task whose task state is null is not modelled. Every queried instance carries a stage.
- The trigger's `controlFlags` are stored and defaulted but not interpreted.
- The null check inside `checkIsPositiveNumber` never fires. A null counter is rejected as the unboxing failure it causes, without attributing it to that check.
- `SecurityGroup.create_from_json` is left out, because `JSON.parse` is a library call. So is the text of the UnexpectedFormat message; the error carries the input instead.
- The end-to-end tests of the Swarm and allocate tasks are left out. They run external clients, scripts and orchestration code that is not part of this model.
- The 14 well-formed Swarm moves and the STARTED-without-sub-stage start that the tests leave undecided are not modelled. They go to a policy the service is given.
- SwarmClusterCreate.PatchDecision: a patch that moves to an ill-formed state (a sub-stage outside STARTED, or STARTED without one) is only constrained by the rejection rules (to CREATED, out of a final stage, backward). Beyond that it is left to the policy.
- The allocate task's missing-field test selects fields by an annotation that is not the service's `@NotNull`. No required-field rule is derived from it, so AllocateHostResource.AllocateHostResourceTaskService.HandleStart accepts every start.
- A Swarm or allocate patch without a task state is not modelled. Every patch carries one, as in the tests.
- CopyStateTrigger.ValidateState: when several required fields are null, reporting the first in declaration order is an assumption about `ValidationUtils.validateState`, whose traversal order is not part of this model. Whether a required field is reported, and the single-null case, are exact.
- VmService.ValidateStart: when several required fields are missing, the order in which they are reported is an assumption (declaration order is not visible). The single-missing-field case is exact.
- VM document fields other than the five required ones are not modelled.
- Automatic stage advance on start (when processing is not disabled) is not modelled. The tests disable it.

## Findings

| source | as written | input that shows it | evidently intended | confidence | as-written member | corrected member |
|---|---|---|---|---|---|---|
| java/common-dcp/src/main/java/com/vmware/photon/controller/common/dcp/DcpRestClient.java:727-739 | the loop's exit test compares the clock with the expiration of the most recent GET, which is renewed to now + 120 s by every poll | a query task that stays STARTED while each GET answers within the 90 s latch wait: after the 100 ms sleep the clock is always inside the latest GET's expiration, so the wait never times out | stop waiting once a fixed deadline (the first GET's expiration) has passed | medium; not executed | DcpRestClient.AsWrittenNeverTimesOut | DcpRestClient.WaitForTaskToFinish |
| ruby/common/lib/common/resources/security_group.rb:40-42 | `@name==other.id && @is_inherited==is_inherited` | `g == g` for `g = SecurityGroup.new("default", true)` raises NoMethodError, since a SecurityGroup has no `id`; the flag is compared with itself | compare `@name` with `other.name` and `@is_inherited` with `other.is_inherited` | high; not executed | SecurityGroups.AsWrittenCounterexample | SecurityGroups.Equals |
