# Verified model of the WebSocket gateway's concurrent cores

This project models the parts of the gateway whose guarantees depend on interleavings, and proves those guarantees in
Dafny. Each concurrent core is a state machine: a `State`, an `Action` for every atomic operation of the source (a lock
region, a channel operation, a timer, a map or counter operation, a request to etcd or to the cache), one step function
per action with the lines it stands for in its comment, and `Run` for a sequence of actions by any number of goroutines.
Theorems quantify over all runs. Beside the machine stands the object of the source, a class with its fields, whose
methods are tied to the step functions.

- `CoordinatorModel`, `CoordinatorProofs`, `CoordinatorTheorems`, `CoordinatorProgress`, `CoordinatorShutdown`,
  `Coordinator`: the batch coordinator, from its steps over one inductive invariant to the refinement of a service
  without batches, progress and shutdown.
- `BatchProcessor`: finding the backend client, calling it with retries, checking the response.
- `IDGenerator`: the distributed ID and port generator over one etcd store.
- `BalancerModel`, `BalancerProofs`, `BalancerMemory`, `BalancerConfig`, `Balancer`: the capacity balancer v2 with its
  picker builder; `CapacityGrowth`: the compare-and-swap growth loop; `Picker`, `PickerRace`: the bounded round-robin,
  for one caller under interference and for any number of callers.
- `PushRetryModel`, `PushRetryTheorems`, `PushRetryRevival`, `PushRetryClose`, `PushRetryManager`: the retransmission manager.
- `TokenLimiter`: the connection limiter with the accept loop.
- `Keys`, `DispatchModel`, `DispatchTheorems`, `DispatchBackend`, `DispatchLimit`, `FrontendHandler`, `HandlerChain`:
  deduplicated dispatch of frontend messages, the limiter and the handler chain.
- `Rebalance`, `LinkRegistry`, `LinkFifo`, `LinkV3Fifo`: scale-out arithmetic and link selection, the link manager, and
  the order of payloads on a connection.

`dafny verify dfyconfig.toml` checks everything.

## Where the code differs from what it says

- `coordinator.go` line 287 says Stop notifies the waiters after the batches in hand are processed. It is sure to do so
  only if nothing is waiting or in hand when it is called: `CoordinatorShutdown.GracefulIff`; a run that fails is
  `StopMayNotWait`.
- `picker_builder.go` lines 69-72 say changed attributes take effect in real time. A tracked SubConn keeps the address
  value it was created with, and so does the configuration of its wrapper (`ConfigurationIsFrozen`); new attributes
  arrive only with a new SubConn, for instance after a Shutdown event (`UntrackedTakesNewAttributes`).
- Build skips Ready SubConns without a node identity, so a picker can be published as Ready and offer nothing:
  `OffersAllReadyIff`. Close leaves the last picker in place: `CloseLeavesPicker`.
- Push retries check for existence by key, so a new Start revives a deleted task: `StoppedTaskRevivesIff`. Close can be
  survived by a Start that passed its check: `SurvivesCloseIff`.
- The link counter drifts as soon as one NewLink finds an entry of its user: `LenExactIff`. A connection can be
  unregistered by another one's handler exactly if the two share a user: `StaysFindableIff`.
- A cache request with a lost reply blocks its message for good although the sender is told to retry:
  `HeldMessageIsNeverHandledAgain`, `EntryCanGoIff`. Deduplication makes the backend answer a message once exactly as
  long as its replies can be built: `AnsweredAgainIff`.
- LinkV3 drops nil payloads it has accepted, and only those: `OnlyNilIsLost`.

## Model

| member | source | states |
|---|---|---|
| CoordinatorProofs.Reachable | internal/linkevent/coordinator.go:85-334 | Under every interleaving of OnReceive calls, timers, spawned triggers and Stop calls the whole invariant of the batch coordinator holds. |
| CoordinatorTheorems.BatchesPartitionAcceptance | internal/linkevent/coordinator.go:122-250 | Per bizID, the batches already taken, in take order, followed by the batch in the map are exactly the accepted requests in acceptance order, and no request occurs twice. |
| CoordinatorTheorems.TakenBatchesAreFrozen | internal/linkevent/coordinator.go:150-203 | A batch that was taken is never appended to again and never taken twice; after `stopped` nothing is accepted. |
| CoordinatorTheorems.AtMostOneSend | internal/linkevent/coordinator.go:253-285 | Each ResultChan sees at most one send, so the `default` branches at 257 and 277 never drop anything. |
| CoordinatorTheorems.DeadBranches | internal/linkevent/coordinator.go:190-331 | The early return for a closed batch, both `default` branches and the discarding reset are dead: in every reachable state the batch about to be closed is open, the channel about to be sent on is empty, and the map is empty when Stop closes stopCh. |
| CoordinatorTheorems.ClosedBatchNeverFires | internal/linkevent/coordinator.go:190-203 | In every reachable state the timer of a closed batch is not armed, so it can start no further goroutine. |
| CoordinatorTheorems.WorkedOnIsClosed | internal/linkevent/coordinator.go:177-250 | A batch whose messages are with the processor, or whose results are being handed out, is closed, out of the map, and its taker's alone. |
| CoordinatorTheorems.SizeTriggerIff | internal/linkevent/coordinator.go:158-173 | Accepting a request starts a goroutine exactly if its batch has then reached batchSize, and that goroutine serves the request's bizID; no other goroutine is touched. |
| CoordinatorTheorems.StepRefinesDirect | internal/linkevent/coordinator.go:85-285 | Each step is one move of a service that has no batches, for at most one request, and leaves all other requests alone. |
| CoordinatorTheorems.BatchedRunRefinesDirect | internal/linkevent/coordinator.go:85-285 | With an order-preserving processor every request lives through a run of the unbatched service that calls the processor on that request alone, accepts it only before Stop and turns it away only after Stop. |
| CoordinatorTheorems.CallerGetsItsOwnAnswer | internal/linkevent/coordinator.go:85-120 | A caller that gets a response gets the processor's answer to its own request. |
| CoordinatorTheorems.ToldStoppedOnlyAfterStop | internal/linkevent/coordinator.go:91-120 | A caller is told that the coordinator has stopped only after a call of Stop; any other error is one the processor reports. |
| CoordinatorProgress.WaitingBatchWillBeTaken | internal/linkevent/coordinator.go:135-187 | Every batch in the map is open and non-empty, its own timer is armed or fired and pending, and if it reached batchSize a size trigger is pending too. |
| CoordinatorProgress.Serve | internal/linkevent/coordinator.go:135-250 | From any reachable state an accepted request has a bounded chain of enabled steps that ends with its result deposited. |
| CoordinatorProgress.AcceptedIsNeverLost | internal/linkevent/coordinator.go:122-187 | No accepted request is lost, from whatever state a run has reached. |
| CoordinatorProgress.WaitingCallerReturns | internal/linkevent/coordinator.go:98-120 | No caller waits for ever: from any reachable state a waiting caller can return with the one result sent to it, and its channel is empty afterwards. |
| CoordinatorProgress.NobodyAbandonedBeforeClose | internal/linkevent/coordinator.go:104-120 | Until stopCh is closed every caller that has returned was sent exactly what it was told. |
| CoordinatorProgress.StopClosesOnceAndLosesNothing | internal/linkevent/coordinator.go:288-334 | Over any number of concurrent Stop calls stopCh is closed at most once, the map is empty at that moment and the reset at line 330 discards nothing. |
| CoordinatorProgress.UnansweredAtClose | internal/linkevent/coordinator.go:309-328 | When stopCh is closed, a request lacks its result exactly if its batch was taken by a timer or size trigger that has not come to it; requests taken by Stop's own triggers all have theirs. |
| CoordinatorShutdown.GracefulIff | internal/linkevent/coordinator.go:287-334 | In the state where Stop is called: whatever is scheduled afterwards, all accepted requests have their results when stopCh is closed, if and only if they all have them already, that is, if the map is empty and no goroutine works on a batch. |
| CoordinatorShutdown.StopCanBeOvertaken | internal/linkevent/coordinator.go:288-334 | From every other state the timers can overtake Stop's goroutines: stopCh is closed with no request answered that was not answered before. |
| CoordinatorProgress.AllAnsweredAtCloseIff | internal/linkevent/coordinator.go:309-328 | At the close all requests have their results exactly if no goroutine of a timer or size trigger is still working. |
| CoordinatorProgress.ReachesProcessor | internal/linkevent/coordinator.go:122-250 | The state of the following example is reachable. |
| CoordinatorProgress.StopMayNotWait | internal/linkevent/coordinator.go:287-334 | From it Stop closes at once and the caller is told the coordinator stopped, although its answer arrives afterwards. |
| Coordinator.Coordinator.constructor | internal/linkevent/coordinator.go:68-82 | A fresh coordinator is the initial state of the machine. |
| Coordinator.Coordinator.Admit | internal/linkevent/coordinator.go:91-96 | The first check of OnReceive. |
| Coordinator.Coordinator.AddToBatch | internal/linkevent/coordinator.go:122-174 | Under the lock: refuse after Stop, else join or create the batch, arm its timer, spawn a size trigger when full; the new state is the machine's. |
| Coordinator.Coordinator.Detach | internal/linkevent/coordinator.go:177-187 | The batch of a bizID leaves the map and belongs to its taker. |
| Coordinator.Coordinator.CloseBatch | internal/linkevent/coordinator.go:190-203 | The timer is stopped, so that it is not armed afterwards, and the batch closed; its requests are kept. |
| Coordinator.Coordinator.Distribute | internal/linkevent/coordinator.go:253-285 | The scatter loop leaves each request with exactly one result: the processor's error, the response at its own index, or, if the numbers differ, a response mismatch. |
| Coordinator.Coordinator.TriggerBatch | internal/linkevent/coordinator.go:177-250 | Undisturbed, it empties the map entry, calls the processor on the batch's messages and delivers to every request its own part of the answer, dropping nothing. |
| BatchProcessor.AttemptFindsFirst | internal/linkevent/batch_processor.go:122-152 | The responses are those of the first successful attempt; failure means every granted attempt failed, and the last error is reported. |
| BatchProcessor.BatchProcessor.GetClient | internal/linkevent/batch_processor.go:104-119 | The client table is reloaded at most once, and only when the bizID is missing. |
| BatchProcessor.BatchProcessor.Call | internal/linkevent/batch_processor.go:122-152 | The retry loop computes the specified outcome. |
| BatchProcessor.BatchProcessor.Process | internal/linkevent/batch_processor.go:54-101 | An unknown bizID is an error. Otherwise the first attempt that answers decides: its responses are returned if there is one per message, any other number is a mismatch; if no granted attempt answers, the last one's code is reported. |
| BatchProcessor.ProcessIsPointwise | internal/linkevent/batch_processor.go:54-101 | For a backend that answers message by message, Process satisfies what the refinement theorem asks of a processor, never reports that the coordinator has stopped, and returns exactly the per-message answers when the first attempt that answers has the right number of responses. |
| IDGenerator.Reachable | pkg/generator/etcd.go:64-150 | The invariant of the compare-revision-and-put protocol holds for any number of clients and any loss of replies. |
| IDGenerator.DrawnValue | pkg/generator/etcd.go:95-150 | A returned value is the first value of the key plus the position of the call's own transaction among the successful commits. |
| IDGenerator.DrawnValuesDiffer | pkg/generator/etcd.go:85-150 | Two calls on one key never return the same value. |
| IDGenerator.GapsAreLostReplies | pkg/generator/etcd.go:95-150 | The committed values are consecutive; one of them was handed to nobody exactly if the call that committed it has not received its reply. |
| IDGenerator.InitializedOnce | pkg/generator/etcd.go:64-82 | Once a key exists no later initialisation changes its first value, and no step lowers it. |
| IDGenerator.FirstInitializationWins | pkg/generator/etcd.go:64-82 | Whatever follows the first initialisation of a key, its value is the given one plus the number of successful draws. |
| IDGenerator.ReplyDecides | pkg/generator/etcd.go:132-148 | In every reachable state the reply to a committed transaction makes the call return the value that was put; a refused one sends it round the loop again. |
| IDGenerator.AcceptedIffStillNext | pkg/generator/etcd.go:122-130 | A transaction commits exactly if nobody has put a value since its key was read; the key then grows by one, otherwise it stays. |
| IDGenerator.RefusedLostToAnother | pkg/generator/etcd.go:145-148 | A refused transaction has lost to a committed one that put the very value it was to put: some caller always gets on. |
| IDGenerator.UndisturbedDraw | pkg/generator/etcd.go:95-150 | A call that nobody disturbs reads, commits and returns the next value. |
| IDGenerator.LaterCallsDrawMore | pkg/generator/etcd.go:95-150 | A call that starts after another has returned draws a larger value. |
| IDGenerator.World.GenerateValue | pkg/generator/etcd.go:95-150 | The retry loop itself, with arbitrary interference between its requests: its value is its own draw, above the value at its start, and nobody else's. A first turn that goes undisturbed returns the next value; a missing key is reported; and the loop runs out only if each turn's Get failed, its reply was lost, its own transaction was not evaluated, or was refused. |
| BalancerProofs.BuildServes | pkg/grpc/balancer/capacity/v2/picker_builder.go:31-67 | Build hands out one wrapper for each Ready SubConn that has a node identity, in visiting order, and never shares one between two SubConns. |
| BalancerProofs.NoUpdateNeeded | pkg/grpc/balancer/capacity/v2/balancer.go:227-251 | When shouldUpdatePicker says no, the Ready SubConns are unchanged; when it says yes for a live SubConn, they have changed. It says yes exactly for a change from or to Ready or to Shutdown. |
| BalancerProofs.StepTracks | pkg/grpc/balancer/capacity/v2/balancer.go:79-251 | Every operation but Close leaves at most one SubConn per address and a published picker over exactly the Ready SubConns. |
| BalancerProofs.StateChangeRecords | pkg/grpc/balancer/capacity/v2/balancer.go:190-225 | A state event untracks a SubConn that is shut down, gives any other one its new state under its old address, touches no other, and publishes nothing if the Ready SubConns stay. |
| BalancerProofs.ErrorFailsIff | pkg/grpc/balancer/capacity/v2/balancer.go:176-187 | A resolver error publishes a failing picker exactly if nothing is tracked, and changes nothing else. |
| BalancerProofs.PickerOffersReady | pkg/grpc/balancer/capacity/v2/balancer.go:142-251 | After any run of an open balancer the picker offers the Ready SubConns with a node identity, each once, and is an error picker when nothing is Ready. |
| BalancerProofs.OffersAllReadyIff | pkg/grpc/balancer/capacity/v2/picker_builder.go:42-46 | The picker offers all Ready SubConns exactly if the nodeID attribute of each is set and not empty; it offers none at all exactly if no Ready one has such an attribute. |
| BalancerProofs.CloseLeavesPicker | pkg/grpc/balancer/capacity/v2/balancer.go:259-268 | Close publishes nothing: the picker is right afterwards exactly if nothing was Ready before. |
| BalancerMemory.PublishedIsConfigured | pkg/grpc/balancer/capacity/v2/picker_builder.go:48-95 | Each wrapper of a new picker carries the nodeID, maximum, step and rate of the SubConn it hands out, 100, 0 and 0.1 where they are not set; a known node keeps its capacity and a new one starts at its initial capacity, 10 where it is not set. |
| BalancerMemory.TrackedAfterResolve | pkg/grpc/balancer/capacity/v2/balancer.go:79-139 | After a resolver update an address is tracked exactly if it is listed and was tracked, or NewSubConn succeeds for one of its occurrences. |
| BalancerMemory.ResolveShutsDownDropped | pkg/grpc/balancer/capacity/v2/balancer.go:89-134 | Exactly the SubConns whose address left the list are untracked and shut down; the others keep address and state; new ones are Idle. |
| BalancerMemory.MemoryAfterResolve | pkg/grpc/balancer/capacity/v2/picker_builder.go:40-102 | A node is remembered after an update exactly if it was before and no unlisted SubConn carries its nodeID, or a Ready SubConn carries it now. |
| BalancerMemory.UnlistedIsForgotten | pkg/grpc/balancer/capacity/v2/balancer.go:95-100 | Once the address of its only SubConn leaves the list, the node's memory is erased. |
| BalancerMemory.UpdateReachesTrackedIff | pkg/grpc/balancer/capacity/v2/balancer.go:103-114 | A resolver update does not touch the address value of a tracked SubConn: it is the listed one afterwards if and only if it was before. |
| BalancerConfig.ConfigurationIsFrozen | pkg/grpc/balancer/capacity/v2/picker_builder.go:69-78 | Over any run, as long as a SubConn is tracked every wrapper that hands it out carries the attributes the SubConn was created with, whatever the resolver lists meanwhile. |
| BalancerConfig.PickerServesNamedNodes | pkg/grpc/balancer/capacity/v2/picker_builder.go:40-95 | After any run of an open balancer each wrapper of the picker hands out a Ready SubConn under that SubConn's own nodeID and configuration, and each Ready SubConn with a nodeID is handed out by exactly one wrapper. |
| BalancerConfig.UntrackedTakesNewAttributes | pkg/grpc/balancer/capacity/v2/balancer.go:103-134 | The way out: an address that is not tracked, for instance after a Shutdown event, gets a SubConn with the newly listed attributes. |
| BalancerMemory.CapacityNeverFalls | pkg/grpc/balancer/capacity/v2/picker_builder.go:40-78 | Over any run of disconnects, reconnects, rebuilds, updates and Done callbacks a remembered node keeps its wrapper and its capacity does not fall while its address stays listed. |
| BalancerMemory.UndisturbedCallbackGrows | pkg/grpc/balancer/capacity/v2/picker.go:109-140 | An undisturbed Done callback leaves a full node alone and raises any other by the step or its rate's share, whichever is larger, up to the maximum; nothing else changes. |
| BalancerMemory.CapacityStaysWithinMax | pkg/grpc/balancer/capacity/v2/picker_builder.go:73-95 | With initial capacity within the limit and an unchanged limit, a node's capacity never exceeds it. |
| Balancer.CapacityBalancer.RemoveUnlisted | pkg/grpc/balancer/capacity/v2/balancer.go:89-101 | The removal loop untracks, shuts down and forgets exactly what the specification says, in any iteration order. |
| Balancer.CapacityBalancer.Found | pkg/grpc/balancer/capacity/v2/balancer.go:105-111 | The inner search loop decides whether the address is tracked. |
| Balancer.CapacityBalancer.CreateListed | pkg/grpc/balancer/capacity/v2/balancer.go:104-134 | The creation loop. |
| Balancer.CapacityBalancer.Build | pkg/grpc/balancer/capacity/v2/picker_builder.go:31-67 | The loop over ReadySCs, in any iteration order, reusing or creating wrappers. |
| Balancer.CapacityBalancer.UpdatePicker | pkg/grpc/balancer/capacity/v2/balancer.go:142-174 | It publishes a picker over exactly the Ready SubConns, or the error picker. |
| Balancer.CapacityBalancer.UpdateClientConnState | pkg/grpc/balancer/capacity/v2/balancer.go:79-139 | The whole resolver update is one step of the machine and leaves the picker right. |
| Balancer.CapacityBalancer.HandleSubConnStateChange | pkg/grpc/balancer/capacity/v2/balancer.go:190-225 | Recording a state, with or without a rebuild, is one step of the machine and leaves the picker right. |
| Balancer.CapacityBalancer.Close | pkg/grpc/balancer/capacity/v2/balancer.go:260-268 | Every SubConn is shut down and untracked. |
| CapacityGrowth.GrowBounds | pkg/grpc/balancer/capacity/v2/picker.go:131-132 | One growth step raises by at least the configured step, never past the maximum, and is idle exactly without step and rate. |
| CapacityGrowth.GrowIsExact | pkg/grpc/balancer/capacity/v2/picker.go:130-132 | One growth step adds exactly the step or the rate's share without its fraction, whichever is larger, cut at the maximum. |
| CapacityGrowth.CapacityConverges | pkg/grpc/balancer/capacity/v2/picker.go:120-140 | Under any interleaving of compare-and-swap loops the capacity never falls or overshoots, each callback loses a bounded number of races, and enough callbacks, by step or by rate, make it the maximum. |
| CapacityGrowth.RacingRampIsSequential | pkg/grpc/balancer/capacity/v2/picker.go:120-140 | Under any interleaving the capacity is what the same number of callbacks, one after the other, would have made of it, and every callback that has returned counts once. |
| CapacityGrowth.GrowthIsGradual | pkg/grpc/balancer/capacity/v2/picker.go:120-140 | Under any interleaving each completed callback has added at most the step or the largest share; without a rate the capacity is exactly initial + completed * step until it reaches the maximum. |
| CapacityGrowth.CallbacksToFull | pkg/grpc/balancer/capacity/v2/picker.go:120-140 | ceil((max - init) / step) completed callbacks are enough. |
| CapacityGrowth.CallbacksToFullAtRate | pkg/grpc/balancer/capacity/v2/picker.go:130-132 | The same with the rate's share of the initial capacity where it is larger than the step, even without a step. |
| CapacityGrowth.AboveMaxStaysAbove | pkg/grpc/balancer/capacity/v2/picker.go:125-128 | An initial value above the maximum is never corrected. |
| CapacityGrowth.GrowsIff | pkg/grpc/balancer/capacity/v2/picker.go:131-132 | A capacity can ever grow exactly if the step is positive or the rate yields a whole unit. |
| CapacityGrowth.Counter.IncreaseCapacity | pkg/grpc/balancer/capacity/v2/picker.go:120-140 | The loop with rivals between load and swap: bounded rounds; the last round leaves a full counter alone or adds exactly the step or the share of what it saw; undisturbed, it needs one round. |
| Picker.Picker.Pick | pkg/grpc/balancer/capacity/v2/picker.go:67-117 | At most 2 * len + 1 indices are drawn; the search ends in the first round whose node is full or whose lot falls for it; the result is the member the last index points to. |
| Picker.OneVisit | pkg/grpc/balancer/capacity/v2/picker.go:79-80 | Among len consecutive indices exactly one lands on a given connection. |
| Picker.FullNodeIsFound | pkg/grpc/balancer/capacity/v2/picker.go:77-104 | Without interference, if some connection is at full capacity, Pick selects within one tour and never falls back, and the node of its last index is full or the lot fell for it. |
| Picker.SearchEndsIff | pkg/grpc/balancer/capacity/v2/picker.go:77-104 | The search ends in round k exactly if that round's node is full or its lot falls for it and no earlier one's did, and in the fallback exactly if none did. |
| Picker.FullFirstIsTaken | pkg/grpc/balancer/capacity/v2/picker.go:79-86 | Under any interference, if the node of the first index drawn is full when Pick looks, Pick takes it and draws no other index. |
| Picker.ToursAreFair | pkg/grpc/balancer/capacity/v2/picker.go:79-80 | Any r * len consecutive indices belong to each connection exactly r times. |
| PickerRace.AddsAreBounded | pkg/grpc/balancer/capacity/v2/picker.go:67-104 | Over any interleaving of calls and capacity changes no call adds to the index more than 2 * len + 1 times, and a call that returns has the node of an index that no other call drew. |
| PickerRace.CallsReturnIff | pkg/grpc/balancer/capacity/v2/picker.go:77-104 | Over any interleaving a look returns its node exactly if that is full or the lot fell for it, and an Add returns at once exactly after 2 * len looks. |
| PickerRace.FairToConcurrentCallers | pkg/grpc/balancer/capacity/v2/picker.go:67-104 | If every connection is full, each of any number of interleaved calls adds to the index once and takes that node, and any r * len consecutive Adds whose calls have looked select each connection exactly r times. |
| PushRetryTheorems.StatsAreAccounted | pkg/pushretry/manager.go:39-84 | Counter plus uncounted Starts minus uncounted deletions is the number of tasks, so GetStats is exact at quiescence. |
| PushRetryTheorems.StatsCanBeNegative | pkg/pushretry/manager.go:55-57 | In flight the counter can be negative. |
| PushRetryTheorems.StepLocal | pkg/pushretry/manager.go:39-178 | No step touches a task's count, pushes or chain except a move of its own chain. |
| PushRetryTheorems.PushesAreBounded | pkg/pushretry/manager.go:136-149 | No task is pushed again more than max(0, maxRetries - 1) times. |
| PushRetryTheorems.ChainsAreFinite | pkg/pushretry/manager.go:130-171 | Every timer chain ends after a bounded number of moves. |
| PushRetryTheorems.LiveChainCanMove | pkg/pushretry/manager.go:130-171 | A chain that has not ended always has an enabled move. |
| PushRetryTheorems.EveryEntryIsServed | pkg/pushretry/manager.go:39-84 | Every task in the map has a live chain: no entry is left behind. |
| PushRetryTheorems.DeletedKeyFallsSilent | pkg/pushretry/manager.go:130-149 | Once a key is deleted and not restarted, each of its tasks pushes at most once more, and only if already past the existence check, whatever the race with arming the timer. |
| PushRetryTheorems.AbsentUnlessRestarted | pkg/pushretry/manager.go:39-53 | A deleted key stays absent unless a Start for it is under way or is called. |
| PushRetryRevival.StoppedTaskRevivesIff | pkg/pushretry/manager.go:130-149 | In every reachable state a task whose key was deleted can push beyond its goroutine's last commitment if and only if it has retries left and the manager is open or a Start for its key is past the closed check. |
| PushRetryRevival.PresentKeyLetsItPush | pkg/pushretry/manager.go:131-170 | While its key is in the map, whoever put it there, a chain can push as often as its own count allows. |
| PushRetryRevival.NeverBeyondReach | pkg/pushretry/manager.go:136-149 | No run pushes a task beyond what its count and stage allow. |
| PushRetryRevival.FailedPushIsLast | pkg/pushretry/manager.go:149-170 | A failed push is the task's last in every continuation and leads to the deletion of its key; a successful one gives up none of the pushes left. |
| PushRetryRevival.RestartRevivesStoppedTask | pkg/pushretry/manager.go:131-134 | A state in which a deleted task revives is reachable. |
| PushRetryTheorems.ClosedMapGrowsOnlyByLateStarts | pkg/pushretry/manager.go:39-53 | After the closed flag only Starts already past their check can add a task. |
| PushRetryClose.SurvivesCloseIff | pkg/pushretry/manager.go:110-117 | From any reachable state of a closed manager a key can outlive the sweep, stored during it or after it, if and only if a Start for it is past its closed check. |
| PushRetryClose.CloseIsFinalIff | pkg/pushretry/manager.go:110-117 | Every sweep of a closed manager leaves the map empty for good if and only if no Start at all is between its check and its store. |
| PushRetryClose.StartCanSurviveClose | pkg/pushretry/manager.go:39-53 | Such a Start is reachable. |
| PushRetryManager.Manager.Start | pkg/pushretry/manager.go:39-63 | Undisturbed: ignored when closed or when the key exists, else a counted task with an armed, remembered timer. |
| PushRetryManager.Manager.StopAndDeleteTask | pkg/pushretry/manager.go:77-84 | Undisturbed: a retry entry leaves the map, its timer chain ends, the counter follows. |
| PushRetryManager.Manager.Retry | pkg/pushretry/manager.go:130-171 | One firing of any task's timer, in the map or not: end if the key is gone, stop at the limit, stop on a failed push, else push, count and arm the next timer; deletion is by key. |
| PushRetryManager.Manager.StopByLinkID | pkg/pushretry/manager.go:87-102 | Exactly the tasks of that connection are removed and their chains ended. |
| PushRetryManager.Manager.Close | pkg/pushretry/manager.go:110-117 | Everything is removed, every chain ended, the counter zero. |
| TokenLimiter.ValidateIff | internal/limiter/connection_limiter.go:37-53 | A configuration is accepted exactly if all its numbers are usable; otherwise the first unusable one, in the source's order, is reported. |
| TokenLimiter.TokensAreConserved | internal/websocket_server.go:187-234 | Tokens in the channel plus tokens held equal the capacity reached so far, within the maximum; Acquire succeeds exactly below it, Release never fails and ramp sends never block. |
| TokenLimiter.FreeTokenServes | internal/websocket_server.go:187-229 | Below the capacity reached so far the accept loop can serve one more connection and goes on; a failed Accept returns its token and ends the loop only if it is told to. |
| TokenLimiter.EndedAcceptsNobody | internal/websocket_server.go:187-229 | Once the accept loop has ended no connection is added. |
| TokenLimiter.RampReachesMaxExactly | internal/limiter/connection_limiter.go:84-128 | The ramp reaches the maximum exactly after ceil((max - init) / step) growth steps. |
| TokenLimiter.RampCompletes | internal/limiter/connection_limiter.go:84-128 | From any reachable state whose ramp is alive, a chain of at most three ramp steps per missing token raises the capacity to the maximum. |
| TokenLimiter.RampGoesIff | internal/limiter/connection_limiter.go:89-103 | A tick ends the ramp exactly at the maximum, and a cancellation always does. |
| TokenLimiter.Limiter.Acquire | internal/limiter/connection_limiter.go:131-138 | Succeeds exactly while fewer tokens are out than the capacity reached so far, and keeps the conservation invariant. |
| TokenLimiter.Limiter.Release | internal/limiter/connection_limiter.go:141-153 | Whoever returns a token it holds succeeds. |
| TokenLimiter.Limiter.GrowOnce | internal/limiter/connection_limiter.go:98-125 | One tick grows by one step capped at the maximum and adds exactly as many tokens. |
| TokenLimiter.NewTokenLimiter | internal/limiter/connection_limiter.go:37-80 | The first configuration error, or a limiter holding the initial tokens. |
| Keys.MessageKeyInjective | internal/linkevent/handler.go:228-230 | Cache keys agree exactly for the same business and message key, negative businesses included. |
| Keys.MessageKeyReads | internal/linkevent/handler.go:228-230 | The key is the sign of the business, its number in decimal digits, a dash and the message key, as it is. |
| Keys.LinkIDInjective | internal/link/manager.go:96-98 | Link identities agree exactly for the same business and user. |
| DispatchTheorems.RunKeeps | internal/linkevent/handler.go:119-253 | The ownership invariant of the deduplication cache holds for every run, lost and late cache requests included. |
| DispatchTheorems.AtMostOneInFlight | internal/linkevent/handler.go:130-166 | Per business and key at most one non-heartbeat message is in a handler or deleting its entry. |
| DispatchTheorems.ReadmittedOnlyAfterRelease | internal/linkevent/handler.go:166-181 | A message is dispatched again only after every earlier dispatch ended in one of the four retryable errors and deleted its entry. |
| DispatchTheorems.DuplicateHasOriginal | internal/linkevent/handler.go:132-150 | A message is refused as a duplicate only if the entry was set for that very message. |
| DispatchTheorems.AdmissionIsTold | internal/linkevent/handler.go:119-165 | The outcome of every admission in every reachable state, in the order of the checks: bad format, decryption, heartbeat, cache failure, duplicate exactly if another call holds the entry of this very message, unknown command, or dispatch with the entry owned. |
| DispatchTheorems.CacheRequestsLeave | internal/linkevent/handler.go:218-253 | A SetNX that took effect unnoticed or late holds its entry for good although the sender is told the cache failed, a lost one holds nothing; a Delete frees the entry exactly if it takes effect. |
| DispatchTheorems.HandlerErrorIff | internal/linkevent/handler.go:233-396 | Each sentinel is reported exactly for its own failure, and the entry is deleted exactly for the four retryable ones, never for a heartbeat. |
| DispatchTheorems.RateLimitedIsNotCached | internal/linkevent/limit_handler.go:29-54 | A rate-limited message owns no cache entry and has no cache request under way. |
| DispatchLimit.RefusedLeavesNoTrace | internal/linkevent/limit_handler.go:29-54 | Dropping a refused message's steps from a run gives a run that ends with the same cache and the same answers to all other calls. |
| DispatchTheorems.HeldMessageIsNeverHandledAgain | internal/linkevent/handler.go:119-182 | A message answered with success or another error, or whose SetNX or Delete outcome was lost, is never handled again. |
| DispatchTheorems.EntryCanGoIff | internal/linkevent/handler.go:241-253 | The entry of an answered call can go away exactly if a Delete of it is under way. |
| DispatchBackend.AnsweredAgainIff | internal/linkevent/handler.go:306-322 | After the backend has answered a message, some continuation makes it answer the message again if and only if the reply could not be marshalled or encrypted. |
| DispatchBackend.SecondAnswerNeedsFailedReply | internal/linkevent/handler.go:166-181 | Over all runs: a second answer to the same message needs a first one whose reply could not be built and whose entry was deleted; with every reply built there is at most one. |
| DispatchTheorems.BackendMaySeeAMessageTwice | internal/linkevent/handler.go:306-322 | Such a run from the initial state. |
| FrontendHandler.Handler.CacheMessage | internal/linkevent/handler.go:218-226 | SetNX with every outcome; heartbeats bypass it. |
| FrontendHandler.Handler.DeleteCacheMessage | internal/linkevent/handler.go:241-253 | Delete with every outcome. |
| FrontendHandler.Handler.OnFrontendSendMessage | internal/linkevent/handler.go:119-182 | The answer of one call, in the order of the source's checks, and what it leaves in the cache. |
| HandlerChain.OnFrontendSendMessage | types.go:97-108 | The handlers run in order; the first rate limit ends the chain without any error, else exactly the errors of all handlers are reported. |
| HandlerChain.RefusedReachesNobody | ioc/linkevent_handler.go:186 | With the limiter wired first, a refused message reaches no other handler and the sender is told once. |
| HandlerChain.PassedIsUnchanged | ioc/linkevent_handler.go:186 | A message that passes is handled as if the limiter were not there. |
| HandlerChain.ChainFollowsTheCall | types.go:97-108 | The wired chain is cut off at its first handler exactly if the call's limiter step ends it rate-limited. |
| Rebalance.MigratesItsShare | internal/websocket_server.go:480-494 | The migration count is ceil(m * k / n), within 0 and m, and the node keeps the cluster average rounded down. |
| Rebalance.ShareIsExactIff | internal/websocket_server.go:480-482 | The comment's M * K / N is met exactly if it is a whole number. |
| Rebalance.ClusterKeepsItsShare | internal/websocket_server.go:480-494 | Over any loads the old nodes together keep their share of the total, short by less than one connection per node. |
| Rebalance.TooManyNewNodes | internal/websocket_server.go:486-487 | With at least as many new nodes as nodes, everything is redirected. |
| Rebalance.NegativeCountIff | internal/websocket_server.go:484-487 | The count is negative exactly if the link counter momentarily is and a node was added. |
| Rebalance.SwappedPermutes | internal/link/random_selector.go:24-26 | Any sequence of exchanges permutes. |
| Rebalance.AnyChoiceIsPossible | internal/link/random_selector.go:24-27 | Whichever distinct links are wanted, in whichever order, some sequence of exchanges selects them. |
| Rebalance.Shuffle | internal/link/random_selector.go:23-26 | The in-place shuffle computes the exchanged order. |
| Rebalance.Select | internal/link/random_selector.go:18-28 | min(count, len) links of the input, none twice, input untouched; a negative count panics. |
| LinkRegistry.LenCountsLinksAndOverwrites | internal/link/manager.go:81-153 | Over all runs Len is the number of links plus the overwrites, corrected by operations in flight; the drift never heals. |
| LinkRegistry.LenAtRest | internal/link/manager.go:235-255 | At rest Len is exact exactly if nothing was overwritten, and a zero Len means nothing is registered, so Close may return early. |
| LinkRegistry.LenExactIff | internal/link/manager.go:81-94 | At rest Len is exact if and only if no NewLink ever found an entry of its user. |
| LinkRegistry.FindReturnsOwnLink | internal/link/manager.go:138-141 | A lookup never returns another user's link. |
| LinkRegistry.StaysFindableIff | internal/websocket_server.go:255-273 | In every reachable state: open links that can be found stay findable until their own handlers end, however the handlers end, if and only if none of them shares its user with another open link. |
| LinkRegistry.OneSessionIsExact | internal/websocket_server.go:255-273 | If users never hold two connections at once, every reachable state is of that kind and Len is exact at rest. |
| LinkRegistry.ReconnectLosesTheNewLink | internal/websocket_server.go:265-273 | A state in which the old connection's handler has unregistered the new connection is reachable. |
| LinkRegistry.Manager.NewLink | internal/link/manager.go:81-94 | Stores under the user's identity and counts. |
| LinkRegistry.Manager.FindLinkByUserInfo | internal/link/manager.go:138-141 | A link that is found belongs to the user asked for, and none is found only if no registered link does. |
| LinkRegistry.Manager.RemoveLink | internal/link/manager.go:144-153 | Removes and counts down exactly if present. |
| LinkRegistry.Manager.CleanIdleLinks | internal/link/manager.go:218-233 | Exactly the idle links go, and their number is returned. |
| LinkRegistry.Manager.Close | internal/link/manager.go:252-276 | Afterwards nothing is registered and the counter shows only past overwrites. |
| LinkFifo.LinkIsFifo | internal/link/link.go:151-302 | Written is a prefix of accepted and delivered a prefix of read, each missing at most one payload in hand; buffers are respected; receiveCh is closed at most once. |
| LinkFifo.AcceptedCanBeWritten | internal/link/link.go:151-168 | As long as sendLoop runs, all accepted payloads can still be written, in order, by its own steps. |
| LinkFifo.ReadCanBeDelivered | internal/link/link.go:225-284 | A message that is read can be delivered, at the latest after the handler has taken an earlier one, and the loop reads on. |
| LinkFifo.ClosedReceiveStaysClosed | internal/link/link.go:225-284 | Nothing is sent on receiveCh after its close. |
| LinkFifo.CancelledLinkCloses | internal/link/link.go:151-284 | Once the context is done both loops end and receiveCh is closed within three steps of their own, whatever the buffers hold. |
| LinkFifo.CancelledIff | internal/link/link.go:151-302 | The context is done exactly if somebody closed the link or one of the two goroutines has gone. |
| LinkFifo.GoesOnUnlessStopped | internal/link/link.go:151-284 | Both loops go on as long as nobody closes the link, no write is given up and no read fails. |
| LinkFifo.SendWithRetry | internal/link/link.go:170-223 | A payload is written exactly if some pass within the granted retries succeeds and all earlier ones timed out with the context alive. |
| LinkV3Fifo.LinkV3IsFifo | internal/link/link_v3.go:141-207 | Written is a prefix of the accepted non-nil payloads, delivered of those read; buffers are respected; between two reads at most sendBatch writes, and as many again per refusal of the limiter; receiveCh closed at most once. |
| LinkV3Fifo.AcceptedCanBeWrittenV3 | internal/link/link_v3.go:141-207 | As long as the loop runs it can still write every accepted payload that is not nil and deliver what it has read, within three steps per payload and two more. |
| LinkV3Fifo.PickEndsIff | internal/link/link_v3.go:149-162 | A look at the buffer ends the sending phase exactly if it is empty or yields nil. |
| LinkV3Fifo.PhaseWrites | internal/link/link_v3.go:149-168 | Payloads that are there and not nil are written one after the other in one phase, until sixteen have been. |
| LinkV3Fifo.CancelledLoopCloses | internal/link/link_v3.go:141-207 | Once the context is done the loop ends and closes receiveCh within three steps of its own. |
| LinkV3Fifo.EndsOnlyWhenStopped | internal/link/link_v3.go:141-207 | The context is done exactly if somebody closed the link or the loop has ended; the loop goes on as long as nobody closes the link and no write or read fails. |
| LinkV3Fifo.RunInOrderV3 | internal/link/link_v3.go:141-207 | The loop's invariant, and that nothing is delivered after the close. |
| LinkV3Fifo.OnlyNilIsLost | internal/link/link_v3.go:150-168 | While the loop runs, a payload taken from the buffer is missing from the connection exactly if it was nil. |
| LinkV3Fifo.Connection.SendPhase | internal/link/link_v3.go:149-168 | The sending loop writes the non-nil prefix in order and stops at nil, at the end of the queue, after sendBatch writes or at the first failure. |

## Left out

- Time: timers are steps that may happen whenever they are armed; retry intervals and backoff durations do not appear,
  and a retry strategy is the number of retries it grants.
- WebSocket framing, compression, encryption, JWT, protobuf and JSON: whether a message decodes, decrypts, encrypts or
  marshals is an input. What a retransmission carries is not stated, since push overwrites the body with the ciphertext.
- gRPC, etcd, Redis, Kafka, Docker, metrics, configuration and wiring, except for the order of the handler chain.
- Cache expiry: entries stay until they are deleted. A cache client that resends a request by itself is not modelled.
- Integer width: counters, capacities and the picker index are unbounded.
- `float64(oldCap) * growthRate` is taken over the reals before truncation; rounding is not modelled.
- etcd values are integers; their decimal form in the store and parse errors are not modelled.
- Heap objects that goroutines share (batches, wrappers, tasks, links) are identities into an arena, and their fields
  are values of it; data races on plain fields inside one step are not modelled.
- Go's map iteration order is an argument or a nondeterministic choice.
- Coordinator.Stop: a sequence of machine steps only, because it waits for goroutines; the class has no method for it.
- `sc.Connect` calls, after a SubConn is created and after a transient failure: only the state events they lead to appear.
- One ramp-up goroutine runs per limiter, as the server starts one.
- PushRetryManager.Manager.Retry: one uninterrupted call; goroutines that race with it are steps of the machine.
- PickerRace.AddsAreBounded: the loads with which Pick looks at one node, lines 82-92, are one step.
- A write that times out after part of its bytes went out counts as not written.
- `getBackendServiceClient` and the retry loop of `forwardToBusinessBackend` in handler.go have the form of the two loops
  proved for the batch processor; the handler's model takes their outcome as input.
- `batch_handler.go` repeats handler.go around the coordinator.
- `link_v2.go`, `link_v4.go`, `registry.go`, `batch_send_to_backend.go` and the v1 balancer are not modelled.
- GracefulClose, RedirectLinks beyond the selection, and idle-time bookkeeping (UpdateActiveTime, TryCloseIfIdle).
