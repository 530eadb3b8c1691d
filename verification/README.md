# Nomad Autoscaler: a verified model

This project models the decision-making core of the Nomad Autoscaler in Dafny 4.11 and
proves what it guarantees. `dafny verify dfyconfig.toml` checks all of it.

**The evaluation broker** (`policyeval/broker.go`) is a work queue shared by many
workers: a heap of pending evaluations per queue, two indexes, a table of
unacknowledged deliveries with Nack timers, and a one-slot wake-up channel per queue.
It is modelled twice.

- As objects: `PendingHeap.PendingEvaluations` is the array heap with Go's sift-up,
  sift-down and fix; `BrokerObject.Broker` holds the broker's maps, and every critical
  section is a method proved against `BrokerSpec`, which says what that section does to
  the state (`EnqueueBy`, `FindWorkBy`, `AfterDeliver`, `AckBy`, `NackBy`).
- As runs: `BrokerRuns.Step` lets producers, workers, timers and their callbacks take
  those sections in any order. `Dequeue` is two critical sections, so an evaluation can
  be in a worker's hand, in neither the heap nor `unack`. `BrokerTheorems` states what
  holds of every run; the invariants behind it are in `BrokerPlaces`, `BrokerRequests`,
  `BrokerTokens`, `BrokerDelivery`, `BrokerKeys`, `BrokerDedup` and `BrokerWakeup`;
  `BrokerSettling` adds what a worker may rely on for its delivery. An evaluation is live
  while it is pending, in hand or unacknowledged.

Two hypotheses are part of the step relation: an evaluation handed to `Enqueue` has an id
not seen before (ids are generated at `sdk/eval.go:26`), and a delivery token is new and
not empty (`policyeval/broker.go:188`). `ReusedIdDuplicates` shows why the first matters.

**The scaling decision** is the target-value strategy, the per-check pipeline with the
count cap, the choice of one action among the checks, and the strategy in its control
loop. **Smaller cores** are the query printer and parsers, the node pool filter with the
scale-in selection, the policy validator and best-effort parser, and the policy manager.
`PolicyDrafts` writes a policy out as blocks and shows that the validator accepts exactly
the sound ones and that the parser reads them back.

## Where the code differs from its comments

The model follows the code. Each difference has a lemma at an input or a run, and a
theorem that says exactly when the code does what the comment says.

- The broker's header comment says a replaced evaluation's id leaves `enqueuedEvals`. The
  code deletes the id of the evaluation it keeps (`BrokerWitness.CounterOutlivesEval`). In
  every run the keys are the live ids, less those kept by the replace branch since their
  last delivery, plus those replaced while counted or dropped as outdated
  (`BrokerTheorems.EnqueuedKeys`); the latter are never removed (`LeakedForGood`). The keys
  are exactly the live ids if and only if no enqueue or requeue so far met the indexed
  evaluation of its policy waiting in its queue (`KeysExactIff`).
- As a consequence the delivery limit can be exceeded (`BrokerWitness.LimitExceeded`). The
  stored counter is right if and only if the evaluation never took the replace branch
  after a Nack, and each time it does allows at most max(1, limit) - 1 more deliveries
  (`BrokerTheorems.DeliveryLimit`); the witness run attains that bound.
- The broker is said to dedup requests. Two evaluations of one policy can be delivered at
  once (`BrokerWitness.TwoEvalsOfOnePolicyOut`). A run reaches two live evaluations of a
  policy if and only if some enqueue of the policy happens while one of its evaluations is
  out of the heap or waits under another type (`BrokerTheorems.DoubledIffOverlapped`).
- The header says the policy index is updated when a newer evaluation is enqueued. It is
  if and only if the indexed one waits in the same queue (`BrokerDedup.IndexFollowsNewest`);
  in the run of `TwoEvalsOfOnePolicyOut` the index still names the older evaluation.
- The header says the index entry stays until the evaluation is acked or dropped at the
  limit. A live evaluation can lose its entry (`BrokerWitness.IndexLost`), and does so if
  and only if another evaluation of its policy is acked or dropped
  (`BrokerDedup.LosesIndexIff`).
- `sdk/strategy.go:15-19` says a count is never negative outside dry-run. With a negative
  metric the target-value strategy asks for -1 (`TargetValue.DryRunMarkerAsked`) exactly
  when count times factor lies in (-2, -1] (`TargetValue.YieldsDryRunMarker`), and exactly
  then an action leaves the policy's limits (`ClosedLoop.LeavesLimits`).
- A direction is said to tell how the count changes. Below the minimum a "down" raises the
  count (`ClosedLoop.DownRaisesCount`); `ClosedLoop.CappedMovesAsStated` says exactly when.
- The validator accepts a check given as a bare map, which the parser drops
  (`PolicyDocs.BareMapLost`). A validated policy has one check per label if and only if
  every block is list-shaped (`PolicyDocs.CheckCount`).
- The validator's "at least one check block" does not hold: an empty list passes
  (`PolicyDocs.NoCheckNeeded`). A validated policy has no checks if and only if every
  label, if any, holds a bare map (`PolicyDocs.NoChecks`).
- A handler goroutine that ends deletes its policy's entry even when a newer handler is
  filed there (`Manager.EndOrphansOther`, with a run in `Manager.LostHandler`).

## Model

| member | source | states |
|---|---|---|
| `PendingHeap.SiftUpRestores` | policyeval/broker.go:337-350 | sifting up repairs a heap that is wrong at one position, under the order "higher priority, then earlier creation" |
| `PendingHeap.SiftDownRestores` | policyeval/broker.go:337-350 | sifting down either moves and yields a heap, or leaves everything alone with the children in order |
| `PendingHeap.SiftUpPermutes` | policyeval/broker.go:347-350 | sifting up keeps the multiset of evaluations |
| `PendingHeap.SiftDownPermutes` | policyeval/broker.go:347-350 | sifting down keeps the multiset of evaluations |
| `PendingHeap.PushedSpec` | policyeval/broker.go:156-157 | a push keeps the heap order and adds exactly the new evaluation |
| `PendingHeap.FixedSpec` | policyeval/broker.go:149-150 | overwriting a position and fixing it keeps the heap order and exchanges exactly that evaluation, whatever its new priority |
| `PendingHeap.PoppedSpec` | policyeval/broker.go:228-231 | a pop keeps the heap order, removes one evaluation, and that one has the highest priority and among those the earliest creation |
| `PendingHeap.Up` | policyeval/broker.go:333-350 | the in-place loop computes the sift-up of the heap part and leaves the rest of the array |
| `PendingHeap.Down` | policyeval/broker.go:333-350 | the in-place loop computes the sift-down, reports whether it moved, and leaves the rest of the array |
| `PendingHeap.PendingEvaluations.Push` | policyeval/broker.go:352-355 | append with growth and sift-up: the new elements are the pushed heap |
| `PendingHeap.PendingEvaluations.Pop` | policyeval/broker.go:357-364 | returns an evaluation of the highest priority, and of the earliest creation among those, and leaves the popped heap |
| `PendingHeap.PendingEvaluations.Replace` | policyeval/broker.go:149-150 | leaves the fixed heap |
| `PendingHeap.GetEvaluation` | policyeval/broker.go:366-374 | the first position with the id, or -1 exactly when no element has it |
| `BrokerObject.Broker.EnqueueLocked` | policyeval/broker.go:104-166 | takes the enqueue step of the state: duplicate, outdated, replaced or pushed, with indexes, channel and wake-up signal |
| `BrokerObject.Broker.Enqueue` | policyeval/broker.go:97-102 | an external enqueue is the locked one with no token |
| `BrokerObject.Broker.Place` | policyeval/broker.go:133-163 | what happens to the heap and the policy index once the evaluation is counted and its queue open |
| `BrokerObject.Broker.FindWork` | policyeval/broker.go:213-232 | returns nothing exactly when the queue is empty, otherwise removes a pending evaluation of the highest priority, and of the earliest creation among those |
| `BrokerObject.Broker.Deliver` | policyeval/broker.go:184-211 | records the delivery with its token, arms the timer and counts it |
| `BrokerObject.Broker.Channel` | policyeval/broker.go:238-244 | the queue's channel, created once and then kept |
| `BrokerObject.Broker.Ack` | policyeval/broker.go:254-284 | succeeds exactly with the outstanding token and a running timer, and then forgets the evaluation; otherwise nothing changes |
| `BrokerObject.Broker.Nack` | policyeval/broker.go:286-325 | refuses stale tokens unchanged, drops at the delivery limit, requeues otherwise |
| `BrokerPlaces.StepMoves` | policyeval/broker.go:104-325 | exactly which evaluations each step moves between heap, hand and `unack` |
| `BrokerPlaces.PlacesPreserved` | policyeval/broker.go:24-28 | every step keeps every evaluation in at most one place, at most once |
| `BrokerRequests.RivalSharesPolicy` | policyeval/broker.go:133-144 | the evaluation found through the index belongs to the same policy |
| `BrokerRequests.IndexPreserved` | policyeval/broker.go:133-157 | every step keeps the policy index naming live evaluations of the right policy |
| `BrokerRequests.NothingLostPreserved` | policyeval/broker.go:104-166 | every step keeps each request answered by a live or finished evaluation of its policy, created no earlier |
| `BrokerTokens.TokensPreserved` | policyeval/broker.go:188-203 | every step keeps tokens unique, unsettled while outstanding, and each with a running timer or a due callback |
| `BrokerTokens.StaleTokenChangesNothing` | policyeval/broker.go:263-270 | Ack, Nack or a timer callback with a settled token leaves the broker as it was |
| `BrokerDelivery.DeliveryPreserved` | policyeval/broker.go:206-206 | every step keeps counters equal to true deliveries exactly for evaluations that never took the replace branch after a Nack, and the deliveries of every evaluation within the bound that its resets allow |
| `BrokerKeys.KeysPreserved` | policyeval/broker.go:111-152 | every step keeps the keys of `enqueuedEvals` to the live ids that were not kept by the replace branch since their last delivery, and the ids that were replaced while counted or dropped as outdated |
| `BrokerKeys.LiveIdsAfter` | policyeval/broker.go:104-325 | exactly which ids are live after a step |
| `BrokerKeys.LeaksIffRival` | policyeval/broker.go:143-152 | a step leaks the first key if and only if its enqueue finds the policy's indexed evaluation waiting in its queue |
| `BrokerDedup.DedupPreserved` | policyeval/broker.go:133-157 | every step keeps all live evaluations of a non-overlapping policy indexed |
| `BrokerDedup.OverlapDoubles` | policyeval/broker.go:143-157 | an enqueue while an evaluation of the policy is out of the heap, or waits under another type, leaves two different live evaluations of the policy |
| `BrokerDedup.DoublesIffOverlaps` | policyeval/broker.go:133-157 | as long as a policy never overlapped, an enqueue leaves two live evaluations of it if and only if it overlaps |
| `BrokerDedup.NewerOfTwoStays` | policyeval/broker.go:143-153 | of an evaluation and the indexed one waiting in its queue the newer stays, on a tie the waiting one |
| `BrokerDedup.EnqueueTwice` | policyeval/broker.go:111-119 | enqueueing an evaluation again changes nothing if and only if the first time it did not replace another one |
| `BrokerDedup.IndexFollowsNewest` | policyeval/broker.go:43-44 | a newer evaluation takes over the index entry if and only if the indexed one waits in its queue |
| `BrokerDedup.LosesIndexIff` | policyeval/broker.go:40-41 | an indexed evaluation that stays live loses its entry if and only if another evaluation of its policy is acked or dropped at the limit |
| `BrokerWakeup.ChannelsNeverReplaced` | policyeval/broker.go:124-131 | a queue's channel is never replaced by any step |
| `BrokerWakeup.WakeupPreserved` | policyeval/broker.go:159-163 | every step keeps non-empty queues signalled or attended by a worker that will look |
| `BrokerTheorems.RunInv` | policyeval/broker.go:15-44 | all invariants hold in every state of every run |
| `BrokerTheorems.NoRequestLost` | policyeval/broker.go:104-166 | in every run, each enqueued request is answered by a live evaluation of its policy created no earlier, or by one that was acked or dropped at the limit |
| `BrokerTheorems.OnePlacePerEval` | policyeval/broker.go:24-28 | in every run an id is in one place, so never both pending and unacknowledged, and once in its heap |
| `BrokerTheorems.IndexNeverDangles` | policyeval/broker.go:38-44 | in every run an index entry names a live evaluation of that policy |
| `BrokerTheorems.DeliveryLimit` | policyeval/broker.go:312-319 | in every run an evaluation that took the replace branch after a Nack r times is delivered at most max(1, limit) + r (max(1, limit) - 1) times, so at most max(1, limit) times if r is zero or the limit is at most one; the counter of a live evaluation equals the number of its deliveries if and only if r is zero |
| `BrokerTheorems.ResetsCounted` | policyeval/broker.go:148-148 | the recorded number of resets is the number of Nacks in the run that took the replace branch |
| `BrokerTheorems.EnqueuedKeys` | policyeval/broker.go:31-34 | in every run an id is a key of `enqueuedEvals` if and only if it is live and was not kept by the replace branch since its last delivery, or it was replaced while counted or dropped as outdated |
| `BrokerTheorems.LeakedForGood` | policyeval/broker.go:31-34 | in every run a key left behind belongs to no live evaluation and stays forever |
| `BrokerTheorems.KeysExactIff` | policyeval/broker.go:31-34 | the keys are exactly the live ids if and only if no enqueue or requeue of the run found the indexed evaluation of its policy waiting in its queue |
| `BrokerTheorems.SettledOnce` | policyeval/broker.go:263-283 | in every run a token settled once is never settled again and later calls with it change nothing |
| `BrokerTheorems.NoOrphans` | policyeval/broker.go:190-203 | in every run each unacknowledged evaluation has a running timer, or a due callback that will not be rejected |
| `BrokerTheorems.OneEvalPerPolicy` | policyeval/broker.go:133-157 | a policy never enqueued while one of its evaluations is out of the heap, nor with another type, has at most one live evaluation, and the index names it |
| `BrokerTheorems.DoubledIffOverlapped` | policyeval/broker.go:133-157 | a run reaches a state with two live evaluations of a policy if and only if some enqueue of that policy overlaps |
| `BrokerTheorems.NoStrandedWork` | policyeval/broker.go:214-252 | before cancellation, a non-empty queue has a full channel or a worker that will look before it parks, and parked workers listen on the queue's own channel |
| `BrokerTheorems.FinishedWasEnded` | policyeval/broker.go:277-280 | what counts as finished was acked or Nacked at the limit by some action of the run |
| `BrokerTheorems.DeliveriesCounted` | policyeval/broker.go:205-206 | the recorded number of deliveries is the number of delivery actions in the run |
| `BrokerSettling.AckSucceedsIff` | policyeval/broker.go:254-284 | in every run the Ack of a delivery succeeds if and only if nothing settled that delivery before and its timer has not fired |
| `BrokerSettling.NackRefusedIff` | policyeval/broker.go:295-302 | in every run the Nack of a delivery, by worker or timer, is refused if and only if the delivery was settled before |
| `BrokerSettling.GivenUpAtLimit` | policyeval/broker.go:312-319 | in every run an evaluation dropped at the limit was delivered at least max(1, limit) times |
| `BrokerWitness.TwoEvalsOfOnePolicyOut` | policyeval/broker.go:143-157 | a run in which two evaluations of one policy are unacknowledged at once and the index names the older |
| `BrokerWitness.IndexLost` | policyeval/broker.go:277-280 | a run in which a live, unacknowledged evaluation has lost its index entry |
| `BrokerWitness.CounterOutlivesEval` | policyeval/broker.go:147-150 | a run that leaves a counter without an evaluation and a pending evaluation without a counter |
| `BrokerWitness.LimitExceeded` | policyeval/broker.go:312-322 | a run that delivers an evaluation three times under a limit of two, which attains the bound for one reset |
| `BrokerWitness.ReusedIdDuplicates` | policyeval/broker.go:111-119 | without fresh ids an evaluation can enter its heap twice |
| `ScalingActions.Capped` | sdk/strategy.go:101-119 | a capped count is within the limits unless it is the dry-run marker; a count within the limits, and the marker, stay |
| `ScalingActions.CappedIsNearest` | sdk/strategy.go:106-118 | apart from the marker, the capped count is the one count within the limits that is nearest to the wished one |
| `ScalingActions.ScalingAction.Canonicalize` | sdk/strategy.go:83-88 | afterwards the metadata map exists and has kept its entries |
| `ScalingActions.ScalingAction.SetDryRun` | sdk/strategy.go:90-97 | the count becomes the marker and the wished count is kept in the metadata |
| `ScalingActions.ScalingAction.CapCount` | sdk/strategy.go:99-119 | the count becomes the nearest one within the limits; metadata is written, with the original count, only if the count changes |
| `ScalingActions.PreemptScalingAction` | sdk/strategy.go:140-175 | returns one of the two, which neither preempts, and the second only if it strictly preempts the first |
| `Worker.Start` | policyeval/base_worker.go:274-374 | the pipeline of one check: errors, no metrics, limits enforced even without a wish, cap, skip when nothing changes; metadata is never nil on an action to execute |
| `Worker.LimitsEnforced` | policyeval/base_worker.go:334-373 | a check holds only within the limits; outside them an idle strategy becomes up to the minimum or down to the maximum, and a wish goes to the nearest count within them |
| `Worker.AnswersCount` | policyeval/base_worker.go:274-332 | a check contributes nothing exactly when its plugins failed or it was interrupted, and holds without metrics |
| `Worker.IdleCheckBlocksDown` | policyeval/base_worker.go:132-167 | within limits, one check without metrics or without a wish keeps all the others from scaling down |
| `Worker.DecidedWithinLimits` | policyeval/base_worker.go:334-373 | for any strategy result an action differs from the current count and stays within limits, or is a marker the strategy asked for |
| `Worker.WinnerExists` | policyeval/base_worker.go:132-167 | some check wins exactly when some check returned an action, and only one does |
| `Worker.WinnerIsSafest` | sdk/strategy.go:140-175 | the winner wants up if and only if some check does, wants down if and only if all do, and has the largest count of its direction |
| `Worker.Reconcile` | policyeval/base_worker.go:132-211 | the loop executes the action of the first strongest check, which is that check's own action object or a new one, within limits or as a dry run, and never writes a nil metadata map |
| `Worker.HandlePolicy` | policyeval/base_worker.go:117-230 | when the evaluation is an error, what count the target receives, and that the cooldown starts only after a successful scaling |
| `TargetValue.Run` | plugins/builtin/strategy/target-value/plugin/plugin.go:75-156 | the staged updates of the action compute the strategy; missing and invalid configuration fail, empty metrics return nothing, and both leave the action alone |
| `TargetValue.ActsIff` | plugins/builtin/strategy/target-value/plugin/plugin.go:109-180 | exactly when the strategy goes up, down or holds, and to which count, in terms of metric, target, count and threshold, targets and counts of zero included |
| `TargetValue.MovesAsStated` | plugins/builtin/strategy/target-value/plugin/plugin.go:119-155 | from a count of zero or more the wished count lies strictly in the stated direction |
| `TargetValue.YieldsDryRunMarker` | plugins/builtin/strategy/target-value/plugin/plugin.go:130-152 | the exact condition under which the strategy asks for -1 |
| `TargetValue.DryRunMarkerAsked` | plugins/builtin/strategy/target-value/plugin/plugin.go:109-135 | one instance, a target of two and a metric of minus three give -1 |
| `TargetValue.NeverNegative` | plugins/builtin/strategy/target-value/plugin/plugin.go:130-135 | with a non-negative factor the wished count is not negative |
| `ClosedLoop.CappedMovesAsStated` | policyeval/base_worker.go:361-373 | an executed action moves strictly in its direction after capping, except that "down" raises the count if and only if the strategy says down below the minimum, and "up" lowers it if and only if it says up above the maximum; with a non-negative factor it stays within limits |
| `ClosedLoop.DownRaisesCount` | policyeval/base_worker.go:361-373 | a "down" that takes two instances to the minimum of five |
| `ClosedLoop.LeavesLimits` | policyeval/base_worker.go:361-373 | an executed action is outside the limits if and only if the strategy asks for -1 |
| `ClosedLoop.MarkerPassesCap` | sdk/strategy.go:99-104 | a check that asks for -1 from one instance with a minimum of one |
| `ClosedLoop.OneStep` | plugins/builtin/strategy/target-value/plugin/plugin.go:109-155 | under a load shared by the instances, a check holds exactly within the threshold of the target or at the count k with k - 1 < load / target <= k, clamped; otherwise it asks for that count, up above the target and down below it |
| `ClosedLoop.FromZero` | plugins/builtin/strategy/target-value/plugin/plugin.go:130-132 | from zero instances a check goes up exactly on a positive factor and a positive maximum, to the factor rounded up and capped |
| `ClosedLoop.DefaultDeadBand` | plugins/builtin/strategy/target-value/plugin/plugin.go:88-97 | without a configured threshold a hundred instances are left alone exactly within one percent of the target |
| `ClosedLoop.Settled` | policyeval/base_worker.go:334-373 | at that clamped count, zero included, a check holds |
| `ClosedLoop.ConvergesInOneStep` | plugins/builtin/strategy/target-value/plugin/plugin.go:109-155 | the control loop reaches that count in one action and every later check holds |
| `Queries.SplitN` | policy/policy.go:135-139 | at most n parts that join to the input, none but the last containing the separator |
| `Queries.Check.Canonicalize` | policy/policy.go:69-120 | sets the default source and completes short queries of Nomad APM checks for their target |
| `Queries.IsNomadApm` | policy/policy.go:122-131 | whether the source is among the configured names |
| `Queries.TaskGroupRoundTrip` | plugins/builtin/apm/nomad/plugin/job.go:230-271 | parsing the completed query returns operation, metric, group and job if and only if operation and metric are known and the group has no slash |
| `Queries.NodeRoundTrip` | plugins/builtin/apm/nomad/plugin/node.go:161-197 | the same for node pools and the class identifier |
| `Queries.ParsedPrintsBack` | plugins/builtin/apm/nomad/plugin/job.go:234-267 | printing what a query parses to gives that query |
| `Queries.TaskGroupAsked` | policy/policy.go:104-110 | for a configured source and a job's group, the completed query parses to the check's operation and metric on the target's group and job, if and only if both are known and the group has no slash |
| `Queries.NodesAsked` | policy/policy.go:112-119 | for a node pool it parses to the class identifier of the target, likewise |
| `Queries.OthersUnchanged` | policy/policy.go:86-102 | a query changes if and only if the source is configured, the query is short and the target is a task group or a node pool |
| `Queries.CanonicalIdempotent` | policy/policy.go:97-120 | completing a query twice is completing it once |
| `NodePool.FilterByClass` | sdk/helper/scaleutils/filter.go:105-175 | the early-exit loop errs exactly when the pool has an unstable node, reporting the first ten at most, and otherwise returns the pool's usable nodes in order |
| `NodePool.FilteredInFields` | sdk/helper/scaleutils/filter.go:132-166 | which nodes are reported and which are kept, by class, status and eligibility |
| `NodePool.SelectInOrder` | sdk/helper/scaleutils/filter.go:121-166 | the filtered list goes node by node in the order of the input |
| `NodePool.IdentifyNodes` | sdk/helper/scaleutils/filter.go:36-43 | only the class identifier is supported |
| `NodePool.FilterOutNodeId` | sdk/helper/scaleutils/nomad.go:342-357 | removes the given node and nothing else; an empty id removes nothing |
| `NodePool.IdentifyTargets` | sdk/helper/scaleutils/nomad.go:139-192 | when selection succeeds, that it takes the first min(num, available) candidates, and that it reports instability exactly when the pool is unstable |
| `NodePool.TargetsAreSafe` | sdk/helper/scaleutils/nomad.go:156-191 | selected nodes are eligible, not initializing, in the pool and never the autoscaler's own, while no node of the pool is initializing or ready without being eligible |
| `NodePool.CandidatesAreAll` | sdk/helper/scaleutils/nomad.go:156-162 | every other eligible node of the pool is a candidate |
| `PolicyDocs.MergeBlocks` | policy/nomad/parser.go:241-261 | the flattening loop, and that it skips nothing exactly when all items are maps |
| `PolicyDocs.FlattenTakesLast` | policy/nomad/parser.go:249-258 | a label's content is that of the last block with the label |
| `PolicyDocs.ValidateBlocks` | policy/nomad/validate.go:327-359 | no error exactly for a list of maps whose flattening has an allowed number of named, well-formed blocks or none |
| `PolicyDocs.ValidateLabeledBlocks` | policy/nomad/validate.go:381-417 | no error exactly for no labels at all, or an allowed number of named, well-formed blocks |
| `PolicyDocs.ValidatePolicy` | policy/nomad/validate.go:63-103 | no error exactly for valid durations, target and checks |
| `PolicyDocs.ValidateHorizontalPolicy` | policy/nomad/validate_horizontal.go:11-46 | no error exactly with both limits, 0 <= min <= max, and a query in every check |
| `PolicyDocs.ValidateScalingPolicy` | policy/nomad/validate.go:15-52 | no error exactly for a policy with id, target, valid document and supported type |
| `PolicyDocs.ParseCheck` | policy/nomad/parser.go:116-153 | a check comes out exactly of a list-shaped block, with the fields of that block and one of its strategies |
| `PolicyDocs.ParseChecks` | policy/nomad/parser.go:76-98 | one check per label with a list-shaped block, under distinct names, in any order |
| `PolicyDocs.PickTarget` | policy/nomad/parser.go:59-67 | the target is one of the parsed blocks, and missing only if none parses |
| `PolicyDocs.ParsePolicy` | policy/nomad/parser.go:17-71 | the zero policy for nil; otherwise id, type, limits, enabled flag, durations, checks and target of the parsed policy |
| `PolicyDocs.BlockIs` | policy/nomad/parser.go:226-239 | a value parses to a block exactly if it is a list of that one map |
| `PolicyDocs.StrategyConfig` | policy/nomad/parser.go:169-187 | key by key, a strategy's configuration is the printed block |
| `PolicyDocs.TargetConfig` | policy/nomad/parser.go:205-223 | key by key, the target block's value wins over the policy's attribute, and no other key appears |
| `PolicyDocs.TargetWithoutBlock` | policy/nomad/parser.go:205-209 | without a block the attributes are the configuration, and without both there is none |
| `PolicyDocs.FieldDefaults` | policy/nomad/parser.go:36-49 | a missing or unreadable field is empty or zero, any other is what was written |
| `PolicyDrafts.ValidatesIffSound` | policy/nomad/validate.go:15-103 | a policy written out as blocks passes validation if and only if it has an id, a supported type, ordered limits, readable durations, and named checks with queries and named strategies |
| `PolicyDrafts.ReadBack` | policy/nomad/parser.go:17-153 | parsing the written-out policy gives it back: all fields, and one check per label with source, query, window and strategy |
| `PolicyDocs.ValidLimits` | policy/nomad/validate_horizontal.go:14-37 | a validated policy has 0 <= min <= max, and no duration error is ignored when parsing it |
| `PolicyDocs.ValidCheck` | policy/nomad/validate.go:162-213 | a parsed check of a validated policy has a query, a readable window, the source that was written and at most one strategy label |
| `PolicyDocs.ValidTarget` | policy/nomad/validate.go:105-124 | a target of a validated policy is a list with at most one label, named and holding one map |
| `PolicyDocs.ChecksAgree` | policy/nomad/validate.go:277-299 | in a validated policy exactly the list-shaped labels become checks, each with a query |
| `PolicyDocs.CheckCount` | policy/nomad/parser.go:86-97 | a validated policy has one check per label if and only if every block is list-shaped |
| `PolicyDocs.NoChecks` | policy/nomad/validate.go:143-149 | a validated policy has no checks if and only if every label, if any, holds a bare map |
| `PolicyDocs.BareMapLost` | policy/nomad/parser.go:86-97 | a validated policy with two checks of which the parser keeps one, without a strategy |
| `PolicyDocs.NoCheckNeeded` | policy/nomad/validate.go:143-149 | a validated policy without any check |
| `PolicyDocs.StrategyAgrees` | policy/nomad/parser.go:126-135 | a check has a strategy if and only if a strategy label holds a list-shaped block |
| `PolicyDocs.TargetAgrees` | policy/nomad/parser.go:51-68 | a validated policy has a target if and only if it has no target list or one with a label |
| `PolicyDocs.TargetLost` | policy/nomad/parser.go:57-67 | a validated policy that parses without a target |
| `Manager.PolicyManager.Receive` | policy/manager.go:83-132 | after a message the tracked policies are the other sources' and the listed ones; existing handlers are untouched and new ones belong to the source |
| `Manager.PolicyManager.StartMissing` | policy/manager.go:89-122 | starts handlers for listed policies without one |
| `Manager.PolicyManager.StopGone` | policy/manager.go:124-130 | stops exactly the source's handlers that are not listed |
| `Manager.PolicyManager.StopHandlers` | policy/manager.go:152-159 | stops and forgets every handler |
| `Manager.HandlersWithinLastMessage` | policy/manager.go:83-150 | in every run, with late goroutine ends and restarts, tracked handlers run and are listed in their source's last message |
| `Manager.MessageTracksListed` | policy/manager.go:83-132 | in every run, right after a message exactly the listed policies and those of other sources are tracked, by running handlers, unchanged if tracked before |
| `Manager.UnstoppedIsTracked` | policy/manager.go:114-121 | in every run a running handler that was not stopped is tracked, unless its policy was listed again before an old goroutine ended |
| `Manager.EndOrphansOther` | policy/manager.go:117-120 | a goroutine's end untracks a running handler if and only if the entry is not its own |
| `Manager.LostHandler` | policy/manager.go:114-121 | a run that ends with a listed, running handler the manager does not track |

## Left out

- Enqueue, Nack, FindWork: the broker object keeps each heap as a sequence in its map and uses the heap operations as functions; that Go's slices share a backing array is not captured. The in-place heap is `PendingEvaluations`.
- Dequeue: its blocking loop is not one method; its critical sections and its waiting are separate steps of the runs.
- Wake-up: the model shows that work is never stranded, not that a scheduler eventually runs the worker.
- Run: floating-point rounding and the overflow of the conversion to int64 are not modelled; numbers are reals and unbounded integers.
- Reason strings, reason history, log lines and error texts: errors are a flag or a count.
- Start, Reconcile: plugins are arbitrary replies; dispensing them and a strategy that returns no action object are not modelled.
- Reconcile: requires that no two checks share an action object, which is how evaluations are built at sdk/eval.go:33-49.
- ParsePolicy: requires a maximum, as the source does when it dereferences it; typed nil maps are not modelled.
- Manager: a handler's own timers, cooldown and reload channels, and a Stop that arrives before the handler runs.
- Scale-in after selection: draining, purging and remote ids are calls to other services.
- Query execution, metric aggregation, the file policy source, plugin processes, agent startup, configuration and telemetry.
