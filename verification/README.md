# Sentinel verification project

This project models the fraud pipeline of Sentinel in Dafny 4.11 and proves what its delivery protocol, velocity
store, rule engine, rolling state, case workflow and ruleset versions keep. `dafny verify dfyconfig.toml` checks it.
The C# program was not run.

## How it is put together

- **Delivery** (`Contracts`, `Outbox`, `Delivery`, `CaseLineage`, `PartitionHazard`, `LostAnnouncements`,
  `CaseCompetition`, `ConsumerHost`). State machines whose steps are single database calls, publishes and commits. Any
  worker may crash between any two steps, a record may be handed out again at any time, partitions may be reassigned,
  and any number of workers and dispatchers interleave. Theorems are about every run. `Workers`, `Dispatcher` and
  `PartitionConsumer` hold the handlers and loops as methods over mutable tables; every one of their table
  operations is proved to be a step of a machine.
- **Velocity** (`Money`, `Text`, `Models`, `VelocityStore`, `VelocityRefinement`, `ListRefinement`,
  `MoreTransactions`). The Redis store with its encoded members and pruning, the in-memory list, and the refinement
  between them.
- **Scoring** (`DecisionPolicy`, `Rules`, `Engine`, `RuleMeaning`, `Monotonicity`, `AmountMonotonicity`, `RuleOrder`).
  The thirteen rules, the sum, the cap, the bands, and laws that hold across all of them.
- **Rolling state** (`CustomerProfile`, `LatencyTracker`, `Stats`, `Sequences`). Bounded windows and lists as functions
  of the whole history.
- **Cases and rulesets** (`Cases`, `Rulesets`, `RulesetStore`).

## Hypotheses

- Agreement of stored and published decisions needs the events of a transaction to be handled serially. They are if
  they lie in one partition, which one account id guarantees, and a partition changes hands only between records
  (`Delivery.CalmIsSerial`). The map from account ids to partitions is arbitrary; the source creates six partitions.
  Neither half can be weakened: `PartitionHazard.AgreementIff` and `PartitionHazard.AgreementUnderRebalancingIff`.
- The order of publication needs rows to be committed no later than younger rows are taken;
  `Outbox.CommitKeepsOrderIffTimely` shows that this cannot be weakened either.
- The two velocity stores agree for whole-millisecond times, because one compares milliseconds and the other ticks.
- Velocity monotonicity needs a HIGH_VELOCITY score of at most 50, because doubling the limit replaces the score by
  `min(score + 10, 50)`. Familiarity needs a MERCHANT_RISK score of at least 5, because a usual category scores
  `max(5, score / 2)`.

## Where the code and its documentation differ

`docs/IDEMPOTENCY.md` says that a consumer that crashes after writing the decision is completed by the next delivery,
which sees the decision row. In the code the inbox claim is written first, is keyed by the event id alone
(`src/BuildingBlocks/Sentinel.Persistence/SentinelDbContext.cs:139`) and is never released, so the next delivery
returns at the claim. The model follows the code. Two promises fail for it, each with the input that shows it and the
exact condition under which it holds:

- A stored decision is announced: fails after `LostAnnouncements.CrashAfterSave`, and can be completed exactly as
  `LostAnnouncements.AnnouncementFinishesIff` says.
- A Review or Block decision gets its fraud case, as `docs/EVENT_FLOW.md` has it: fails after
  `CaseCompetition.ProfileGroupWins`, because the two groups on the decision topic compete for each event, and can come
  true exactly as `CaseCompetition.CaseOpensIff` says.

A third property that one might expect of the rules, that a larger amount is never judged more mildly, fails because
the round-amount rule stops firing; `AmountMonotonicity.AmountSafeIff` gives the condition.

## Model

| member | source | states |
|---|---|---|
| Outbox.PublicationOrder | src/RiskEngine/Sentinel.RiskEngine.Infrastructure/OutboxDispatcher.cs:27-58 | With any number of dispatchers, crashes anywhere, and publishes that fail or arrive late, and no row committed with an older `CreatedAt` than a row already taken: the marked rows stay a prefix of the `CreatedAt` order, every marked row is in the log, and a row first appears only after every older row |
| Outbox.SoundStep | src/RiskEngine/Sentinel.RiskEngine.Infrastructure/OutboxDispatcher.cs:33-48 | Without any hypothesis on timestamps: only existing rows are published, and a row is marked only if it is in the log |
| Outbox.CommitOrderIsTimely | src/BuildingBlocks/Sentinel.Persistence/Repositories.cs:62-74 | Rows committed in strict `CreatedAt` order never arrive late, so `PublicationOrder` applies to them |
| Outbox.CommitKeepsOrderIffTimely | src/BuildingBlocks/Sentinel.Persistence/Repositories.cs:62-87 | The hypothesis is exact: a commit keeps the order in every continuation by the dispatchers if and only if its `CreatedAt` is not older than that of any row already taken |
| Outbox.LateCommitBreaksOrder | src/BuildingBlocks/Sentinel.Persistence/Repositories.cs:76-87 | A late commit has a continuation, built step by step, in which the order is visibly broken |
| Outbox.TopicOrder | src/RiskEngine/Sentinel.RiskEngine.Infrastructure/OutboxDispatcher.cs:41-46 | The order of first appearances holds within each topic's own log |
| Contracts.TopicMeaning | src/RiskEngine/Sentinel.RiskEngine.Application/TransactionProcessingService.cs:125-162 | Each kind of event has a topic of its own |
| Outbox.BatchMeaning | src/BuildingBlocks/Sentinel.Persistence/Repositories.cs:76-87 | A batch holds at most fifty unpublished rows, ordered and from the oldest on, and fewer only if there are no more |
| Dispatcher.OutboxStore.DispatchOnce | src/RiskEngine/Sentinel.RiskEngine.Infrastructure/OutboxDispatcher.cs:31-55 | One turn of the loop: what is appended to the log and what is marked when everything succeeds, when a publish throws, and when the marking throws with or without taking effect; each of its effects is a step of the dispatcher machine |
| Dispatcher.OutboxStore.MarkPublished | src/BuildingBlocks/Sentinel.Persistence/Repositories.cs:89-96 | Exactly the listed rows become marked, whether or not they were |
| Dispatcher.StoreInOrder | src/RiskEngine/Sentinel.RiskEngine.Infrastructure/OutboxDispatcher.cs:27-58 | A store whose rows were enqueued in strict `CreatedAt` order is published and marked in that order |
| Delivery.EnteredAtMostOnce | src/BuildingBlocks/Sentinel.Persistence/Repositories.cs:17-41 | Over every interleaving of consumers, groups, retries, redeliveries and crashes, the body past `TryBeginAsync` is entered at most once per event id, and only by the group whose claim is stored, although check and insert are separate steps |
| Delivery.ClaimedStep | src/BuildingBlocks/Sentinel.Persistence/Repositories.cs:17-41 | Every step keeps: what a worker handles is an accepted event, and a claim has one holder |
| Delivery.OwnedStep | src/BuildingBlocks/Sentinel.Eventing/KafkaConsumerHost.cs:57-80 | Every step, except giving away a partition whose record is being handled, keeps: workers handle raw events only of partitions assigned to them |
| Delivery.Serial | src/RiskEngine/Sentinel.RiskEngine.Application/TransactionProcessingService.cs:62-165 | If the events of a transaction lie in one partition and workers handle only their own partitions, no two workers are inside the same transaction |
| Delivery.CalmIsSerial | src/RiskEngine/Sentinel.RiskEngine.Application/TransactionProcessingService.cs:62-165 | If the events of a transaction lie in one partition and no partition moves while one of its records is handled, then no run ever has two workers inside one transaction |
| Delivery.OneEventIsSerial | src/RiskEngine/Sentinel.RiskEngine.Application/TransactionProcessingService.cs:62-165 | Where no transaction has two events, the same holds wherever partitions move |
| Delivery.SaveStep | src/BuildingBlocks/Sentinel.Persistence/Repositories.cs:108-169 | A save by the only worker inside its transaction stores its verdict and keeps stored and announced decisions in agreement; what a lost race does instead is `PartitionHazard.LoserAnnounces` |
| Delivery.EnqueueStep | src/RiskEngine/Sentinel.RiskEngine.Application/TransactionProcessingService.cs:118-163 | Each enqueue adds exactly the next of the planned events validated, decision, alert of the stored decision, adds nothing about any other transaction, and keeps the agreement |
| Delivery.DecisionsAgree | src/RiskEngine/Sentinel.RiskEngine.Application/TransactionProcessingService.cs:62-165 | In every run that handles the events of a transaction serially: a stored decision never changes, and the outbox holds for it a prefix of validated, decision, alert, with the stored account, score, level and decision, the alert only for Review or Block; a transaction without a decision has no event |
| Delivery.PlanMeaning | src/RiskEngine/Sentinel.RiskEngine.Application/TransactionProcessingService.cs:118-163 | An approved transaction has two events planned, any other has the alert with its decision and score as well |
| PartitionHazard.AgreementIff | src/BuildingBlocks/Sentinel.Persistence/Repositories.cs:161-168 | The hypothesis is exact, for every assignment of keys to partitions: as long as partitions move only between records, all runs over a backlog keep agreement if and only if the accepted events of each transaction lie in one partition |
| PartitionHazard.AgreementUnderRebalancingIff | src/BuildingBlocks/Sentinel.Persistence/Repositories.cs:161-168 | Where a partition may move while its record is handled, all runs keep agreement if and only if no transaction has two accepted events: two events of one account are enough to break it |
| PartitionHazard.LoserAnnounces | src/RiskEngine/Sentinel.RiskEngine.Application/TransactionProcessingService.cs:116-140 | For any two events of one transaction, a run in which the loser of the swallowed race enqueues a decision event whose verdict contradicts the stored one; no partition moves under a record where the events lie in different partitions |
| LostAnnouncements.NothingMoreIsAnnounced | src/RiskEngine/Sentinel.RiskEngine.Application/TransactionProcessingService.cs:62-82 | Once the decision of a transaction is stored and nobody is deciding or announcing it, no run adds anything to what was announced of it, whatever partitions do and whatever else is produced |
| LostAnnouncements.AnnouncementFinishesIff | src/RiskEngine/Sentinel.RiskEngine.Application/TransactionProcessingService.cs:116-163 | A stored decision can still be announced in full if and only if it has been, or its handler is still between the save and the last enqueue; then that handler's own enqueues finish it |
| LostAnnouncements.CrashAfterSave | src/RiskEngine/Sentinel.RiskEngine.Application/TransactionProcessingService.cs:116-140 | For every accepted event and verdict, a run with one crash after which the decision is stored and no continuation ever announces it |
| CaseLineage.CasesHaveLineage | src/Workers/Sentinel.DecisionPublisher/DecisionFanoutConsumer.cs:38-79 | Every fraud case traces through the decision topic and an outbox row to the stored decision of its transaction, with its account, score and level; it has one opening row, its level is `LevelFor(score)` and its score is at least 30 |
| CaseLineage.PublishedIsStored | src/RiskEngine/Sentinel.RiskEngine.Application/TransactionProcessingService.cs:133-140 | A published decision event carries the stored account and verdict |
| CaseLineage.OneDecisionEvent | src/RiskEngine/Sentinel.RiskEngine.Application/TransactionProcessingService.cs:133-140 | A transaction has at most one published decision event |
| CaseLineage.ProfileClaimBlocksCase | src/Workers/Sentinel.ProfileProcessor/ProfileUpdateConsumer.cs:37-40 | Claims are per event, not per group: in a serial run in which the profile group has claimed the decision of a transaction, there is no case for it |
| CaseCompetition.CaseOpensIff | src/Workers/Sentinel.DecisionPublisher/DecisionFanoutConsumer.cs:42-79 | A published Review or Block decision has its case in some continuation if and only if the case exists, the event is unclaimed, or the publisher group has claimed it and is still on the way to the case |
| CaseCompetition.ProfileGroupWins | src/Workers/Sentinel.ProfileProcessor/ProfileUpdateConsumer.cs:37-40 | For every accepted event with a Review or Block verdict, a run without a crash in which the decision is stored and published, the profile group claims its event, and no continuation opens a case |
| CaseCompetition.LostForever | src/Workers/Sentinel.DecisionPublisher/DecisionFanoutConsumer.cs:42-79 | Once the event is claimed and nobody is on the way to its case, no run opens one |
| CaseLineage.EmptyIsFine | src/RiskEngine/Sentinel.RiskEngine.Application/TransactionProcessingService.cs:62-165 | The empty system meets every invariant that the run theorems start from |
| Workers.Database.ProcessAsync | src/RiskEngine/Sentinel.RiskEngine.Application/TransactionProcessingService.cs:49-192 | The four ends of a call (duplicate, replay, thrown, processed) decided by the message, the tables and the write that throws, and the exact inbox, decision and outbox rows after each, down to a throw between any two of the save, the enqueues and the completion; a processed call appends validated, decision and, for everything but an approval, one alert; every table operation is a step of the delivery machine |
| Workers.Database.TryBegin | src/BuildingBlocks/Sentinel.Persistence/Repositories.cs:17-41 | The claim succeeds exactly when the event id has no inbox row, whatever the consumer, and then leaves one uncompleted row |
| Workers.Database.Save | src/BuildingBlocks/Sentinel.Persistence/Repositories.cs:108-169 | A stored decision is never replaced; the handler goes on with its own verdict either way |
| Workers.Database.HandleDecision | src/Workers/Sentinel.DecisionPublisher/DecisionFanoutConsumer.cs:38-93 | A Review and a Block each get their case and opening row if the event is first seen, the transaction has no case and the save takes effect, an Approve never; a throw of the save, of a live notification or of the completion leaves the claim uncompleted unless the completion took effect |
| Workers.Database.HandleProfile | src/Workers/Sentinel.ProfileProcessor/ProfileUpdateConsumer.cs:33-73 | A rejected transaction is found only after the claim, which then stays, and so it does where the profile update or a write throws; a profile event is enqueued exactly where validation and update succeed and the enqueue takes effect |
| Workers.TablesAgree | src/RiskEngine/Sentinel.RiskEngine.Application/TransactionProcessingService.cs:62-165 | While the events of a transaction lie in one partition and partitions move only between records, the tables the handlers leave agree with what they announced, no event was handled twice, and every case descends from a stored decision |
| ConsumerHost.ProcessWithRetry | src/BuildingBlocks/Sentinel.Eventing/KafkaConsumerHost.cs:88-126 | At most `max(1, MaxAttempts)` calls are made, all but the last end in a transient failure, the record is finished exactly after a normal return, dead-lettered after poison or after the last transient failure, and left after a cancellation; `k` calls waited `delay*(2^(k-1)-1)` in all |
| ConsumerHost.CommitsAreHonest | src/BuildingBlocks/Sentinel.Eventing/KafkaConsumerHost.cs:57-80 | In every run with crashes, throwing commits and failing dead-letter publishes, each record below the committed offset had no value, has a handler call that returned normally, or has a dead letter; and each dead letter reports a call that ended in poison, or in a transient failure with all attempts made |
| PartitionConsumer.Partition.ExecuteAsync | src/BuildingBlocks/Sentinel.Eventing/KafkaConsumerHost.cs:57-80 | The loop over one partition, whatever the handlers, publishes and commits do: what is newly taken for handled has a call that returned normally, a committed record with a value but no such call has a letter, a letter reports how its last call ended, and everything there was is settled when the end is reached |
| VelocityStore.RedisVelocityStore.RecordAndSnapshot | src/RiskEngine/Sentinel.RiskEngine.Infrastructure/RedisVelocityStore.cs:14-82 | The four sorted sets gain their members and lose what is 36 hours old, the failures are not cut, and the reply counts and names the members of the windows of 1, 5, 10, 15, 30 and 60 minutes and one day; an amount outside `long` changes nothing |
| VelocityStore.InMemoryVelocityStore.RecordAndSnapshot | src/RiskEngine/Sentinel.RiskEngine.Infrastructure/RedisVelocityStore.cs:127-163 | The point is appended to its account's list, and the reply counts the points and failures, names the merchants and countries ignoring case, and sums the payments of the windows of 1, 5, 10, 15, 30 and 60 minutes and one day |
| VelocityStore.SnapshotMeaning | src/RiskEngine/Sentinel.RiskEngine.Infrastructure/RedisVelocityStore.cs:148-173 | The nine fields by positions in the list and windows in ticks, and that there is a snapshot whenever the amounts are proper and the currency is not blank |
| VelocityStore.SpendAsync | src/RiskEngine/Sentinel.RiskEngine.Infrastructure/RedisVelocityStore.cs:87-102 | The loop, in any order of the members, returns the wrapped sum of all parsed amounts in the window |
| VelocityStore.DistinctSuffixAsync | src/RiskEngine/Sentinel.RiskEngine.Infrastructure/RedisVelocityStore.cs:104-119 | The loop counts the distinct names after the first colon, ignoring case |
| VelocityStore.SpendMemberDecodes | src/RiskEngine/Sentinel.RiskEngine.Infrastructure/RedisVelocityStore.cs:22-98 | For every transaction id, colons included, the number parsed after the last colon is the amount that was written |
| VelocityStore.SpendMemberInjective | src/RiskEngine/Sentinel.RiskEngine.Infrastructure/RedisVelocityStore.cs:22 | Distinct (id, amount) pairs give distinct members |
| VelocityStore.MsMeaning | src/RiskEngine/Sentinel.RiskEngine.Infrastructure/RedisVelocityStore.cs:20 | Milliseconds count from the ticks of 1970, rounded down |
| Text.PrintsDecimal | src/RiskEngine/Sentinel.RiskEngine.Infrastructure/RedisVelocityStore.cs:22 | Numbers in members are decimal, the most significant digit first |
| Text.FoldIsUpper | src/BuildingBlocks/Sentinel.SharedKernel/Money.cs:20 | Folding puts the letters a to z in capitals and changes nothing else |
| Text.FoldMeaning | src/RiskEngine/Sentinel.RiskEngine.Infrastructure/RedisVelocityStore.cs:173 | Comparing folded texts is comparing them without regard to the case of the letters |
| VelocityRefinement.PruningInvisible | src/RiskEngine/Sentinel.RiskEngine.Infrastructure/RedisVelocityStore.cs:49-65 | If every recorded time is less than 12 hours behind the latest one seen, every snapshot equals that of a store that never prunes, even when members are added again with new scores |
| VelocityRefinement.PruningInvisibleIff | src/RiskEngine/Sentinel.RiskEngine.Infrastructure/RedisVelocityStore.cs:49-65 | Twelve hours is the exact bound: beyond it there is a history on which the snapshots differ |
| ListRefinement.StoresAgree | src/RiskEngine/Sentinel.RiskEngine.Infrastructure/RedisVelocityStore.cs:14-173 | After any history with distinct ids, whole-millisecond times that do not step back and sums within `long`, the Redis snapshot and the list snapshot agree in all nine fields |
| ListRefinement.RedisSummarises | src/RiskEngine/Sentinel.RiskEngine.Infrastructure/RedisVelocityStore.cs:57-82 | After any regular history the Redis reply counts, names and sums what lies in the windows of the history itself |
| ListRefinement.RunsAgree | src/RiskEngine/Sentinel.RiskEngine.Infrastructure/RedisVelocityStore.cs:14-163 | On any run over many accounts that is regular per account, every reply of the Redis store is the reply of the in-memory store |
| ListRefinement.ReplayBoth | src/RiskEngine/Sentinel.RiskEngine.Infrastructure/RedisVelocityStore.cs:14-163 | The two stores driven side by side give the same replies and stay coupled |
| ListRefinement.SpendIsSum | src/RiskEngine/Sentinel.RiskEngine.Infrastructure/RedisVelocityStore.cs:168-170 | Aggregating with `Money` addition gives the sum of the minor units |
| MoreTransactions.ExtraTransactionNeverSoftens | src/RiskEngine/Sentinel.RiskEngine.Infrastructure/RedisVelocityStore.cs:165-173 | In the in-memory store: recording one more transaction anywhere in the history raises the counters the rules read, and so never lowers the score or softens the decision of the thirteen rules, provided the HIGH_VELOCITY score is at most 50 and the model's points cannot push the unchecked sum over 32 bits |
| MoreTransactions.ExtraTransactionNeverSoftensRedis | src/RiskEngine/Sentinel.RiskEngine.Infrastructure/RedisVelocityStore.cs:84-119 | The same for the replies of the Redis store, on regular histories |
| MoreTransactions.WindowsGrow | src/RiskEngine/Sentinel.RiskEngine.Infrastructure/RedisVelocityStore.cs:165-173 | One more point never lowers a count, a set of names or the failures of any window |
| Money.MinorUnitsRoundTrip | src/BuildingBlocks/Sentinel.SharedKernel/Money.cs:29-32 | Minor units rebuild every valid amount in its currency |
| Money.FromMinorUnitsRoundTrip | src/BuildingBlocks/Sentinel.SharedKernel/Money.cs:29-32 | Every non-negative `long` is the minor units of the money made from it |
| Money.AddAddsMinorUnits | src/BuildingBlocks/Sentinel.SharedKernel/Money.cs:34-38 | `Add` of two valid amounts of one currency succeeds, is valid, and adds their minor units |
| Money.MakeIsValid | src/BuildingBlocks/Sentinel.SharedKernel/Money.cs:11-21 | The constructor throws exactly on a blank currency or a negative amount, and otherwise yields a value that rounding and normalising leave alone |
| Money.MakeMeaning | src/BuildingBlocks/Sentinel.SharedKernel/Money.cs:11-21 | An accepted amount moves to the nearest cent, half a cent upwards, and the currency is trimmed and put in capitals |
| Money.AddMeaning | src/BuildingBlocks/Sentinel.SharedKernel/Money.cs:34-38 | Proper amounts add exactly, and only in one currency |
| Money.MinorUnitsMeaning | src/BuildingBlocks/Sentinel.SharedKernel/Money.cs:29 | The minor units are the cents, as far as a `long` reaches |
| Engine.EvaluateAsync | src/RiskEngine/Sentinel.RiskEngine.Domain/Scoring/RiskEngine.cs:23-85 | The loops compute the raw sum, the verdict and the merged evidence of the specification, and fail exactly where a rule throws or the checked sum overflows |
| Engine.VerdictMeaning | src/RiskEngine/Sentinel.RiskEngine.Domain/Scoring/DecisionPolicy.cs:10-43 | Low, Medium, High and Critical are exactly the scores to 29, to 59, to 79 and from 80; Block is exactly from 80; Review exactly from 60 to 79, or from 30 to 59 with a triggered IMPOSSIBLE_TRAVEL, REPEATED_DECLINE or HIGH_VELOCITY |
| Engine.ScoreMeaning | src/RiskEngine/Sentinel.RiskEngine.Domain/Scoring/RiskEngine.cs:87-100 | The score is the raw score plus the model's points, cut to 100; below a confidence of 0.6 there are none, else 0.15 for each of the model's, to the nearest even, at most fifteen |
| Engine.OneMoreRule | src/RiskEngine/Sentinel.RiskEngine.Domain/Scoring/RiskEngine.cs:30-47 | One more rule is asked exactly if the ruleset does not disable it, and then its finding is appended and its score added |
| Engine.VerdictsAreConsistent | src/RiskEngine/Sentinel.RiskEngine.Domain/Scoring/DecisionPolicy.cs:10-43 | Every verdict meets the hypothesis of the delivery machine: a score in 0..100, the level of that score, Block exactly from 80, and Review or Block only from 30 |
| Engine.EngineMonotone | src/RiskEngine/Sentinel.RiskEngine.Domain/Scoring/RiskEngine.cs:30-52 | If no rule's finding weakens, neither the score nor the decision does, provided the model's points cannot push the unchecked sum over 32 bits |
| Monotonicity.VelocityNeverSoftens | src/RiskEngine/Sentinel.RiskEngine.Domain/Rules/DeterministicRules.cs:41-56 | Raising any velocity counters never lowers the score or the decision across all thirteen rules, provided the HIGH_VELOCITY score is at most 50 and the model's points cannot push the unchecked sum over 32 bits (the no-op model never does) |
| Monotonicity.VelocitySafeIff | src/RiskEngine/Sentinel.RiskEngine.Domain/Rules/DeterministicRules.cs:52-56 | Fifty is the exact bound on that score |
| Monotonicity.FamiliarityNeverHardens | src/RiskEngine/Sentinel.RiskEngine.Domain/Rules/DeterministicRules.cs:80-86 | Growing common countries, known or common devices, common categories or a non-empty set of typical hours never raises the score or the decision, provided the MERCHANT_RISK score is at least 5 and the model's points cannot push the unchecked sum over 32 bits |
| Monotonicity.FamiliaritySafeIff | src/RiskEngine/Sentinel.RiskEngine.Domain/Rules/DeterministicRules.cs:254-256 | Five is the exact bound on that score |
| AmountMonotonicity.AmountSafeIff | src/RiskEngine/Sentinel.RiskEngine.Domain/Rules/DeterministicRules.cs:416-441 | Raising the amount never lowers the score or the decision, in every context, exactly when the ROUND_AMOUNT score of the enabled rule is at most 0 |
| AmountMonotonicity.RoundAmountMatters | src/RiskEngine/Sentinel.RiskEngine.Domain/Rules/DeterministicRules.cs:424-436 | With any positive score, 1000.00 is judged more harshly than 1001.00 where only that rule is configured |
| RuleOrder.OrderIndependent | src/RiskEngine/Sentinel.RiskEngine.Domain/Scoring/RiskEngine.cs:30-68 | Raw score, verdict and merged evidence are the same for every permutation of rules with distinct dot-free codes |
| RuleOrder.EvidenceIsUnion | src/RiskEngine/Sentinel.RiskEngine.Domain/Scoring/RiskEngine.cs:55-62 | The merged map is exactly the union of what the rules report: nothing is lost, added or overwritten |
| RuleOrder.EvidenceComplete | src/RiskEngine/Sentinel.RiskEngine.Domain/Scoring/RiskEngine.cs:55-68 | The model's two entries overwrite no rule's evidence, and every finding survives with its own value |
| RuleOrder.EvidenceKeys | src/RiskEngine/Sentinel.RiskEngine.Domain/Scoring/RiskEngine.cs:55-68 | Every finding stands under the code of its rule, a dot and its own key, the model under `model.score` and `model.confidence` |
| RuleOrder.DisabledIsAbsent | src/RiskEngine/Sentinel.RiskEngine.Domain/Scoring/RiskEngine.cs:33-37 | A disabled rule gives the same evaluation as a rule that is not registered |
| RuleOrder.CatalogueWellCoded | src/RiskEngine/Sentinel.RiskEngine.Domain/Rules/RuleContracts.cs:71-102 | The thirteen rules meet the hypotheses of these laws when the UNKNOWN_DEVICE parameter set carries its own code |
| RuleMeaning.CatalogueIs | src/RiskEngine/Sentinel.RiskEngine.Domain/Rules/RuleContracts.cs:71-102 | The thirteen registered codes in order |
| RuleMeaning.HighValueMeaning | src/RiskEngine/Sentinel.RiskEngine.Domain/Rules/DeterministicRules.cs:12-31 | Fires from the threshold, by default 3000; from twice the threshold with one and a half times the score, a half rounded up |
| RuleMeaning.HighVelocityMeaning | src/RiskEngine/Sentinel.RiskEngine.Domain/Rules/DeterministicRules.cs:41-66 | Fires from five in five minutes or three in one by default; at a doubled limit with ten points more but at most fifty |
| RuleMeaning.ForeignCountryMeaning | src/RiskEngine/Sentinel.RiskEngine.Domain/Rules/DeterministicRules.cs:76-96 | Quiet exactly at home or in a common country, ignoring case |
| RuleMeaning.UnknownDeviceMeaning | src/RiskEngine/Sentinel.RiskEngine.Domain/Rules/DeterministicRules.cs:106-134 | Quiet exactly for a device that is known or common, ignoring case; a missing identifier fires |
| RuleMeaning.CardNotPresentMeaning | src/RiskEngine/Sentinel.RiskEngine.Domain/Rules/DeterministicRules.cs:144-170 | Fires exactly without the card at a terminal, cash machine, on the web or by mobile |
| RuleMeaning.PreviousMeaning | src/RiskEngine/Sentinel.RiskEngine.Domain/Rules/DeterministicRules.cs:186-189 | The previous place is that of the latest transaction at a terminal or cash machine, the first listed among equals |
| RuleMeaning.ImpossibleTravelMeaning | src/RiskEngine/Sentinel.RiskEngine.Domain/Rules/DeterministicRules.cs:180-230 | Fires exactly where the distance exceeds the limit times the gap, no gap counting as a minute |
| RuleMeaning.MerchantRiskMeaning | src/RiskEngine/Sentinel.RiskEngine.Domain/Rules/DeterministicRules.cs:248-265 | Fires exactly for four categories; a usual one with half the score, cut toward zero, but at least five |
| RuleMeaning.UnusualTimeMeaning | src/RiskEngine/Sentinel.RiskEngine.Domain/Rules/DeterministicRules.cs:275-304 | Quiet exactly within an hour, around the clock, of a typical hour; without typical hours it fires from one to four |
| RuleMeaning.NewAccountMeaning | src/RiskEngine/Sentinel.RiskEngine.Domain/Rules/DeterministicRules.cs:314-329 | Fires exactly before the account is as many days old, by default fourteen |
| RuleMeaning.BehaviourDeviationMeaning | src/RiskEngine/Sentinel.RiskEngine.Domain/Rules/DeterministicRules.cs:339-365 | Fires from the fifth transaction on, at a multiple, by default eight, of the median or else of the average |
| RuleMeaning.CountRulesMeaning | src/RiskEngine/Sentinel.RiskEngine.Domain/Rules/DeterministicRules.cs:375-413 | Country changes fire from two and declines from three by default |
| RuleMeaning.RoundAmountMeaning | src/RiskEngine/Sentinel.RiskEngine.Domain/Rules/DeterministicRules.cs:422-440 | Fires exactly for whole hundreds from the minimum on, by default 1000 |
| CustomerProfile.TruncateOnce | src/BuildingBlocks/Sentinel.Persistence/Repositories.cs:443-449 | Truncating to eight at every touch equals truncating once at the end |
| CustomerProfile.EightMostRecent | src/BuildingBlocks/Sentinel.Persistence/Repositories.cs:443-449 | The list is the newest spellings of the eight most recent distinct names, ignoring case, newest first, and all of them where there are fewer |
| CustomerProfile.ProfileRow.ApplyTransaction | src/BuildingBlocks/Sentinel.Persistence/Repositories.cs:385-410 | After any history the amounts are its last 100, the hours its last 48 and the three lists the touched names; the average times their number is the sum of the amounts kept, and at most half of them lie below the median and more than half at or below it |
| CustomerProfile.HourMeaning | src/BuildingBlocks/Sentinel.Persistence/Repositories.cs:408-410 | The hour kept is the hour of the day |
| CustomerProfile.MedianMeaning | src/BuildingBlocks/Sentinel.Persistence/Repositories.cs:391-394 | At most half of the kept amounts lie below the median and more than half at or below it, and no other value does so in any order of arrival |
| CustomerProfile.DeviceTable.See | src/BuildingBlocks/Sentinel.Persistence/Repositories.cs:412-437 | A row exists for exactly the sighted devices; its count, first and last sighting are those of the history, and it is trusted exactly from the fifth sighting on |
| CustomerProfile.CategoryColumnFails | src/BuildingBlocks/Sentinel.Persistence/Repositories.cs:399-400 | Starting from an empty column, updating the category column succeeds exactly for histories of at most one transaction, because it is written as numbers and read as names |
| LatencyTracker.LatencyTracker.Record | src/BuildingBlocks/Sentinel.SharedKernel/SentinelMetrics.cs:51-62 | The ring always holds the last `capacity` samples of the whole history; without capacity nothing can be recorded |
| LatencyTracker.LatencyTracker.Snapshot | src/BuildingBlocks/Sentinel.SharedKernel/SentinelMetrics.cs:64-89 | Of the last min(n, capacity) samples, fewer than 50, 95 and 99 hundredths lie below the three percentiles and at least as many at or below them, and the average is their mean |
| LatencyTracker.SnapshotMeaning | src/BuildingBlocks/Sentinel.SharedKernel/SentinelMetrics.cs:76-89 | Each of the three percentiles is unique, P50 <= P95 <= P99, and mean and percentiles lie between the smallest and the largest sample |
| Cases.CaseWorkflow | src/CaseManagement/Sentinel.Cases.Api/Program.cs:169-217 | In every run: history rows chain from one opening row, the status is the last target, the analyst decision is that of the last ConfirmedFraud or FalsePositive row, a transaction has one case, and open cases minus gauge is exactly the number of reopenings and repeated confirmations plus the gauge updates lost to crashes and failed saves |
| Cases.GaugeExactIff | src/CaseManagement/Sentinel.Cases.Api/Program.cs:191-203 | With no lost update the gauge is right if and only if no settled case was reopened or confirmed again |
| Cases.CaseBook.Transition | src/CaseManagement/Sentinel.Cases.Api/Program.cs:169-217 | The new status, analyst, decision, history row and gauge of a move from any status to any status; an unknown case changes nothing; a failed save still keeps the gauge change |
| Cases.CaseBook.Open | src/Workers/Sentinel.DecisionPublisher/DecisionFanoutConsumer.cs:47-79 | A Review or Block of a transaction without a case gets a case, its opening row and the increment, anything else nothing |
| Rulesets.ScoringUsesWholeVersions | src/BuildingBlocks/Sentinel.Persistence/Repositories.cs:220-253 | In every interleaving of activations and scorings, what a scorer holds maps the code of every row of one version, enabled or not, to that row and holds nothing else; every stored decision is what the engine says under the rows now stored for its version; and some version is active |
| Rulesets.ServedParameters | src/RiskEngine/Sentinel.RiskEngine.Domain/Rules/RuleContracts.cs:65-68 | Under such a ruleset a rule is asked with its row, flag included, and a code without a row is enabled with score 0 |
| Rulesets.RulesNeverChange | src/Administration/Sentinel.Admin.Api/Program.cs:46-92 | Whatever happens afterwards, the rows that are there stay, and no later row belongs to an existing version |
| Rulesets.OneActiveIff | src/Administration/Sentinel.Admin.Api/Program.cs:52-64 | An activation leaves exactly one active version if and only if it had read every flag that is set when it commits |
| Rulesets.SerialKeepsOneActive | src/Administration/Sentinel.Admin.Api/Program.cs:46-92 | With serial activations exactly one version is active throughout |
| Rulesets.OverlapLeavesTwo | src/Administration/Sentinel.Admin.Api/Program.cs:52-64 | From any tables with one active version, two overlapping activations leave two |
| RulesetStore.RulesetDb.Activate | src/Administration/Sentinel.Admin.Api/Program.cs:46-92 | The loops and the save: a duplicate version or rule code changes nothing, otherwise the new version alone is active, the others keep their creation time, and one row for each requested rule is appended |
| RulesetStore.RuleConfigurationProvider.GetActive | src/BuildingBlocks/Sentinel.Persistence/Repositories.cs:220-253 | The answer maps the code of every row of one version to that row and holds nothing else; it comes from the cache only while that is younger than fifteen seconds, and otherwise is the newest active version; it throws exactly when nothing is cached and no version is active |

## Left out

- JSON text, Entity Framework tracking, SQL, and the Kafka and Redis client libraries: tables, logs and sorted sets with their unique keys stand for them.
- Redis key expiry by wall clock, and concurrent recordings for one account.
- The methods of `Workers`, `Dispatcher` and `PartitionConsumer` show one call without other workers' table writes in between; interleavings are covered by the machines.
- Workers.Database.ProcessAsync: takes the engine's verdict as an argument; reading the profile and recording the velocity write none of the tables of this machine and are modelled in `CustomerProfile` and `VelocityStore`.
- Cases.CaseWorkflow: moves of one case are serial, because the row has no concurrency token; the web page that moves cases without the gauge is not part of this model.
- CustomerProfile.ProfileRow.ApplyTransaction: omits the category column, because the source throws on an account's second update of it (`CustomerProfile.CategoryColumnFails`); amounts are integers in minor units.
- Velocity counters and collection sizes beyond 32 bits, and the order in which Redis returns the members of a range.
- `decimal` precision limits and overflow: amounts are reals, rounded where the source rounds.
- LatencyTracker.LatencyTracker.Snapshot: percentiles use exact fractions where the source multiplies doubles.
- Text outside ASCII: case folding, trimming and digits are the ASCII ones.
- The haversine formula and the city table, which are parameters of the rules, and the trained model, which is a pair of score and confidence.
- Rounding, formatting and reason strings in rule evidence, where a value stands for its text.
- Cancellation during a retry wait, which the machine shows as a crash.
- The content of live notifications, feedback events, analyst notes, telemetry other than the gauge, and logging.
- Authentication, pages, seeding, migrations, the traffic generator, pagination and queries.
