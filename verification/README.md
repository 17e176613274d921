# Lumbra, verified

Lumbra is a personal-assistant engine. Under its asynchronous shell sit small
deterministic components on which the rest relies: who may run what, in which order, how
often, and at whose expense. This project models those components in Dafny and proves what
they promise. `dafny verify dfyconfig.toml` checks everything.

| component | files | main results |
|---|---|---|
| partitioned dispatcher | Partitioning | refines one FIFO per key; counters; `join` |
| event envelope | Events | causal copies keep id and route |
| in-memory event bus | InMemoryBus, BusLedger, BusOrder, BusSafety, BusDrain, BusObject | at most once, every event accounted for, order by partition, draining |
| Redis Streams event bus | RedisBus, RedisRuns, RedisSafety, RedisOrder, RedisExact, RedisDelivery, RedisLimit, RedisReclaim, RedisPasses | what is acknowledged was handled or dead-lettered; handlers are not repeated; exactly which steps break this; limited retry; who is delivered again |
| cancellation tokens | Cancellation | exactly the subtree, first reason wins |
| scopes | Scopes | matching decides language inclusion |
| fair retrieval | Diversify, Fusion | max-min fairness, rank dominance |
| documents | Text, Packing, Structural, Sections, Markdown, MarkdownContent | nothing lost, sections right, one segmentation |
| ingestion pipeline | Pipeline | resuming equals one run |
| approvals | Approval | nothing risky runs without its own approval, and a no is final |
| agents | Delegation, Orchestration | budgets, narrowing, bounded delegation trees |
| execution tree | Executions | descendants exactly once, rollups are sums |

How concurrency is modelled: an `await` is a place where anything else may happen. The
dispatcher and both buses are step relations over explicit states, theorems quantify over
every schedule, and whether a handler returns or raises is part of the schedule. Components
that are updated in place are classes whose methods compute, on their fields, the same
functions that the theorems are about.

The two buses keep a handler from being repeated in different ways. The in-memory bus tests
an event id, awaits the handler, and only then remembers the id. That is sound because one
key is served by one worker at a time, so its theorem rests on the dispatcher theorem and
holds exactly when events with the same id have routing keys that reach the same worker
(`IdsShareWorker`). On the Redis bus `SET NX` is the lock, and handlers are not repeated
whatever the routing. There the routing matters for not losing messages: a second delivery
that finds the key of a running handler is acknowledged at once, and this is harmless
exactly when `IdsShareWorker` holds.

Outside calls are parameters: the hash of a key, the regular expressions of the Markdown
parser, the paragraph splitter of the structural chunker, the pipeline stages, the skills'
payload models, what an agent's handler does, and the clock of a budget. Any total function
is allowed for each, except that a clock runs forward and handlers book no negative charges.

Where code and documentation differ, the model follows the code:

- `DelegationPolicy` says that an empty `to_capabilities` allows no target
  (core/src/lumbra/ports/agents.py:53); the code restricts nothing then
  (core/src/lumbra/kernel/orchestrator.py:239).
- The sandbox is described as having a budget in money too
  (core/src/lumbra/kernel/sandbox.py:9), but `check` never looks at the cost
  (core/src/lumbra/kernel/sandbox.py:96-102): `CostIsNotLimited`.
- Depth is bounded by each agent's own `max_depth`, not by the root's
  (core/src/lumbra/kernel/sandbox.py:172-178): `RootBoundsTreeExactly`.
- A cancelled worker gives its running item back twice
  (core/src/lumbra/shared/partitioning.py:161-165 and 175-179): `AccountsForAllWork` and
  `CancelHidesOneItem` say what that costs, and the bus theorems have no cancelled workers.
- A retry waits for room in the queue of the very worker that is retrying
  (core/src/lumbra/adapters/eventbus/in_memory.py:143-151): `DrainCanHangExactly`.
- The Redis bus sets its dedup key before the handler runs and trusts it afterwards
  (core/src/lumbra/adapters/eventbus/redis_streams.py:281-303). A crash or a failing command
  that leaves the key of an unhandled event behind loses messages, and nothing else that is
  cut short does (`CutShortExactly`). A redrive that clears the key of a running handler
  makes it run again (`RacesExactly`).
- An envelope that does not decode ends the whole pass over pending messages
  (core/src/lumbra/adapters/eventbus/redis_streams.py:305-341), and it is never acknowledged.
  `StarvesExactly` says when the messages behind it are delivered again, and
  `BackoffStarves` that the loop's own backoff can prevent it for good; with the default
  settings eight such envelopes do (`DefaultsStarveBehindEight`; with seven it depends on
  how long the loop waits for new messages).
- Retry is limited only as long as no handler outlasts the idle period: a message that is
  claimed again meanwhile can be handled and dead-lettered once more than the limit
  (core/src/lumbra/adapters/eventbus/redis_streams.py:315-319 promises otherwise):
  `AtMostTheLimit`, `CalledTooOften`.
- The database approval store looks twice, and a ticket created in between is reported as
  decided although it is pending (core/src/lumbra/adapters/approvals/postgres.py:86-111):
  `DatabaseResolvesExactly`.
- `_diversify` returns nothing when `por_documento` exceeds `limite`
  (core/src/lumbra/context/providers.py:51-52).
- The index stage shows the state INDEXED while it is still running
  (core/src/lumbra/pipeline/stages/index.py:19-20), so whether a document was indexed is
  taken from what `process` returns; the stored state is named by the running stage.
- A scope segment may end in a star without a dot before it; against such scopes the matcher
  is not language inclusion: `DecidesInclusionExactly`. The pattern's `$` also accepts one
  trailing newline (core/src/lumbra/domain/scopes.py:33), which the model does too.
- Children are looked up among the recent executions only
  (core/src/lumbra/kernel/executions.py:283-284), a ring of 200 by default. What it has
  forgotten is missing from `tree`, not added up by `rollup`, and not stopped by
  `cancel_tree`: `WalkIsTheDescendants`, `RingForgetsAChild`.
- `cancel_tree` accepts ids it does not know, and then cancels the executions started on
  their behalf (core/src/lumbra/kernel/executions.py:321-335).

## Model

| member | source | states |
|---|---|---|
| `Partitioning.RefinesKeyFifos` | core/src/lumbra/shared/partitioning.py:110-179 | in every state any schedule can reach, every step of the worker pool is, for each key, one step of that key's own FIFO queue with a single server, or no step of it; for any number of workers, queue bound and hash |
| `Partitioning.OrderPerKey` | core/src/lumbra/shared/partitioning.py:110-179 | for every schedule the items of a key start in the order in which they entered, none skipped, and two workers never run items of one key at the same time |
| `Partitioning.AccountsForAllWork` | core/src/lumbra/shared/partitioning.py:126-128 | submitted = queued + in flight + processed + failed after every schedule if and only if no worker was cancelled while running an item |
| `Partitioning.CountersTellOutcomes` | core/src/lumbra/shared/partitioning.py:155-179 | after every schedule each worker's counters are the numbers of its returns and of its raises, and the reprocess counter that of the reprocessed submissions |
| `Partitioning.JoinCoversEarlierWork` | core/src/lumbra/shared/partitioning.py:130-133 | `join` waits for each queue at a moment of its own while new work comes in: when it returns, all work that entered before it was called has been run, each key's in its order |
| `Partitioning.JoinMeansDone` | core/src/lumbra/shared/partitioning.py:130-133 | when no queue has unfinished work at one moment and no worker is gone, everything accepted has been run, each key's items in their order |
| `Partitioning.CancelHidesOneItem` | core/src/lumbra/shared/partitioning.py:155-179 | the cancelled path of the loop marks its item done twice; `join` then overlooks queued work exactly when one item is queued behind |
| `Partitioning.KeysShareWorkerExactly` | core/src/lumbra/shared/partitioning.py:110-112 | two keys go to one worker iff their hashes differ by a multiple of the number of workers; the worker is the remainder |
| `Partitioning.ReachableInv` | core/src/lumbra/shared/partitioning.py:110-179 | every schedule keeps the routing of queued and running items, FIFO order for each key, the counters and the join counter of each queue |
| `Partitioning.PartitionedDispatcher.constructor` | core/src/lumbra/shared/partitioning.py:82-105 | a new dispatcher has empty queues, idle workers and zero counters |
| `Partitioning.PartitionedDispatcher.BeginSubmit` | core/src/lumbra/shared/partitioning.py:122-126 | counts a reprocessed submission before the wait for room |
| `Partitioning.PartitionedDispatcher.Enqueue` | core/src/lumbra/shared/partitioning.py:127-128 | puts the work at the tail of the queue its key hashes to, and nowhere else |
| `Partitioning.PartitionedDispatcher.Get` | core/src/lumbra/shared/partitioning.py:149-154 | an idle worker takes the head of its own queue and counts it in flight |
| `Partitioning.PartitionedDispatcher.Finish` | core/src/lumbra/shared/partitioning.py:155-179 | the worker becomes idle, and the item is counted as processed, or as failed when it raised |
| `Partitioning.PartitionedDispatcher.CancelWorker` | core/src/lumbra/shared/partitioning.py:161-179 | the worker is gone, and its running item is given back twice |
| `Events.FollowsKeepsIdsShareWorker` | core/src/lumbra/domain/events.py:122-134 | adding causal copies of known events never makes one id reach two workers: `follows` keeps the id and the route |
| `Events.RouteIsPartition` | core/src/lumbra/domain/events.py:122-128 | an event with a non-empty partition key is routed by that key, and one without by its own id |
| `Events.ChainsAreCorrelated` | core/src/lumbra/domain/events.py:130-134 | a whole causal chain carries the first correlation id, each envelope names the one before as its cause, and nothing else changes |
| `Events.SettledAppend` | core/src/lumbra/adapters/eventbus/in_memory.py:131-187 | an id is settled after a log entry iff the entry is its success, or it was settled and the entry is not its redrive |
| `Events.HandledOnceAppend` | core/src/lumbra/adapters/eventbus/in_memory.py:131-187 | a log stays free of repeated handling when a call or success is added for an id that is not settled |
| `InMemoryBus.Conservation` | core/src/lumbra/adapters/eventbus/in_memory.py:118-187 | after every schedule: copies published or redriven = outstanding + succeeded + skipped as duplicates + dead-lettered; each single copy, its retries included, got at most max_attempts handler calls; every dead letter used up exactly max_attempts |
| `InMemoryBus.DrainTerminates` | core/src/lumbra/adapters/eventbus/in_memory.py:91-93 | without new publishes or redrives every schedule is finite: it has at most as many steps as the measure that adds up the handler calls each copy has left |
| `InMemoryBus.StepCost` | core/src/lumbra/adapters/eventbus/in_memory.py:123-169 | every step, for every copy by its origin: a handler call is paid from the calls that very copy has left, and only a publish or redrive brings new ones; and every other step lowers the measure |
| `InMemoryBus.PoolInvKept` | core/src/lumbra/adapters/eventbus/in_memory.py:118-187 | publishing, admitting, running, retrying and redriving keep the invariant of the dispatcher underneath |
| `InMemoryBus.LaneInvKept` | core/src/lumbra/adapters/eventbus/in_memory.py:118-187 | every step keeps the dispatcher invariant, attempts between 1 and max_attempts, routing by the event's key, and the accounts |
| `BusLedger.EveryEventIsAccountedFor` | core/src/lumbra/adapters/eventbus/in_memory.py:118-187 | after every schedule, for each single event: copies published + redriven = copies in the lane + handled + skipped + failed for good, and its letters in the list = failures for good - redrives |
| `BusLedger.StepAccounted` | core/src/lumbra/adapters/eventbus/in_memory.py:123-187 | each step keeps that account, event by event |
| `BusOrder.PartitionsAreInOrder` | core/src/lumbra/adapters/eventbus/in_memory.py:123-129 | for every schedule and partition key: the events that carry it begin in the order in which they entered, none left out, never two with different workers; an event without one is with the worker of its own id |
| `BusSafety.AtMostOnceExactly` | core/src/lumbra/adapters/eventbus/in_memory.py:131-169 | in every run over a set of events, no handler call or success for an id follows a success on it without a redrive in between, if and only if events of one id always reach one worker; the unlocked check-then-add rests on exactly that |
| `BusSafety.OneWorkerPerId` | core/src/lumbra/adapters/eventbus/in_memory.py:123-129 | when events of one id share a worker, two busy workers never hold the same id |
| `BusSafety.HandledTwice` | core/src/lumbra/adapters/eventbus/in_memory.py:131-169 | for any two events of one id on different workers there is a schedule that handles the id twice |
| `BusSafety.RedriveCallsHandler` | core/src/lumbra/adapters/eventbus/in_memory.py:176-187 | a redrive gets past the processed set: with the worker free, the handler is called again, with a first-attempt copy |
| `BusDrain.JammedExactly` | core/src/lumbra/adapters/eventbus/in_memory.py:131-151 | nothing but a publish or a redrive can happen exactly when every worker waits on an empty queue or inside a retry into its own full queue, and every waiting submission faces a full queue |
| `BusDrain.JamNeedsBacklog` | core/src/lumbra/adapters/eventbus/in_memory.py:143-151 | being stuck with work left needs retries, a bounded queue, and more outstanding copies than one queue holds |
| `BusDrain.DrainCompletes` | core/src/lumbra/adapters/eventbus/in_memory.py:91-93 | a bus that has come to rest has accounted for every copy, when retries are off, queues are unbounded, or no more copies are outstanding than one queue holds |
| `BusDrain.DrainCanHangExactly` | core/src/lumbra/adapters/eventbus/in_memory.py:91-151 | some schedule leaves work behind with nothing able to move if and only if max_attempts is at least 2 and queues are bounded |
| `BusObject.InMemoryConsumer.constructor` | core/src/lumbra/adapters/eventbus/in_memory.py:62-72 | a registered consumer starts as an empty lane with a dispatcher of its own |
| `BusObject.InMemoryConsumer.Publish` | core/src/lumbra/adapters/eventbus/in_memory.py:118-129 | publishing adds a first-attempt copy waiting for room and changes nothing else |
| `BusObject.InMemoryConsumer.Admit` | core/src/lumbra/adapters/eventbus/in_memory.py:123-129 | a waiting copy enters the queue of its routing key |
| `BusObject.InMemoryConsumer.BeginItem` | core/src/lumbra/adapters/eventbus/in_memory.py:131-139 | the worker takes the head of its queue; the handler is called iff the id is not in the processed set, and a duplicate ends there |
| `BusObject.InMemoryConsumer.HandlerReturned` | core/src/lumbra/adapters/eventbus/in_memory.py:140-169 | a success enters the processed set, and the worker is free |
| `BusObject.InMemoryConsumer.HandlerRaised` | core/src/lumbra/adapters/eventbus/in_memory.py:141-169 | a failure below max_attempts starts a retry, one at max_attempts becomes a dead letter with its attempts |
| `BusObject.InMemoryConsumer.RetryAdmitted` | core/src/lumbra/adapters/eventbus/in_memory.py:143-151 | the retry enters the tail of the worker's own queue with one attempt more |
| `BusObject.InMemoryConsumer.RedriveLetter` | core/src/lumbra/adapters/eventbus/in_memory.py:176-187 | the oldest dead letter of the event leaves the list, its id leaves the processed set, and a first-attempt copy is submitted; without a letter nothing changes |
| `BusObject.FirstIs` | core/src/lumbra/adapters/eventbus/in_memory.py:179-182 | the letter the redrive loop stops at is the oldest one of the event |
| `RedisExact.NothingLostExactly` | core/src/lumbra/adapters/eventbus/redis_streams.py:247-372 | in every run that orphans no dedup key: delivered messages are pending or acknowledged, an acknowledged event was handled or dead-lettered, and dead letters stay until published again; this holds if and only if events of one id share a worker, also when only runs that have come to rest are asked |
| `RedisExact.LostAtRest` | core/src/lumbra/adapters/eventbus/redis_streams.py:281-303 | for any two events of one id on different workers: a run from the empty bus to rest in which the second message is acknowledged, unhandled and no dead letter |
| `RedisExact.CutShortExactly` | core/src/lumbra/adapters/eventbus/redis_streams.py:281-303 | in every state reached, a crash or interruption loses nothing in any continuation if and only if no worker cut short holds the dedup key of an event not handled yet |
| `RedisExact.CutShortLosesItsMessage` | core/src/lumbra/adapters/eventbus/redis_streams.py:281-341 | the message of such a worker, while pending, is claimed again and acknowledged unhandled, without any further publish |
| `RedisExact.WindowIsReachable` | core/src/lumbra/adapters/eventbus/redis_streams.py:281-303 | each event can be brought, from the empty bus, to where a crash or interruption loses it |
| `RedisExact.RacesExactly` | core/src/lumbra/adapters/eventbus/redis_streams.py:391-402 | in every state reached without races, a redrive leads to no repeated handler in any continuation if and only if it clears no key of a running handler, and none of a failed one whose id another worker can get |
| `RedisExact.RaceWithRunning` | core/src/lumbra/adapters/eventbus/redis_streams.py:391-402 | the very copy published by a redrive that cleared the key of a running handler is handled again after its success |
| `RedisExact.RaceWithFailed` | core/src/lumbra/adapters/eventbus/redis_streams.py:281-303 | with the id on another worker too, a failed handler deletes the key that the other worker has set after the redrive, and the other's success is repeated |
| `RedisExact.RaceIsReachable` | core/src/lumbra/adapters/eventbus/redis_streams.py:391-402 | each event can be brought, from the empty bus, to where a redrive of it races |
| `RedisExact.FailToTheEnd` | core/src/lumbra/adapters/eventbus/redis_streams.py:281-341 | a handler that fails on every delivery ends as a dead letter, acknowledged, with worker and key free |
| `RedisRuns.DeliverTo` | core/src/lumbra/adapters/eventbus/redis_streams.py:211-283 | whatever the state, with the event's worker idle, one more copy of it can be published and brought to the worker with nothing else disturbed |
| `RedisSafety.GentleRunsAreSafe` | core/src/lumbra/adapters/eventbus/redis_streams.py:247-402 | every run from a safe state that orphans no key keeps all of: a dedup key means its delivery is running or the event was handled, acknowledgements are earned, no delivered message is lost, letters are kept |
| `RedisSafety.SafeStep` | core/src/lumbra/adapters/eventbus/redis_streams.py:247-402 | each command of the bus, of a redrive or of a crash outside the window keeps that invariant |
| `RedisSafety.KeyMeaningStep` | core/src/lumbra/adapters/eventbus/redis_streams.py:281-303 | each step that orphans no key keeps: a present dedup key belongs to a handler that runs or is about to clear it, or to an event that was handled |
| `RedisSafety.AcksStep` | core/src/lumbra/adapters/eventbus/redis_streams.py:281-303 | each step keeps: a worker about to acknowledge does so for an event handled or dead-lettered |
| `RedisSafety.DeliveredStep` | core/src/lumbra/adapters/eventbus/redis_streams.py:247-303 | each step keeps: a message read from the stream is pending, or acknowledged and dealt with, or carried no envelope |
| `RedisSafety.LettersStep` | core/src/lumbra/adapters/eventbus/redis_streams.py:343-402 | each step keeps: what was dead-lettered is in the dead letter stream until it is published again |
| `RedisSafety.HandlersAreNotRepeated` | core/src/lumbra/adapters/eventbus/redis_streams.py:270-303 | for any events and any routing, crashes and failing commands included: after a success the handler is not called again for the id before a redrive on this very consumer, whatever other consumers redrive; for runs in which no redrive races |
| `RedisSafety.OnceStep` | core/src/lumbra/adapters/eventbus/redis_streams.py:281-303 | each step that does not race keeps: SET NX is the lock, so no two workers have one id in their handlers, and every settled id has its key |
| `RedisSafety.OneWorkerPerId` | core/src/lumbra/adapters/eventbus/redis_streams.py:247-268 | when events of one id share a worker, two busy workers never hold the same id |
| `RedisOrder.PartitionsAreInOrder` | core/src/lumbra/adapters/eventbus/redis_streams.py:247-268 | in every run, crashes included, since the process was last started: the events that carry a partition key begin in the order in which they were submitted, redeliveries included, never two with different workers; an event without one is with the worker of its own id |
| `RedisDelivery.DeadLettersAreExhausted` | core/src/lumbra/adapters/eventbus/redis_streams.py:289-303 | in every run, crashes and failing commands included, a dead letter had at least max_attempts deliveries |
| `RedisDelivery.CountsAreDeliveries` | core/src/lumbra/adapters/eventbus/redis_streams.py:305-341 | in every run the delivery count of a pending message is one plus the number of its reclaims |
| `RedisDelivery.FailureIsRetriedOrBuried` | core/src/lumbra/adapters/eventbus/redis_streams.py:289-303 | a failed delivery frees the worker and the dedup key; below the limit the message stays pending, at the limit it is acknowledged with a dead letter |
| `RedisDelivery.RedriveDelivers` | core/src/lumbra/adapters/eventbus/redis_streams.py:391-402 | with the group caught up and the worker free, a redriven letter is published, read and handled again in spite of the dedup key |
| `RedisLimit.AtMostTheLimit` | core/src/lumbra/adapters/eventbus/redis_streams.py:270-303 | limited retry: in every run, a message that is reclaimed only when no earlier delivery of it is in the process, and whose deliveries are not cut short after the call, has at most max_attempts handler calls and at most one dead letter, whatever happens to other messages |
| `RedisLimit.CalledTooOften` | core/src/lumbra/adapters/eventbus/redis_streams.py:305-341 | without that condition, for every event and every limit: a run from the empty bus in which nothing is cut short and the one message published, claimed again during its last try, has max_attempts + 1 calls and two dead letters |
| `RedisLimit.LimitedStep` | core/src/lumbra/adapters/eventbus/redis_streams.py:270-341 | each step keeps: at most one delivery of the message is in the process, it is the one that is counted, and its phase bounds calls and letters so far |
| `RedisReclaim.ReclaimPass` | core/src/lumbra/adapters/eventbus/redis_streams.py:305-341 | the loop claims exactly the due messages up to the batch limit or to the first one that does not decode, which ends the pass, and starts their idle times anew |
| `RedisReclaim.ReachedExactly` | core/src/lumbra/adapters/eventbus/redis_streams.py:305-341 | a due message is reached by a pass iff it is in the batch and none before it is undecodable |
| `RedisReclaim.ClaimedExactly` | core/src/lumbra/adapters/eventbus/redis_streams.py:320-338 | a pass claims a pending message iff it has been idle long enough, fewer than a batch of due messages are before it, and none of those is undecodable |
| `RedisReclaim.PassRuns` | core/src/lumbra/adapters/eventbus/redis_streams.py:305-341 | with room in the queues for what is claimed, a pass is a run of the bus that delivers each claimed message once more and leaves the others alone |
| `RedisPasses.StarvesExactly` | core/src/lumbra/adapters/eventbus/redis_streams.py:305-341 | over any passes, with any acknowledgements and reads in between: with less than a batch before it, a due message behind k undecodable ones is delivered again iff some k + 1 passes in a row fall within one idle period |
| `RedisPasses.Starves` | core/src/lumbra/adapters/eventbus/redis_streams.py:305-341 | without such a burst it is never delivered again, however many messages are before it |
| `RedisPasses.BurstDelivers` | core/src/lumbra/adapters/eventbus/redis_streams.py:305-341 | a burst of one pass for each undecodable message and each full batch before it, and one more, has come to it |
| `RedisPasses.BackoffStarves` | core/src/lumbra/adapters/eventbus/redis_streams.py:209-240 | the loop's own backoff keeps the passes apart: when the delays after k failures in a row add up to the idle period, a message behind k undecodable ones is never delivered again |
| `RedisPasses.BackoffDelivers` | core/src/lumbra/adapters/eventbus/redis_streams.py:209-240 | when those delays and the waits for new messages are shorter than the idle period together, it is delivered again after k failing passes at the latest |
| `RedisPasses.DefaultsStarveBehindEight` | core/src/lumbra/shared/config.py:44-50 | with the default settings eight undecodable messages ahead starve what is behind them for good, and up to six do not |
| `Cancellation.CancelsExactlyTheSubtree` | core/src/lumbra/shared/cancellation.py:137-161 | cancelling a token cancels it and its descendants, and nothing else |
| `Cancellation.FirstReasonWins` | core/src/lumbra/shared/cancellation.py:137-161 | a second cancellation anywhere below changes nothing, and tokens already cancelled keep reason, requester and everything else |
| `Cancellation.CancellationReports` | core/src/lumbra/shared/cancellation.py:137-161 | the root reports who asked and why, every other newly cancelled token PARENT and its parent's name; tokens outside the subtree do not change, and of the others nothing else |
| `Cancellation.BirthReports` | core/src/lumbra/shared/cancellation.py:93-106 | a token born below a cancelled one reports PARENT and its parent's name, any other is born clean |
| `Cancellation.CancelledValid` | core/src/lumbra/shared/cancellation.py:137-161 | cancelling keeps: descendants of a cancelled token are cancelled, and each registered observer has run exactly once, in order, if and only if its token is cancelled |
| `Cancellation.BornValid` | core/src/lumbra/shared/cancellation.py:93-106 | creating a token keeps that, also below a cancelled parent |
| `Cancellation.ObservedValid` | core/src/lumbra/shared/cancellation.py:163-168 | registering an observer keeps that: on a cancelled token it runs at once |
| `Cancellation.OneAncestorPerDepth` | core/src/lumbra/shared/cancellation.py:93-106 | a token has at most one ancestor at each depth, so subtrees of siblings are apart |
| `Cancellation.SubtreeSplits` | core/src/lumbra/shared/cancellation.py:137-161 | a subtree is its root and the subtrees of its children |
| `Cancellation.NextChild` | core/src/lumbra/shared/cancellation.py:137-161 | cancelling the next child, with reason PARENT and the parent's name, turns "the first i children cancelled" into "the first i+1 cancelled", and fewer tokens are left to cancel |
| `Cancellation.CancellationToken.constructor` | core/src/lumbra/shared/cancellation.py:93-106 | the new token is attached to its parent, and cancelled at birth with the parent's reason when the parent already is |
| `Cancellation.CancellationToken.AddChild` | core/src/lumbra/shared/cancellation.py:103-104 | the child is appended to the token's children, nothing else changes |
| `Cancellation.CancellationToken.Cancel` | core/src/lumbra/shared/cancellation.py:137-161 | the in-place recursion computes exactly the cancelled state, terminates, and says whether it was the first |
| `Cancellation.CancellationToken.Propagate` | core/src/lumbra/shared/cancellation.py:137-161 | the recursion that stops at already cancelled tokens is right on any subtree closed under cancellation |
| `Cancellation.CancellationToken.PropagateToChildren` | core/src/lumbra/shared/cancellation.py:157-158 | the loop over the children cancels all their subtrees, naming the parent |
| `Cancellation.CancellationToken.RunCallbacks` | core/src/lumbra/shared/cancellation.py:159-160 | every observer runs once, in order of registration |
| `Cancellation.CancellationToken.OnCancel` | core/src/lumbra/shared/cancellation.py:163-168 | the observer is kept, or run at once on a cancelled token |
| `Cancellation.CancellationToken.Child` | core/src/lumbra/shared/cancellation.py:170-172 | a fresh token below this one, in the state the constructor promises |
| `Cancellation.CancellationToken.Step` | core/src/lumbra/shared/cancellation.py:131-133 | appends one completed step |
| `Scopes.ScopeCoversDecidesInclusion` | core/src/lumbra/domain/scopes.py:53-74 | for parseable scopes a and b whose stars stand alone or after a dot, a covers b exactly when every star-free scope string covered by b is covered by a |
| `Scopes.DecidesInclusionExactly` | core/src/lumbra/domain/scopes.py:53-74 | the matcher decides inclusion against b, for every a, if and only if every star of b stands alone or after a dot |
| `Scopes.CoversDecidesInclusion` | core/src/lumbra/domain/scopes.py:53-74 | the same inclusion theorem on segment lists |
| `Scopes.CoversIsFits` | core/src/lumbra/domain/scopes.py:53-74 | the early-return loop accepts exactly the requirements that are long enough, no longer unless the grant ends in a star, and match segment by segment |
| `Scopes.CoversReflexive` | core/src/lumbra/domain/scopes.py:53-74 | every well-formed scope covers itself |
| `Scopes.CoversTransitive` | core/src/lumbra/domain/scopes.py:53-74 | coverage is transitive on all well-formed scopes |
| `Scopes.SplitJoin` | core/src/lumbra/domain/scopes.py:43-50 | splitting joined segments gives them back |
| `Scopes.ParsesExactly` | core/src/lumbra/domain/scopes.py:43-50 | a scope is accepted iff it neither begins nor ends with a colon and each part is a lone star or a name with at most a final star, one line feed allowed |
| `Scopes.Alphabet` | core/src/lumbra/domain/scopes.py:27-29 | the characters of a name, written out |
| `Scopes.JoinSplit` | core/src/lumbra/domain/scopes.py:43-50 | joining what was split gives the string back |
| `Scopes.ParseJoin` | core/src/lumbra/domain/scopes.py:43-50 | every list of well-formed segments is the parse of its joined text |
| `Scopes.GrantsIsExists` | core/src/lumbra/domain/scopes.py:77-79 | a requirement is granted iff some granted scope covers it |
| `Scopes.CoveredGrantIsRedundant` | core/src/lumbra/domain/scopes.py:77-102 | adding a scope already covered by a granted one never changes a decision |
| `Diversify.Diversify` | core/src/lumbra/context/providers.py:35-65 | distinct chunks; per document no better chunk passed over; picks ordered by round and then by relevance; max-min fair; exactly min(limite, distinct chunks) of them when por_documento <= limite, and none when por_documento > limite |
| `Diversify.ShareIsPrefix` | core/src/lumbra/context/providers.py:35-65 | each document's share is a prefix of its chunks in order of relevance |
| `Packing.Pack` | core/src/lumbra/adapters/chunking/basic.py:13-36 | the loop with its inner cutting loop terminates and computes the packing function |
| `Packing.PackedKeepsInk` | core/src/lumbra/adapters/chunking/basic.py:13-36 | the non-blank characters of the pieces come out in order, none lost or added |
| `Packing.PackedSizes` | core/src/lumbra/adapters/chunking/basic.py:13-36 | no chunk is empty, all but the last are within 1600 characters, the last within 1801 |
| `Packing.NeighboursDoNotFit` | core/src/lumbra/adapters/chunking/basic.py:13-36 | no two neighbouring chunks would have fitted into one |
| `Packing.PackedWhenItFits` | core/src/lumbra/adapters/chunking/basic.py:13-45 | pieces that fit together become exactly one chunk, the stripped pieces joined by blank lines |
| `Structural.ChunkBlocks` | core/src/lumbra/adapters/chunking/structural.py:24-64 | texts and metadata come out aligned, and are exactly the chunks due at each block in terms of the enclosing headings: prose flushed at the next heading or table, or at the end |
| `Structural.EmitTable` | core/src/lumbra/adapters/chunking/structural.py:67-89 | the loop over the data rows appends exactly the table's chunks |
| `Structural.FlushProse` | core/src/lumbra/adapters/chunking/structural.py:38-48 | pending prose becomes stamped chunks, and nothing when it is blank |
| `Structural.Climb` | core/src/lumbra/adapters/chunking/structural.py:52-58 | popping the stack leaves exactly the headings shallower than the new one |
| `Structural.EnclosingStep` | core/src/lumbra/adapters/chunking/structural.py:50-64 | the enclosing headings after one more block, by the declarative definition: a heading drops all that are not shallower and adds itself |
| `Structural.PopIsFilter` | core/src/lumbra/adapters/chunking/structural.py:52-58 | on a stack that only deepens, popping from the top is filtering by level |
| `Structural.PathIsEnclosingHeadings` | core/src/lumbra/adapters/chunking/structural.py:35-36 | a heading is on the path iff no later heading of equal or shallower level stands in between |
| `Sections.PathIsByLevels` | core/src/lumbra/adapters/chunking/structural.py:50-58 | the section path lists, in document order, the titles of exactly the headings before it after which no heading has a level as shallow; an absent or zero level is one |
| `Sections.PrefixByParts` | core/src/lumbra/adapters/chunking/structural.py:81-81 | the text before a table row names the path from the outside in, separated by arrows |
| `Sections.ProseIsKept` | core/src/lumbra/adapters/chunking/structural.py:38-64 | for a splitter that drops only white space: the prose chunks of a document say, in order, all that its prose blocks say and no more |
| `Structural.SameSection` | core/src/lumbra/adapters/chunking/structural.py:38-64 | between headings the path does not change, so prose flushed late carries the path it was read under |
| `Structural.TableRowsAreChunks` | core/src/lumbra/adapters/chunking/structural.py:67-89 | each non-blank data row is one chunk, in order, with the table's path and page, its text holding the path, the header row and its own row; a single non-blank row is one chunk without a header |
| `Structural.SolidRowsAreTheSolidOnes` | core/src/lumbra/adapters/chunking/structural.py:78-80 | the rows kept are exactly the non-blank ones, by a strictly increasing list of their places |
| `Structural.SolidRowsKeepCounts` | core/src/lumbra/adapters/chunking/structural.py:78-80 | each non-blank row is kept as often as it occurs |
| `Markdown.MarkdownBlocks` | core/src/lumbra/pipeline/structure.py:69-134 | the line-by-line machine with its three buffers yields exactly the blocks of the maximal runs of lines |
| `Markdown.OnlySegmentation` | core/src/lumbra/pipeline/structure.py:69-134 | there is only one way to cut the lines into well-formed runs, so every line is accounted for once and in order |
| `Markdown.SegmentsCoverLines` | core/src/lumbra/pipeline/structure.py:69-134 | the runs put together are the document's lines |
| `Markdown.SilentSegments` | core/src/lumbra/pipeline/structure.py:69-134 | a run yields no block iff it is a blank line, a table of separators only, or an unclosed fence with nothing after it |
| `Markdown.LinesWithoutBlock` | core/src/lumbra/pipeline/structure.py:69-145 | of any document: a line reaches no block iff it is a fence marker, a blank line outside code, or in a table of separators only |
| `Markdown.ProseHasText` | core/src/lumbra/pipeline/structure.py:76-82 | a run of text lines always makes a paragraph |
| `MarkdownContent.NothingIsLost` | core/src/lumbra/pipeline/structure.py:69-134 | the text of all blocks, in order, is the text of all lines without white space, fences, separators, bars and what the heading and item patterns remove; in code, every line as it is |
| `MarkdownContent.SegmentInk` | core/src/lumbra/pipeline/structure.py:69-134 | and so for each run of lines and its block |
| `MarkdownContent.StructureIsKept` | core/src/lumbra/pipeline/structure.py:69-134 | the headings with their levels, the list items and the table rows with their cells are those of the lines outside code, in order |
| `MarkdownContent.ParagraphText` | core/src/lumbra/pipeline/structure.py:76-81 | a paragraph is its lines stripped and one space apart |
| `MarkdownContent.CodeAndTableText` | core/src/lumbra/pipeline/structure.py:83-96 | each further code line adds a line feed and itself, each further row a line feed and its cells between bars |
| `MarkdownContent.SplitAtBars` | core/src/lumbra/pipeline/structure.py:137-145 | splitting a row at the bars loses nothing but the bars, and leaves none in a cell |
| `MarkdownContent.KindsExactly` | core/src/lumbra/pipeline/structure.py:88-134 | what a line is, by the first test that holds: fence, a bar first and another later, heading pattern, item pattern, blank or text |
| `MarkdownContent.SeparatorsExactly` | core/src/lumbra/pipeline/structure.py:137-145 | a row is a separator iff every cell has text, of dashes and colons, with blanks in between at most |
| `Markdown.SegmentsAreWellCut` | core/src/lumbra/pipeline/structure.py:69-134 | every document has such a cut into maximal runs |
| `Markdown.FirstIsForced` | core/src/lumbra/pipeline/structure.py:88-134 | in any cut of the lines the first run is the one the machine finds |
| `Markdown.ParseTableLines` | core/src/lumbra/pipeline/structure.py:137-145 | the rows of a table are its lines cut at the bars, without the separator lines |
| `Pipeline.ResumeEqualsOneRun` | core/src/lumbra/pipeline/runner.py:79-163 | any sequence of failing, crashing and resumed calls that ends indexed leaves the context of one uninterrupted run, for stages that keep what is done |
| `Pipeline.StaysOnTheWay` | core/src/lumbra/pipeline/runner.py:79-163 | each single call leaves a context from which an uninterrupted run still ends where it would have |
| `Pipeline.EachStageOnceInOrder` | core/src/lumbra/pipeline/runner.py:79-163 | over any sequence of failing and resumed calls the successes form a prefix of the plan without its repetitions, are pairwise different, and are the whole of it once indexed |
| `Pipeline.CallKeepsOrder` | core/src/lumbra/pipeline/runner.py:90-131 | each single call keeps that |
| `Pipeline.PlanPosition` | core/src/lumbra/pipeline/runner.py:90-92 | the stage about to run is the next one of the plan without its repetitions |
| `Pipeline.CleanCallIndexes` | core/src/lumbra/pipeline/runner.py:79-141 | a call in which no stage raises indexes the document iff every stage left in the plan is registered or done |
| `Pipeline.CallsEnd` | core/src/lumbra/pipeline/runner.py:79-163 | every call ends indexed, with the mark and no failure entry; or failed, with one failure entry, the last, for the stage of the state, which was not registered or raised; or dead in the middle of a stage |
| `Pipeline.DoneIsAPrefix` | core/src/lumbra/pipeline/runner.py:79-163 | over any history, deaths of the process included: stages_done only grows, is always a prefix of the plan without its repetitions and all of it once indexed, and no success is reported twice |
| `Pipeline.ForgettingRepeats` | core/src/lumbra/pipeline/runner.py:111-114 | for any stages and plan: if a stage drops an earlier one from stages_done and the stage after it fails, the next call runs an earlier stage that has succeeded before |
| `Pipeline.ForgettingBreaksResume` | core/src/lumbra/pipeline/runner.py:111-114 | an instance in which the resumed result then differs from the uninterrupted one |
| `Pipeline.DocumentProcessing.RunPlan` | core/src/lumbra/pipeline/runner.py:79-163 | the loop persists exactly what the processing function says: context, timeline, state, and the mark of being indexed |
| `Pipeline.DocumentProcessing.constructor` | core/src/lumbra/pipeline/runner.py:79-83 | a new document has nothing done and an empty timeline |
| `Approval.OnlyApprovedActionsRun` | core/src/lumbra/kernel/skill_registry.py:139-200 | over every interleaving of calls, approvals and rejections: each ticket is decided at most once, handler runs above the ceiling belong to approved tickets with exactly the request that ran, and no ticket runs twice |
| `Approval.EveryRunWasPermitted` | core/src/lumbra/kernel/skill_registry.py:147-171 | every handler run had a valid payload and passed the check of each required scope |
| `Approval.EveryScopeWasGranted` | core/src/lumbra/kernel/skill_registry.py:147-171 | each scope a handler run required had been granted to its caller at some moment of the schedule |
| `Approval.RisksAreOrdered` | core/src/lumbra/kernel/approval.py:32-37 | low, medium, high, critical, strictly |
| `Approval.OwnersAnswerDecides` | core/src/lumbra/kernel/approval_service.py:56-73 | in every schedule a pending ticket ends as its owner first answers it, approved, rejected or pending; the record says so and no more; its action is started iff the answer was yes |
| `Approval.RejectedNeverRuns` | core/src/lumbra/kernel/approval_service.py:69-73 | once the owner has rejected a pending ticket it stays rejected, and nothing is ever started or run on its behalf |
| `Approval.DecisionsAreAnswers` | core/src/lumbra/kernel/approval_service.py:56-73 | every decision on record is an answer the ticket's owner gave in the schedule, and every confirmed run has its owner's yes there |
| `Approval.ApprovedActionRuns` | core/src/lumbra/kernel/approval_service.py:56-67 | a pending ticket that its owner approves does run, exactly as asked, when the scopes are still granted and the payload is valid |
| `Approval.CallRunsOrAsks` | core/src/lumbra/kernel/approval.py:40-119 | a permitted and valid call runs without a ticket up to the ceiling; above it, it leaves a pending ticket with the whole request when there is a user, and does not run |
| `Approval.DecisionsAreFinal` | core/src/lumbra/kernel/approval_service.py:56-73 | a decided ticket never changes again |
| `Approval.DatabaseResolvesExactly` | core/src/lumbra/adapters/approvals/postgres.py:86-111 | the conditional UPDATE followed by a second look behaves as the in-memory store, whatever other sessions do in between, if and only if the ticket is not created for this user just in between |
| `Approval.InMemoryApprovalStore.constructor` | core/src/lumbra/adapters/approvals/in_memory.py:25-26 | a new store holds no tickets |
| `Approval.InMemoryApprovalStore.Add` | core/src/lumbra/adapters/approvals/in_memory.py:28-30 | stores the ticket under its id |
| `Approval.InMemoryApprovalStore.Get` | core/src/lumbra/adapters/approvals/in_memory.py:41-46 | the answer is a function of the asking user's own tickets alone |
| `Approval.StrangersDoNotShow` | core/src/lumbra/adapters/approvals/in_memory.py:41-56 | no answer depends on the tickets of other users, so a stranger's ticket cannot be told from none, and no decision changes another user's tickets |
| `Approval.InMemoryApprovalStore.ResolveTicket` | core/src/lumbra/adapters/approvals/in_memory.py:48-56 | only the owner decides, only while it is pending, and the errors change nothing |
| `Delegation.OverrunIsFinal` | core/src/lumbra/kernel/sandbox.py:88-102 | a charge returns iff it leaves tokens, steps and time within the limits, and after the first overrun no charge returns, whoever makes it |
| `Delegation.OverrunsExactly` | core/src/lumbra/kernel/sandbox.py:96-102 | an overrun names the first limit passed, tokens before steps before time; a limit just reached is not passed |
| `Delegation.SpentAdds` | core/src/lumbra/kernel/sandbox.py:88-94 | tokens, cost and steps of all charges add up, each by itself |
| `Delegation.AtMostMaxSteps` | core/src/lumbra/kernel/sandbox.py:88-102 | at most max_steps charges of at least one step return in the whole tree |
| `Delegation.CostIsNotLimited` | core/src/lumbra/kernel/sandbox.py:96-102 | no amount of money changes the outcome of any charge: the cost is booked and never checked |
| `Delegation.BudgetTracker.constructor` | core/src/lumbra/kernel/sandbox.py:69-74 | a new budget has spent nothing |
| `Delegation.BudgetTracker.Check` | core/src/lumbra/kernel/sandbox.py:96-102 | tokens, then steps, then time decide; exactly at the limit is still within |
| `Delegation.BudgetTracker.Debit` | core/src/lumbra/kernel/sandbox.py:88-94 | the charge is booked before the check, also when it overruns |
| `Delegation.NarrowIsNesting` | core/src/lumbra/kernel/sandbox.py:114-122 | narrowing is the same permission as wrapping once more, and never allows more |
| `Delegation.ChainsOnlyNarrow` | core/src/lumbra/kernel/sandbox.py:143-185 | along every chain of delegations: permissions are the platform's within the scopes all its agents declare, agents are distinct, the chain is one longer than the depth, and the depth is within the parent's limit |
| `Delegation.DelegateExactly` | core/src/lumbra/kernel/orchestrator.py:218-280 | which of the four errors a delegation gets, or that it succeeds: policy, then circle, then depth |
| `Delegation.HopsArePermitted` | core/src/lumbra/kernel/orchestrator.py:218-280 | along every chain each agent could ask for what it asked, and the agent found was not in the chain before |
| `Delegation.ChainsAreBounded` | core/src/lumbra/kernel/sandbox.py:170-174 | no chain has more hops than there are other registered agents |
| `Delegation.RootBoundsTreeExactly` | core/src/lumbra/kernel/sandbox.py:172-178 | the root's max_depth bounds its tree if and only if no agent reached at that depth has a larger limit of its own, a policy that lets it delegate, and a new agent to delegate to |
| `Delegation.BeyondTheRoot` | core/src/lumbra/kernel/sandbox.py:172-178 | at the depth the root allows, one more delegation goes through exactly when the policy permits it, the target is new, and the delegating agent's own limit is larger |
| `Delegation.RootBoundsModestAgents` | core/src/lumbra/kernel/sandbox.py:172-178 | the root's limit bounds its tree when no registered agent allows more |
| `Delegation.RootLimitDoesNotBoundTheTree` | core/src/lumbra/kernel/sandbox.py:172-178 | an instance: a delegated agent delegates on deeper than its root's max_depth |
| `Delegation.AgentSandbox.Top` | core/src/lumbra/kernel/sandbox.py:131-157 | a sandbox of its own has a fresh budget under its agent's limits |
| `Delegation.AgentSandbox.Below` | core/src/lumbra/kernel/sandbox.py:131-157 | a sandbox given a budget and a chain uses those |
| `Delegation.AgentSandbox.Child` | core/src/lumbra/kernel/sandbox.py:166-185 | a loop is refused first, then depth; else the child is narrower and deeper, in the chain, on the same budget |
| `Delegation.AgentSandbox.Discard` | core/src/lumbra/kernel/sandbox.py:187-200 | clears the scratch data, once |
| `Orchestration.TreesStayInBounds` | core/src/lumbra/kernel/orchestrator.py:182-280 | one execution with everything it delegates, whatever its handlers do at each call and whatever errors they swallow: delegated skill runs are at most the top agent's max_steps, all come before the first overrun, and each runs with exactly what platform, grant and every agent of its chain allow |
| `Orchestration.HandledKeeps` | core/src/lumbra/kernel/orchestrator.py:218-280 | each handler keeps the tree within those bounds, through agents that name each other in circles |
| `Orchestration.DelegationsArePermitted` | core/src/lumbra/kernel/orchestrator.py:218-280 | every delegation left on record was open to the agent that made it, by its policy, and chose the capability's provider |
| `Orchestration.UserBoundsTheAgent` | core/src/lumbra/kernel/orchestrator.py:182-216 | the top agent may do exactly what the platform allows, its manifest declares and the named user has |
| `Orchestration.HandlersStopAtErrors` | core/src/lumbra/kernel/orchestrator.py:182-216 | a handler performs its acts in order up to the first error it does not catch |
| `Orchestration.ChildNarrowed` | core/src/lumbra/kernel/sandbox.py:166-185 | the child's permissions are the parent's within the delegated agent's scopes |
| `Orchestration.Orchestrator.constructor` | core/src/lumbra/kernel/orchestrator.py:57-91 | nothing decided or run yet |
| `Orchestration.Orchestrator.ExecuteAgent` | core/src/lumbra/kernel/orchestrator.py:182-216 | an unknown agent is an error; else it runs with its scopes cut down to the user's, and budget, decisions and skill runs are those of its delegation tree |
| `Orchestration.Orchestrator.Delegate` | core/src/lumbra/kernel/orchestrator.py:218-280 | policy first, then the provider, recorded as a decision, then the skill or the agent |
| `Orchestration.Orchestrator.DelegateToSkill` | core/src/lumbra/kernel/orchestrator.py:253-262 | one step is charged and must return before the skill runs in the same sandbox |
| `Orchestration.Orchestrator.DelegateToAgent` | core/src/lumbra/kernel/orchestrator.py:264-280 | the agent runs in a child sandbox, which is discarded whatever happened |
| `Orchestration.Orchestrator.HandleActs` | core/src/lumbra/kernel/orchestrator.py:279-280 | a handler's charges and delegations leave budget and records as the tree function says |
| `Orchestration.Orchestrator.ChargeBudget` | core/src/lumbra/kernel/sandbox.py:88-102 | the tree's budget is the sum of all its charges |
| `Executions.WalkIsTheDescendants` | core/src/lumbra/kernel/executions.py:283-335 | what tree, rollup and cancel_tree visit are descendants of the root, each once; and it is all of them if and only if the ring still holds every child of the root |
| `Executions.WalkIsShown` | core/src/lumbra/kernel/executions.py:283-284 | whatever the ring has forgotten: visited are the root and all that descends from one of its children still in the ring |
| `Executions.ForgottenIsHidden` | core/src/lumbra/kernel/executions.py:283-284 | a child the ring has forgotten is a descendant that is not visited |
| `Executions.RingForgetsAChild` | core/src/lumbra/kernel/executions.py:165-197 | for any capacity: a root, a child of it and then as many executions as the ring holds; the child is missing from the root's tree |
| `Executions.TreeIsOneCorrelation` | core/src/lumbra/kernel/executions.py:286-292 | the tree shows that walk, all of it under the root's correlation id |
| `Executions.ChargeReachesItsRoots` | core/src/lumbra/kernel/executions.py:279-319 | what is recorded on one execution raises, by exactly that much, the rollups in whose walks it is shown and no others: exactly those of its ancestors and itself when the ring holds their children |
| `Executions.StartedValid` | core/src/lumbra/kernel/executions.py:165-197 | starting keeps: parents are earlier, children share the parent's correlation, the ring holds the newest executions |
| `Executions.SiblingsAreApart` | core/src/lumbra/kernel/executions.py:283-284 | nobody descends from two children of one parent |
| `Executions.ClosedUnderChildren` | core/src/lumbra/kernel/executions.py:283-292 | a recent child of whatever the walk visits is visited too |
| `Executions.TotalsAreSums` | core/src/lumbra/kernel/executions.py:294-319 | a rollup adds up duration, cost, tokens in, tokens out, steps and executions, each by itself |
| `Executions.ExecutionsAreCounted` | core/src/lumbra/kernel/executions.py:294-319 | a rollup's executions are the number of executions visited |
| `Executions.ExecutionTracker.constructor` | core/src/lumbra/kernel/executions.py:134-153 | a new tracker knows no execution |
| `Executions.ExecutionTracker.StartSkill` | core/src/lumbra/kernel/executions.py:165-197 | a new execution under its parent's correlation, or a new one when the parent is unknown; the newest in the ring |
| `Executions.ExecutionTracker.Rerun` | core/src/lumbra/kernel/executions.py:398-405 | an unknown id is an error, else a new root with a correlation of its own |
| `Executions.ExecutionTracker.AddStep` | core/src/lumbra/kernel/executions.py:279-281 | a step's metrics are recorded on the execution; an unknown id is an error |
| `Executions.ExecutionTracker.Finish` | core/src/lumbra/kernel/executions.py:237-244 | the duration is recorded and the token dropped |
| `Executions.ExecutionTracker.Rollup` | core/src/lumbra/kernel/executions.py:294-319 | the recursion terminates, an unknown id is an error, and the totals are the sums over the walk |
| `Executions.ExecutionTracker.Cancel` | core/src/lumbra/kernel/executions.py:358-381 | signals a running execution that was not signalled before |
| `Executions.ExecutionTracker.CancelTree` | core/src/lumbra/kernel/executions.py:321-335 | the recursion terminates, stops exactly the executions of the walk, and counts those that were still running |
| `Fusion.FuseRrf` | core/src/lumbra/adapters/search/postgres.py:136-174 | the hits are the first `limit` of the ranking of the union of both lists by exact fused score, ties in the order in which the candidates were met |
| `Fusion.ScoreByPlaces` | core/src/lumbra/adapters/search/postgres.py:158-161 | a score is one over k and the last place in each list that has the candidate, and both lists count alike |
| `Fusion.DominanceRanksFirst` | core/src/lumbra/adapters/search/postgres.py:136-174 | a candidate at least as well placed in both lists and better in one comes before the other in every such ranking |
| `Fusion.HitsAreTheBest` | core/src/lumbra/adapters/search/postgres.py:160-174 | the hits are distinct, as many as there are candidates up to the limit, in falling score, and no candidate left out scores more than one that made it |
| `Fusion.RankingIsUnique` | core/src/lumbra/adapters/search/postgres.py:163 | scores and pool order leave only one such ranking, so the result is determined |
| `Fusion.CollectPool` | core/src/lumbra/adapters/search/postgres.py:149-156 | the pool holds each id once, in the order of first appearance, with its last position in each list |
| `Fusion.SortByScore` | core/src/lumbra/adapters/search/postgres.py:163 | a stable sort: the pool's candidates in falling score, equal ones in the order of the pool |
| `Fusion.FuseMemories` | core/src/lumbra/modules/memory.py:373-402 | every memory found either way, once, by falling score with the vector side weighted by similarity |
| `Fusion.MemoryScoreByPlaces` | core/src/lumbra/modules/memory.py:392-400 | a memory's score is one over k and its text place, and its similarity over k and its vector place |
| `Fusion.WeightedDominance` | core/src/lumbra/modules/memory.py:373-402 | with similarities sorted and not negative, a better place never costs, and pays when it carries any similarity |
| `Fusion.WeightedDominanceRanksFirst` | core/src/lumbra/modules/memory.py:373-402 | then a memory placed at least as well by both, and better by one that counts, comes first |
| `Fusion.BetterNeverCostsExactly` | core/src/lumbra/modules/memory.py:373-402 | for a vector list naming each memory once, a better place never costs if and only if the contributions similarity / (k + place) are not negative and do not rise along the list |
| `Fusion.UnsortedSimilarityCanInvert` | core/src/lumbra/modules/memory.py:373-402 | an instance: with rising similarities the better placed memory scores less |

## Left out

- asyncio's own scheduling, wall-clock time and rounding: schedules, counters and exact numbers stand for them.
- Several consumers on one in-memory bus: each has its own dispatcher, processed set and dead letters, and `publish` is one submission for each consumer whose patterns match; the patterns are not modelled.
- The Redis bus is modelled on values and has no class, because what its methods change is kept by Redis; the process's own part is its dispatcher.
- Redis: trimming of streams and dead letters, expiry of dedup keys, several processes for one consumer, and commands that take effect and still raise.
- RedisReclaim.PassRuns: does not model the wait for room in a bounded queue in the middle of a pass, where steps of the workers come in between.
- RedisPasses: one stream of a consumer, and a pass takes no time; a pass that raises also skips the consumer's further streams.
- The reconnect loop of `publish`: a failed command ends the step it belongs to.
- `guard`, `guard_stream`, `with_deadline`, `snapshot`, and observers that cancel or create tokens themselves.
- `ScopeSet` as an object: its `concede` is the function the scope theorems are about.
- The sentence, code and Markdown chunkers and the choice by MIME type: they only split differently before the same packing.
- Line splitting, and the extraction of PDF and DOCX: the parser starts from lines.
- Tables found in PDFs, label-value lines, and the repair of glued words.
- The pipeline's reading of the raw file and its metrics; a stage is a deterministic function of the context.
- Approval: `execute`, `approve` and `reject` are steps of a state machine rather than methods, since other calls may run at each of their awaits; only the store is an object.
- Approval: the order of pending tickets, descriptions, explanations and published events, and registries built without an approval policy.
- Agents run without a permission port (the compatibility path), plans and playbooks, intent routing, and the children of the cancellation token made for sandboxes.
- Payloads passed between agents: what a handler does may differ from call to call, but payloads are not part of the model.
- `with filho` on an error is modelled by discarding on both outcomes; the temporary directory is part of the scratch data.
- The running of an execution itself, its status, error and grace period; only when it is active, what it spent and how it ends.
- Executions: events, logs, history and export.
- Titles, snippets and explanations of search hits; the database's own ranking.
- Memory search beyond the fusion of its two lists: thresholds, strength and consolidation.
