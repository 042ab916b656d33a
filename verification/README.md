# CodeValdPubSub: a verified model

CodeValdPubSub records events and hands them to subscribers. This project models its three
state-keeping parts in Dafny and proves what they promise over whole runs:

- the **message backend** (`storage/arangodb/backend.go`): topics, messages, and named
  subscriptions whose string cursor decides what Pull returns and Acknowledge moves forward;
- the **event manager** (`manager_impl.go`): lazily registered topics, events fanned out to one
  pending delivery per active subscription, idempotent Ack, and two in-memory caches;
- the **topic projections** of the server (`internal/server/server.go`), through which both
  Publish and QueryEvents go.

Both components sit on one entity store (`EntityStore.DataManager`): typed entities with string
properties, listing by equality filter in no promised order, merging updates, deletion, IDs never
reused. Its semantics are those of the in-memory store in `manager_impl_test.go`. Every store call
can fail: `faults` says of the n-th call whether it does, and the contracts hold for every schedule.
A failed call changes nothing.

## How it is put together

Each class method is imperative and is proved against an `Act`, a record of what the call did and
returned. An act carries every choice the code leaves open (fresh IDs, listing order, how a sort
breaks ties, which calls failed). A run is a start state and a sequence of acts, and `Valid()` of each
class says that its acts are a possible run that ends in its present state. The theorems about runs
therefore hold of every object reached by calls. The methods of `Manager` that change state,
RecordDelivery aside, also promise that the call got an answer that `Requests.Answers` allows for it, which ties
the theorem about requests to them.

| files | content |
|---|---|
| `Text`, `Timestamps` | Go's string order, cache keys, RFC 3339 stamps and how their string order differs from time order |
| `EntityStore` | the store |
| `PullSpec`, `BackendSpec`, `Drain`, `DrainProgress`, `Backend` | one Pull, runs of the backend, draining without loss, draining to the end, the class |
| `ManagerSpec`, `Uniqueness`, `DeliveryLife`, `TopicGraph`, `HashCache`, `Isolation`, `Manager` | runs of the manager, their theorems, the class |
| `Requests`, `Renaming`, `Twins`, `TwoRuns` | calls with their answers, stores alike up to renaming, and two-run non-interference |
| `SubscribeRace` | Subscribe as interleaved small steps |
| `Topics`, `EventLog`, `Server` | projections, fence and limit, the handlers |

## What the code does not do unconditionally

Some natural promises are false of the code. Each is stated with the exact condition under which it
holds, or with the hypothesis and a lemma showing what happens without it.

- A Pull-then-Acknowledge round can skip messages. It never does, for any batch size and any
  tie-breaking, if and only if the pending messages' times are distinct and ordered as their stamps
  are (`PullSpec.LosslessIffOrdersAgree`). For the RFC3339Nano stamps that Publish writes, that means: no
  two equal readings, and within a second no earlier fraction, trailing zeros dropped, that starts a
  later one (`Drain.LosslessIffClocksOrdered`; `Drain.WholeSecondMisordered` is a family of failing pairs).
- Acknowledge skips an ID whose lookup fails and still succeeds, so an acknowledged message can be pulled again
  (`Backend.FailedLookupRedelivers`); `Backend.CallLeavesPendingIff` says exactly what a call leaves pending.
- A message published during a drain can be lost at once, behind the cursor: `Drain.DrainPublishIff` and
  `Drain.PublishedPendingByClock` say exactly when.
- Two overlapping Acknowledge calls can move the cursor back; `BackendSpec.OverlappingAcksRedeliverIff` says
  for which messages.
- Two overlapping Subscribe calls can create two subscriptions with one key (`SubscribeRace.OverlapDuplicates`):
  exactly when one creates while the other's is stored (`SubscribeRace.CreateKeepsUniqueIff`), so never when
  calls for one key do not overlap (`SubscribeRace.NoOverlapNoDuplicates`).
- Ack twice equals Ack once exactly when the pair has at most one delivery or all are acknowledged
  (`DeliveryLife.AckIdempotentIff`); uniqueness supplies the first.
- MarkDelivered does not check for a pending delivery, and UpdateSubscription, Unsubscribe and DeleteTopic do
  not check the entity type; `DeliveryLife.RankFallsIff` says exactly when a call sets a delivery back,
  and `Server.QueryExact` which events queries then miss.
- The hash cache is unaware of deletions (`HashCache.DeletionBreaksSkip`), and an empty hash matches a missing
  entry: `HashCache.SuccessRegistersIff` says exactly when a successful RegisterTopics has registered everything.
- Agencies share cache entries exactly when one is another followed by a colon (`Text.KeysCollideIff`).
- A query is precise among topics of two segments only (`Topics.SelectsPrecisely`); `Topics.SelectsExactly`
  says which others it selects.

Where code and comments differ the model follows the code: the action of a topic is its last segment
(`models.go` speaks of everything after the domain), and the event fence reads `published_at` first
(`models.go` names `created_at`).

## Model

| member | source | states |
|---|---|---|
| PullSpec.BatchIffCutOfSorting | storage/arangodb/backend.go:364-377 | Pull refines "sort, then take k", both ways: a batch is some k oldest of the messages past the cursor, oldest first, if and only if it is a cut of some sorting of them |
| PullSpec.EmptyBatchIff | storage/arangodb/backend.go:364-377 | an empty answer means exactly that nothing is pending |
| PullSpec.LosslessIffOrdersAgree | storage/arangodb/backend.go:364-407 | no round, of any size and any tie-break, skips a pending message if and only if the pending times are distinct and ordered as the stamps |
| PullSpec.AckedCursorIsJoin | storage/arangodb/backend.go:394-407 | the acknowledged cursor is the string maximum of the old cursor and the batch's stamps |
| PullSpec.RoundShrinks | storage/arangodb/backend.go:364-407 | whatever the stamps, a round retires at least its whole batch: the termination measure of draining |
| Timestamps.NanoStampsOrder | storage/arangodb/backend.go:233 | the exact string order of RFC3339Nano stamps: chronological, but swapped when the earlier fraction of a second is a proper prefix of the later one; and equal only for equal readings |
| Timestamps.SecondStampsOrder | internal/server/server.go:44 | whole-second stamps order as strings exactly as they do in time |
| Timestamps.NanoShape | storage/arangodb/backend.go:233 | the nano stamp spells year to second at fixed places, then the fraction with its trailing zeros dropped unless it is zero, then 'Z' |
| Drain.LosslessIffClocksOrdered | storage/arangodb/backend.go:233-407 | the exact losslessness condition in the clock readings that Publish stamped on the pending messages, for any parser that reads back the order of those stamps |
| Drain.NanoAgreement | storage/arangodb/backend.go:460-470 | where the parser reads back the order of the pending stamps, stamps and times agree if and only if no two readings are equal or misordered |
| Drain.WholeSecondMisordered | storage/arangodb/backend.go:233 | a whole-second stamp sorts after every later stamp of its second |
| Drain.LosslessDrain | storage/arangodb/backend.go:342-416 | in any run, over any batch sizes and interleaved calls, with new messages arriving in order, what a pull-and-acknowledge consumer acknowledged followed by what is pending is, in order and each once, what the topic holds past the starting cursor; all of it once nothing is pending |
| Drain.DrainPublishIff | storage/arangodb/backend.go:231-253 | what arriving in order must mean: a publish during a drain keeps it lossless and in order if and only if the message, where it is past the starting cursor, is past the present one, agrees in time and stamp with all that is due, and is no older than the batch in hand |
| Drain.PublishedPendingByClock | storage/arangodb/backend.go:231-253 | with the cursor at the stamp of one reading, a message published at another is pending if and only if it is later and not misordered with it, or earlier and misordered; otherwise it is lost at once |
| Drain.FirstPullReturnsAll | storage/arangodb/backend.go:257-378 | until something is acknowledged on a new subscription, a Pull on it chooses from every message stored on its topic, and without a maximum returns all of them in order, whatever runs in between |
| Drain.PublishedReadings | storage/arangodb/backend.go:231-253 | in every run whose messages came from Publish, what is pending carries the nano stamps of readings, as the losslessness theorems ask |
| DrainProgress.EveryRoundShrinks | storage/arangodb/backend.go:342-416 | whichever batch a Pull returns, acknowledging it retires at least that many messages, and the batch is empty exactly when nothing was pending |
| DrainProgress.EveryDrainEnds | storage/arangodb/backend.go:342-416 | every run that closes as many rounds as messages were pending leaves nothing pending: all batch sizes, ties and interleavings, as long as nothing is published to the topic and the subscription stays |
| DrainProgress.EveryDrainDelivers | storage/arangodb/backend.go:342-416 | where stamps and times agree, each such run has delivered all that was pending, oldest first and each once |
| DrainProgress.OneRound | storage/arangodb/backend.go:342-416 | from any point of a disciplined run with something pending a further round of any size is possible and leaves less pending |
| DrainProgress.DrainEnds | storage/arangodb/backend.go:342-416 | so some continuation, of at most one round per pending message, leaves nothing pending, for each batch size and whatever the stamps |
| DrainProgress.DrainDeliversAll | storage/arangodb/backend.go:342-416 | so where stamps and times agree some run of rounds, of each one size, delivers the whole topic past the starting cursor, in order and each once |
| BackendSpec.NoRedelivery | storage/arangodb/backend.go:342-416 | once an acknowledgement names a message and finds it (its lookup did not fail), no later Pull of that subscription returns it, in every run, whatever else fails and whatever the stamps |
| BackendSpec.AckLeavesPendingIff | storage/arangodb/backend.go:394-411 | after an acknowledgement a stored message of the topic is pending if and only if it is past the old cursor and past everything the acknowledgement names and finds |
| Backend.CallLeavesPendingIff | storage/arangodb/backend.go:394-411 | the same in the inputs of the call: past the old cursor and past each message named by a given ID whose own lookup did not fail |
| Backend.FailedLookupRedelivers | storage/arangodb/backend.go:400-402 | acknowledging one pending message whose lookup fails leaves it pending, and the next Pull can return it |
| BackendSpec.OvertakenNeverPulled | storage/arangodb/backend.go:364-370 | a message the cursor has reached is never pulled again, acknowledged or not |
| BackendSpec.AckComposes | storage/arangodb/backend.go:392-411 | acknowledging two lists in turn leaves the same store as acknowledging both at once in any order, with repetitions and unknown IDs |
| BackendSpec.OverlappingAcksRedeliverIff | storage/arangodb/backend.go:392-411 | when two acknowledgements both read before writing, a message that the first writer acknowledged is pending again if and only if it is past the cursor they read and past everything the last writer names |
| BackendSpec.InvRun | storage/arangodb/backend.go:231-284 | every run keeps subscription names unique within an agency, message IDs unique overall, and every message stamped |
| Backend.KeepPending | storage/arangodb/backend.go:364-370 | the filter keeps the messages of exactly the listed entities past the cursor, each once |
| Backend.SelectBatch | storage/arangodb/backend.go:364-377 | the filter, sort and cut of Pull give the messages of a batch of what passes the cursor |
| Backend.SortMessages | storage/arangodb/backend.go:371-373 | some time-ordered permutation of the messages |
| Backend.RaiseCursor | storage/arangodb/backend.go:394-407 | the cursor loop gives the join of the start and the stamps of the known IDs whose lookup did not fail |
| Backend.DeleteUntilFailure | storage/arangodb/backend.go:208-212 | deletes everything listed exactly when none of its calls fails, or else a part of it and reports the failure |
| Backend.DeleteBestEffort | storage/arangodb/backend.go:220-222 | deletes everything listed save what failed |
| Backend.Backend.Publish | storage/arangodb/backend.go:231-253 | on success the store holds one more message, whose ID is fresh and returned, with the given agency, topic, payload and attributes each under its own property and the nano stamp of `now`, from which `now` can be read back; fails only on a fault and then changes nothing |
| Backend.Backend.CreateTopic | storage/arangodb/backend.go:137-163 | if and only if no topic of the agency has the name, and no fault, stores one with the given name, description and stamp; otherwise reports the duplicate and changes nothing |
| Backend.Backend.CreateSubscription | storage/arangodb/backend.go:257-284 | if and only if no subscription of the agency has the name, and no fault, stores one of that name to the given topic with an empty cursor, for which every stored message of that topic is pending |
| Backend.Backend.DeleteTopic | storage/arangodb/backend.go:196-225 | fails exactly when the agency has no topic of that name or a call to list or delete one fails, and then at most some of those are gone; otherwise all are, and of the subscriptions to it some, and without faults all; nothing else is touched |
| Backend.Backend.DeleteSubscription | storage/arangodb/backend.go:317-335 | fails exactly when the agency has no subscription of that name or a call to list or delete one fails, and then at most some of those are gone; otherwise all are, and nothing else |
| Backend.Backend.Pull | storage/arangodb/backend.go:342-378 | returns, of a subscription of that name, a batch of what is pending: as many as asked for, or all for fewer or no maximum; each message shows the ID, topic, content and time stored for it, the IDs are those of the batch, and nothing changes |
| Backend.Backend.Acknowledge | storage/arangodb/backend.go:382-416 | sets the cursor of a subscription of that name to the join with the stamps of the IDs whose lookup succeeded; on failure changes nothing |
| Backend.PublishPullRoundTrip | storage/arangodb/backend.go:231-378 | in every run a pulled message with the ID that a publication returned is exactly what was published, with the time of its stamp; and a Pull without a maximum has it if and only if its subscription is to that topic and the stamp is past the cursor |
| Backend.AnswerAckFits | storage/arangodb/backend.go:368-407 | acknowledging the IDs that an answer shows is acknowledging the batch in hand, as the draining theorems ask, if and only if no lookup of the call fails |
| Backend.Backend.LosslessIff | storage/arangodb/backend.go:231-416 | for every subscription of an object whose messages came from Publish, with a parser that reads the stamps back in order: no round skips a message if and only if no two pending readings are equal or misordered |
| Uniqueness.ReachableInv | manager_impl.go:37-246 | every sequential run keeps one topic per pattern, one subscription per (service, pattern), one delivery per (subscription, event), and sound delivery provenance |
| Uniqueness.LookupsAreSingle | manager_impl.go:509-517 | each lookup by key finds at most one entity |
| DeliveryLife.LifeCycle | manager_impl.go:494-540 | over any stretch of a run that respects the contracts a delivery stays stored for its pair, its rank never falls, and a set acked_at never changes |
| DeliveryLife.AckDatesRun | manager_impl.go:529-535 | over every run that respects the contracts a delivery has an acked_at if and only if it is acknowledged |
| DeliveryLife.RankFallsIff | manager_impl.go:426-507 | whatever IDs the calls are given: a step removes a delivery if and only if it is DeleteTopic or Unsubscribe of its ID, and lowers its rank if and only if it marks an acknowledged one delivered or is UpdateSubscription of its ID with a lower status |
| DeliveryLife.AckIdempotentIff | manager_impl.go:509-540 | Ack twice is Ack once, for every listing order, if and only if the pair has at most one delivery or all are acknowledged |
| DeliveryLife.Conservation | manager_impl.go:231-240 | with complete fan-outs the number of deliveries is the start plus, over the recorded events, the agency's subscriptions with status active and exactly the event's topic as pattern then |
| DeliveryLife.InactiveGainsNothing | manager_impl.go:303-472 | while a subscription is not active it gains and loses no delivery, even when Subscribe is called for it |
| DeliveryLife.NewSubscriberServed | manager_impl.go:205-384 | as long as no call is given the ID of a new subscription, every complete fan-out of an event on its pattern delivers to it exactly once |
| TopicGraph.OneEdgePerEvent | manager_impl.go:168-229 | each recorded event for ever has exactly its one for_topic edge, to what was the only topic of that pattern |
| HashCache.SkipIsSound | manager_impl.go:72-98 | in runs where the agency deletes no topic, a skipped call finds a topic for every pattern its hash stands for, or no hash was cached and the given one is empty |
| HashCache.SuccessRegistersIff | manager_impl.go:72-98 | in such runs a call that returns nil leaves a topic for every requested pattern if and only if its hash is not empty, or one was cached, or they were there before; in the remaining case it changes nothing |
| HashCache.DeletionBreaksSkip | manager_impl.go:72-157 | after a deletion the next RegisterTopics call with the cached hash is skipped and changes nothing, and leaves a topic for every pattern if and only if each had one besides the deleted one |
| HashCache.DeletionAfterSteadyRun | manager_impl.go:72-157 | after a run without deletions that cached the hash: if and only if the deleted topic was not the only one of any pattern the hash stands for |
| Isolation.PurgedRun | manager_impl.go:37-540 | dropping all other agencies' acts leaves a possible run with the same IDs after which every listing of the agency gives the same entities and every cache lookup the same hash, unless one agency is another followed by a colon |
| TwoRuns.NonInterference | manager_impl.go:37-540 | in two runs from one store in which an agency makes the same calls with the same faults, whatever others do, every call gets the same error or success, changes and returned subscription, and the final stores and cached hashes are the same, up to one one-to-one renaming of IDs |
| TwoRuns.ExchangeInStep | manager_impl.go:37-540 | the same request on stores alike up to renaming gets the same answer and leaves them alike |
| Renaming.ListingsCorrespond | manager_impl.go:38-42 | on such stores a listing other than of deliveries finds partners of what it finds on the other, and is empty together with it |
| Renaming.DeliveriesCorrespond | manager_impl.go:510-517 | the same for the lookup of a (subscription, event) pair |
| Isolation.OthersInvisible | manager_impl.go:37-540 | an act of one agency leaves all that another can read unchanged |
| Text.KeysCollideIff | manager_impl.go:73 | two agencies can share a cache key if and only if one is the other followed by a colon |
| Text.KeyInjective | manager_impl.go:73 | cache keys of agencies that are not so are injective in both parts |
| SubscribeRace.SubscribeSound | manager_impl.go:303-384 | under every interleaving and fault, a seen key's subscription was stored at some earlier moment, and each returned subscription is for its own request and was stored at some moment between the first step of the call and its return |
| SubscribeRace.CreateKeepsUniqueIff | manager_impl.go:332-365 | the create step of a call keeps the subscription key unique if and only if nothing its request asks for is stored then |
| SubscribeRace.NoOverlapNoDuplicates | manager_impl.go:303-384 | in every interleaved run in which no call begins while another with its agency, service and pattern is unfinished, every store reached has at most one subscription per key |
| SubscribeRace.OverlapDuplicates | manager_impl.go:332-365 | two overlapping calls can both create |
| Manager.DeliverToAll | manager_impl.go:236-240 | creates one new pending delivery for each listed subscription whose own creation did not fail |
| Manager.EventsByMatches | manager_impl.go:259-269 | the event filter matches on exactly the non-empty fields |
| ManagerSpec.ActiveFilter | manager_impl.go:459-462 | the subscriber filter selects exactly the agency's subscriptions with status active and the topic as pattern |
| Manager.FaultFreeRecording | manager_impl.go:205-240 | without faults a recording is linked and reaches every active subscription |
| Manager.SubscribeThenRecord | manager_impl.go:205-384 | a subscription that Subscribe created gets exactly one pending delivery of the next event on its pattern when no store call behind it fails |
| Manager.ReachesWhom | manager_impl.go:232-240 | a fan-out never reaches anyone but active subscriptions, and without faults all of them |
| Manager.Manager.RegisterTopic | manager_impl.go:37-70 | if and only if no topic of the agency has the pattern, and no fault, stores one with the requested pattern, domain, action, service and description; otherwise reports it registered |
| Manager.Manager.RegisterTopics | manager_impl.go:72-90 | skips on an equal cached hash, or an empty one where none is cached; otherwise success leaves a topic for every requested pattern, each new one as requested, and the hash cached; failure leaves the cache alone, and a fault-free call succeeds |
| Manager.Manager.UpsertTopic | manager_impl.go:92-98 | on success the topic exists, created now or before |
| Manager.Manager.DeleteTopic | manager_impl.go:152-157 | removes the entity of that ID in the agency and nothing else |
| Manager.Manager.RecordEvent | manager_impl.go:161-246 | exactly which faults make it fail; an error leaves at most a topic as requested; success leaves the event with all requested properties, published now unless said otherwise, its for_topic edge, one pending delivery for each subscription active on the topic save those whose own creation failed, and all there was |
| Manager.Manager.ListEvents | manager_impl.go:259-299 | of the agency's events with the non-empty fields of the query, those that survive the fence: all of them, or the first `limit` when it is positive and smaller |
| Manager.Manager.Subscribe | manager_impl.go:303-384 | for every cache content and fault schedule: exactly which faults make it fail, and then no entity changes; success means an existing subscription of the service to the pattern, with nothing changed, or where there is none a new active one as requested, with the subscribes_to edge drawn unless exactly the store call behind the creation fails |
| Manager.Manager.UpdateSubscription | manager_impl.go:426-441 | sets exactly the status and updated_at of the entity of that ID in the agency |
| Manager.Manager.Unsubscribe | manager_impl.go:443-451 | removes the entity of that ID in the agency |
| Manager.Manager.GetSubscribersForTopic | manager_impl.go:455-472 | lists exactly the agency's subscriptions with status active and the topic as pattern, each once |
| Manager.Manager.RecordDelivery | manager_impl.go:474-492 | stores one delivery of the event to the subscription, pending and with the given stamps |
| Manager.Manager.MarkDelivered | manager_impl.go:494-507 | sets exactly the status delivered, last_attempted_at and updated_at of the entity of that ID |
| Manager.Manager.Ack | manager_impl.go:509-540 | on success the first listed delivery of the pair was acknowledged before and nothing changed, or is now, with acked_at and updated_at; reports a missing one |
| Manager.Manager.Reachable | manager_impl.go:37-540 | every store an object reaches without direct RecordDelivery calls keeps the unique keys |
| Manager.Manager.Conserved | manager_impl.go:231-240 | an object without faults holds the deliveries it began with and, for each event recorded since, one per subscription of the agency active on exactly its topic then |
| Manager.Manager.NewSubscriberReached | manager_impl.go:205-384 | in an object without faults each subscription that Subscribe created got exactly one delivery of every event recorded on its pattern, as long as no call was given its ID |
| Topics.DomainFromTopic | internal/server/server.go:324-331 | the scan finds the part before the first dot |
| Topics.ActionFromTopic | internal/server/server.go:333-341 | the scan finds the part behind the last dot |
| Topics.DomainShape | internal/server/server.go:324-331 | the domain is the longest dot-free beginning |
| Topics.ActionShape | internal/server/server.go:333-341 | the action is the longest dot-free ending |
| Topics.SelectsExactly | internal/server/server.go:65-67 | which topics any query selects: those that are its first segment or open with it and a dot, and are its last or close with a dot and it, where an empty segment does not matter |
| Topics.SelectsPrecisely | internal/server/server.go:65-67 | among two-segment topics a query selects its own topic only |
| Topics.MiddleOverlooked | internal/server/server.go:65-67 | whatever lies between the first and the last segment is overlooked |
| EventLog.Scan | manager_impl.go:278-298 | the scan gives the surviving events in listing order: all of them, or the first `limit` when it is positive and smaller |
| EventLog.KeptExactly | manager_impl.go:281-293 | exactly the events that are unstamped or not before the fence survive, each once |
| EventLog.FenceMonotone | manager_impl.go:281-292 | raising the fence only filters the earlier answer further |
| EventLog.FenceChronological | manager_impl.go:285-291 | on the server's stamps the string fence is a chronological one, by publication or else by creation |
| Server.Server.Publish | internal/server/server.go:34-50 | exactly which faults make it fail; on success the store holds an event for the given agency, or the server's own where none is given, with the given topic, content and source and the projections of its topic, delivered to every subscription active on the topic save those whose own delivery failed; exactly it is added to the recorded events |
| Server.QueryComplete | internal/server/server.go:34-79 | after any run in which every recorded event was projected, with whatever other calls of the right types in between, a listing for a query holds exactly the events ever recorded for the agency whose topic it selects |
| Server.LeftRun | internal/server/server.go:34-50 | whatever IDs the calls are given, the stored events are the recorded ones but those whose ID was given to DeleteTopic or Unsubscribe, each with all it was recorded with but what status updates write |
| Server.QueryExact | internal/server/server.go:34-79 | so without assuming types a listing for a query holds exactly the recorded events it selects but those |
| Server.Server.QueryEvents | internal/server/server.go:63-79 | answers with the first `limit` of the surviving events of such a listing, or all of them when it is not positive or not smaller; so with no limit and no fence with exactly those events, each once |
| Server.Server.RegisterTopics | internal/server/server.go:101-116 | unless skipped, success leaves a topic for every pattern; each new topic is for one of the patterns, of the service, with the pattern's projections |
| Server.ProjectPatterns | internal/server/server.go:103-111 | one request per pattern, with the pattern's projections |

## Left out

- Wildcard patterns, the subscription index, retry and backoff, idempotency keys and pagination: described in `documentation/`, not in the code.
- Notifications to Cross: best effort, results discarded.
- Payloads and attributes are opaque strings: base64 and JSON are library code. `attempt_count`, always 0, is not kept.
- TwoRuns.NonInterference: direct RecordDelivery calls are not among the requests, because with two deliveries for one pair the answer of Ack depends on the listing order alone; requests carry their clock readings; edges are compared in the acts that draw them.
- The clock: each call takes one reading as a parameter, where RecordEvent and RegisterTopic inside it read it more than once; a reading's year has four digits. `time.Parse` is a parameter of the backend; `Drain.Readings` states what the losslessness condition needs of it.
- Topic strings are sequences of bytes; the source ranges over runes, which meets the same dots.
- Backend.SortMessages: sort.Slice sorts a slice in place and unstably; the method builds the result by insertion into a sequence, and its contract promises any ordered permutation, so in-place update is not captured.
- The store's own uniqueness constraints, and whether a failed store call may have taken effect: the store library is not part of this model.
- Concurrency beyond Subscribe: all other theorems are about calls that do not overlap.
- EnsureAgency, the plain Get and List wrappers, the converters to wire types and the mapping of error codes: each is settled by one branch.
- The ArangoDB connection, gRPC wiring, registrar and configuration: plumbing.
