# Verified model of the dashboard's hard core

This project models the parts of the dashboard where several steps, several actors or a whole
run decide what is correct, and proves what holds over all of them.

* **Event bus** (`EventCursor`, `EventBus`, `BusHistory`, `BusRetention`, `BusDelivery`,
  `BusLaws`, `BusTheorems`, `BusOverflow`, `BusAmbiguity`, `BusService`, `StreamSse`,
  `ClientView`). The bounded publish/subscribe bus, its lanes, shared replay budget, resume
  cursors and resets, and the server-sent event stream of one subscription. `EventBus` gives
  each operation as a function on states; `BusService` is the object the service mutates, each
  method proved equal to that function; `BusHistory` adds the publication log and the
  subscriptions' histories, and the theorems compare the two over every run.
* **Graphs** (`SearchForest`, `ScheduleCycles`, `ImpactGraph`). The explicit-stack cycle search
  with the forest it grows, and the bounded breadth-first impact search.
* **Protocols** (`BoundedExecutor`, `IndexRead`, `ReportSnapshots`, `ReportStore`, `AlertGate`,
  `RateLimits`). A thread executor over every interleaving, an optimistic double read against a
  concurrent writer, a write-once store, an alert gate and two rate limiters.
* **Arithmetic and aggregation** (`Forecasting`, `ForecastArtifacts`, `Counters`, `Pagination`).
  Bootstrap forecasts over an explicit draw stream, deduplication and group-by conservation,
  cursor pagination of server and client together.
* **Shared** (`Wrappers`, `Base64`, `PythonInt`, `Sorting`, `Grouping`).

`dafny verify dfyconfig.toml` checks everything.

## Findings

Where a natural claim is too strong, the true one is proved with a witness or an exact
condition.

* *Resume floor.* Appending to a full deque drops its oldest event without moving the resume
  floor (`src/skdashboard/dashboard_kanban.py:620-621`). An accepted cursor is gapless exactly
  when it is in the deque or the deque was not appended to while full since the floor was set
  (`BusTheorems.ResumeOutcome`); `BusOverflow.FloorCanSkip` is the witness, for every bound of
  at least two. That condition is about the lane's past: two runs can leave the very same bus
  and differ in it (`BusAmbiguity.StateCannotTell`), so no look at the bus before the call
  decides it. What such a look can promise is `BusTheorems.SafeResume`: a retained cursor, a
  deque below the bound, or an oldest event that carries the very next number.
* *Cycle membership.* The search does not report every node of a cycle: on the edges a to b,
  b to a, a to c, c to b it reports a and b but not c (`ScheduleCycles.SomeNodesStayUnreported`).
  It reports a node exactly when an edge leads from a node at or below it in the search forest
  to one at or above it (`ScheduleCycles.Cycles`). That forest is defined on the graph and the
  order of its ids without the search, and unique (`SearchForest.ForestIsUnique`), so the
  condition can be checked before the call; a node on a cycle that no earlier id reaches always
  meets it (`ScheduleCycles.FirstReachedIsReported`).
* *Alert cooldown.* The comment at `src/skdashboard/dashboard_fleet.py:529-531` promises that a
  broken sender is retried once per cooldown. That holds in every run for an attempt that left a
  trace (`AlertGate.AttemptsAreSpaced`). When the sender raises or the state write fails there
  is none, and `AlertGate.UnrecordedAttemptRepeats` shows that exactly then the same errors are
  attempted again within the interval.

## Conventions

Python text is `string`, read as code points; JSON values appear as the text or the fields the
code looks at. Exceptions are `Option` or result datatypes. Times are `real` or `int`. SHA-256
digests, JSON decoding and the checks that each concern one field are functions the model
takes as parameters; where a law needs an injective digest it says so. Files read by a method
are what an arbitrary sequence of file contents holds at successive instants. The random
generator is an arbitrary function of seed, range and position.

## Model

| member | source | states |
|---|---|---|
| BusTheorems.Delivery | src/skdashboard/dashboard_kanban.py:528-635 | In every run of publish, open, close and take steps, for every subscription: items taken, then items queued, are exactly the topic-filtered log of its own lane since it opened, in order, while it hangs on its lane, and afterwards a prefix of that log, at most followed by one reset; when its start was not lost the same holds with its replay in front, for the log after its starting point |
| BusTheorems.DetachedIsFinal | src/skdashboard/dashboard_kanban.py:563-579 | A queue that is off its lane never receives another item and never hangs on a lane again, whatever step follows; only its consumer shortens it, so a reset is the last item it ever yields |
| BusTheorems.DetachedIsLoose | src/skdashboard/dashboard_kanban.py:563-579 | In reachable worlds a subscription that left its own lane hangs on no lane at all |
| BusTheorems.ReplayIsSuffix | src/skdashboard/dashboard_kanban.py:474-489 | In every reachable state the deque of a lane is a contiguous suffix of everything ever published to that boundary, also after the lane was evicted and created again |
| BusTheorems.OneWindow | src/skdashboard/dashboard_kanban.py:581-587 | The replay budget is one window over all lanes: an event newer than some retained event of any lane, and published after its own lane was created, is retained |
| BusTheorems.WithinBounds | src/skdashboard/dashboard_kanban.py:455-461 | In every reachable state lanes, total replay, total subscribers and every queue stay within the bound, and sequence numbers increase strictly over the log of all lanes |
| BusTheorems.ResumeOutcome | src/skdashboard/dashboard_kanban.py:536-556 | Opening with a decoded cursor is refused exactly when the cursor is foreign, from the future or unknown; when it is accepted the replay is the whole log after the cursor if and only if the cursor is still in the deque or the full deque was not appended to since the resume floor was set; a deque below the bound is never in the bad case |
| BusTheorems.AttachOutcome | src/skdashboard/dashboard_kanban.py:536-561 | The same case analysis for the part of opening that follows finding the lane |
| BusTheorems.SafeResume | src/skdashboard/dashboard_kanban.py:536-556 | What a look at the lane before the call can promise: when the cursor is retained, or the deque is below the bound, or its oldest event is the very next number, an accepted cursor resumes with the whole log after it |
| BusOverflow.FloorCanSkip | src/skdashboard/dashboard_kanban.py:620-621 | For every bound of at least two, every two boundaries and every acceptable message there is a run after which a cursor equal to the resume floor is accepted although the replay misses an event: appending to a full deque drops its oldest event without touching the floor |
| BusAmbiguity.StateCannotTell | src/skdashboard/dashboard_kanban.py:536-556 | For every bound of at least two there are two runs that leave the very same bus, on which the same cursor is accepted through the resume floor: after one its replay misses an event, after the other it is the whole log after the cursor |
| BusAmbiguity.NumberIsLost | src/skdashboard/dashboard_kanban.py:617-618 | A publication to an invalid boundary only takes a sequence number |
| BusLaws.ResumeIsGapless | src/skdashboard/dashboard_kanban.py:538-556 | In any world that keeps the retention invariant, a resumable cursor is gapless if and only if it is in the deque or its lane has not gone stale |
| BusTheorems.LanesAreIsolated | src/skdashboard/dashboard_kanban.py:491-550 | A step on one boundary leaves every other lane as it was, except that the other lane may lose its oldest replay events or be evicted while it has no subscriber; the queues of its subscribers are untouched |
| BusTheorems.RunsAreIsolated | src/skdashboard/dashboard_kanban.py:491-550 | The same in every reachable state, where no queue hangs on two lanes |
| BusTheorems.PublishedIdResumes | src/skdashboard/dashboard_kanban.py:491-556 | The id of a published event within the length limit, sent back as cursor: on its own lane, while retained and with room, it resumes with exactly the later events of that lane; on a boundary with another digest it is always refused |
| BusTheorems.LogIsMinted | src/skdashboard/dashboard_kanban.py:617-619 | Every event of every run carries the id minted from its own lane and its own sequence number |
| BusTheorems.StandardIsFaithful | src/skdashboard/dashboard_kanban.py:491-494 | The configuration the service uses mints ids with its stream id, the boundary digest and the sequence number |
| BusLaws.RunGood | src/skdashboard/dashboard_kanban.py:446-635 | Every run keeps the whole bus invariant: retention, bounds, staleness, enrolment and delivery |
| BusLaws.NextGood | src/skdashboard/dashboard_kanban.py:446-635 | Each single step keeps that invariant |
| BusLaws.PublishGood | src/skdashboard/dashboard_kanban.py:589-635 | Publishing keeps the invariant, on success and on producer failure |
| BusLaws.OpenGood | src/skdashboard/dashboard_kanban.py:528-561 | Opening keeps the invariant, with every outcome |
| BusLaws.CloseGood | src/skdashboard/dashboard_kanban.py:563-566 | Closing keeps the invariant |
| BusLaws.TakeGood | src/skdashboard/dashboard_kanban.py:646-719 | Taking an item from a queue keeps the invariant |
| BusLaws.LegacyGood | src/skdashboard/dashboard_kanban.py:455-464 | The unpartitioned subscribers share the subscriber bound and disturb nothing else |
| BusLaws.StaleGivesWay | src/skdashboard/dashboard_kanban.py:581-587 | A stale lane fills the whole budget, so the next event on another lane trims it and sets a fresh resume floor |
| BusRetention.EnterKeeps | src/skdashboard/dashboard_kanban.py:474-489 | Finding, creating and evicting lanes keeps every deque equal to the log above its starting point |
| BusRetention.StoreKeeps | src/skdashboard/dashboard_kanban.py:620 | Appending to a lane keeps every deque equal to the log above its starting point, also when the deque overflows |
| BusRetention.TrimKeeps | src/skdashboard/dashboard_kanban.py:581-587 | Trimming drops the oldest retained event of all lanes and keeps every deque equal to the log above its starting point |
| BusDelivery.FanOutDelivers | src/skdashboard/dashboard_kanban.py:622-629 | Handing an event to the subscribers keeps every view equal to the wanted log, or settled by a reset when the queue was full |
| BusDelivery.ResetDelivers | src/skdashboard/dashboard_kanban.py:574-579 | A producer failure settles every subscriber of the lane with one reset |
| BusDelivery.TakeDelivers | src/skdashboard/dashboard_kanban.py:646-719 | Taking an item moves it from the queued to the taken part of the view and changes nothing else |
| BusHistory.HistoryFollows | src/skdashboard/dashboard_kanban.py:446-635 | The recorded history never influences the bus: its bus part is what the step does to the bus alone |
| BusHistory.NextIsWellFormed | src/skdashboard/dashboard_kanban.py:446-635 | Every step keeps the lane table, the recency order and the queue table consistent |
| EventBus.Oldest | src/skdashboard/dashboard_kanban.py:583-586 | The lane that gives way is one whose oldest retained event is the oldest of all; there is none only when all deques are empty |
| EventBus.FirstIdle | src/skdashboard/dashboard_kanban.py:480-484 | The lane to evict is the least recently used one without subscribers; there is none only when every lane has one |
| EventBus.TrimIsWellFormed | src/skdashboard/dashboard_kanban.py:581-587 | Trimming terminates, ends within the budget and changes neither the lanes that exist, nor their order, nor any queue |
| EventBus.DropShrinks | src/skdashboard/dashboard_kanban.py:587 | Dropping one event lowers the total replay by exactly one |
| EventBus.EnterIsWellFormed | src/skdashboard/dashboard_kanban.py:474-489 | Finding a lane yields a consistent table that holds the lane |
| BusService.Bus.constructor | src/skdashboard/dashboard_kanban.py:449-453 | A new bus is empty |
| BusService.Bus.ReplaySize | src/skdashboard/dashboard_kanban.py:637-639 | Adds up all deque lengths |
| BusService.Bus.SubscriberCount | src/skdashboard/dashboard_kanban.py:641-643 | Adds up all subscribers, unpartitioned ones included |
| BusService.Bus.FindIdle | src/skdashboard/dashboard_kanban.py:480-484 | The first lane without subscribers in recency order |
| BusService.Bus.EnterLane | src/skdashboard/dashboard_kanban.py:474-489 | Updates the lane table in place to exactly what finding the lane means, or fails leaving it alone |
| BusService.Bus.OpenStream | src/skdashboard/dashboard_kanban.py:528-561 | Opens exactly as the value-level step does, for every cursor, topic set and boundary |
| BusService.Bus.AttachStream | src/skdashboard/dashboard_kanban.py:536-561 | The part of opening after the lane was found |
| BusService.Bus.AddSubscriber | src/skdashboard/dashboard_kanban.py:557-561 | Adds one fresh empty queue to the lane |
| BusService.Bus.CloseStream | src/skdashboard/dashboard_kanban.py:563-566 | Removes the queue from its lane if both exist |
| BusService.Bus.ReplaceWithReset | src/skdashboard/dashboard_kanban.py:568-572 | Empties a queue and leaves one reset in it |
| BusService.Bus.ResetAll | src/skdashboard/dashboard_kanban.py:574-579 | Resets and removes every subscriber of the lane, in a loop over them |
| BusService.Bus.FindOldest | src/skdashboard/dashboard_kanban.py:583-586 | The lane with the oldest head, by a scan |
| BusService.Bus.TrimReplay | src/skdashboard/dashboard_kanban.py:581-587 | Drops oldest events until the budget holds, setting resume floors |
| BusService.Bus.StoreEvent | src/skdashboard/dashboard_kanban.py:620 | Appends to the bounded deque |
| BusService.Bus.Deliveries | src/skdashboard/dashboard_kanban.py:622-629 | Offers the event to every interested subscriber, resetting full queues, whatever the order of the loop |
| BusService.Bus.DeliverTo | src/skdashboard/dashboard_kanban.py:623-629 | One subscriber of that loop |
| BusService.Bus.SpreadEvent | src/skdashboard/dashboard_kanban.py:620-629 | Appends, trims and hands out in that order |
| BusService.Bus.PublishMessage | src/skdashboard/dashboard_kanban.py:589-635 | The whole of publish, with its address check |
| BusService.Bus.PublishToLane | src/skdashboard/dashboard_kanban.py:599-635 | Refuses an unacceptable message by resetting the lane, otherwise takes a number and announces |
| BusService.Bus.AnnounceMessage | src/skdashboard/dashboard_kanban.py:617-635 | Takes the number before it finds the lane, so a failing lane loses a number |
| BusService.Bus.SubscribeLegacy | src/skdashboard/dashboard_kanban.py:455-461 | Adds an unpartitioned subscriber within the bound |
| BusService.Bus.UnsubscribeLegacy | src/skdashboard/dashboard_kanban.py:463-464 | Removes it |
| ClientView.ClientSeesTheLog | src/skdashboard/dashboard_kanban.py:646-719 | Bus and stream together: the event frames a client is sent are a prefix of what was published on its lane for its topics since its starting point |
| EventCursor.EventIdRoundTrip | src/skdashboard/dashboard_kanban.py:491-526 | Decoding inverts minting for every stream id of 32 characters, every boundary and every sequence number from 1 on, within the length limit |
| EventCursor.EventIdLength | src/skdashboard/dashboard_kanban.py:491-498 | The length limit is met exactly by sequence numbers of at most 300 digits |
| EventCursor.BoundaryIdInjective | src/skdashboard/dashboard_kanban.py:467-472 | Two boundaries share a boundary id only when their digests are equal |
| Base64.RoundTrip | src/skdashboard/dashboard_kanban.py:491-507 | Decoding inverts unpadded base64url encoding (section 5 of RFC 4648) of every byte string |
| PythonInt.ParsePrint | src/skdashboard/dashboard_kanban.py:516 | Reading a decimal number gives back every number printed |
| StreamSse.StreamSubscription | src/skdashboard/dashboard_kanban.py:646-719 | For every schedule of arrivals, timeouts, authority answers and disconnections: events are a prefix of replay followed by queue order and none is skipped; every frame but the authority reset directly follows a successful check; after the first failed check the only output is one authority reset; no event follows a reset; the subscription and then the authority are closed on every exit; unless authority or consumer cut it off, everything that arrived is sent, and one heartbeat to begin with and every one that fell due |
| StreamSse.DueEveryKth | src/skdashboard/dashboard_kanban.py:693-706 | Heartbeats due are one for every k-th wait that times out, for the least k with k timeouts as long as the heartbeat period, however arrivals are mixed in |
| StreamSse.Stream.ServeNext | src/skdashboard/dashboard_kanban.py:693-714 | One turn of the loop: one wait, its item or its heartbeat when that is due, and the time waited since the last heartbeat |
| StreamSse.AcceptedIsGuarded | src/skdashboard/dashboard_kanban.py:658-719 | Any trace the protocol accepts has each frame directly after a successful check and nothing but the authority reset after a failed one |
| StreamSse.AcceptedIsClosed | src/skdashboard/dashboard_kanban.py:716-719 | Any accepted trace ends by closing the subscription and then the authority |
| StreamSse.AcceptedResetEnds | src/skdashboard/dashboard_kanban.py:670-715 | No accepted trace sends an event after a reset |
| StreamSse.Stream.AuthorityIsCurrent | src/skdashboard/dashboard_kanban.py:658-659 | Asks the authority once when there is one, and records its answer |
| StreamSse.Stream.AuthorityReset | src/skdashboard/dashboard_kanban.py:661-663 | Closes the subscription and sends the one reset of a lost authority |
| StreamSse.Stream.Proceed | src/skdashboard/dashboard_kanban.py:671-673 | A check that either lets the stream go on or ends it with the authority reset |
| StreamSse.Stream.ServeReset | src/skdashboard/dashboard_kanban.py:670-682 | The stream of a refused subscription: its reset, then at most one heartbeat |
| StreamSse.Stream.FollowReset | src/skdashboard/dashboard_kanban.py:678-682 | The heartbeat after that reset, again only behind a check |
| StreamSse.Stream.ServeReplay | src/skdashboard/dashboard_kanban.py:683-692 | Sends the whole replay in order and then a heartbeat, unless the stream ends on the way |
| StreamSse.Stream.ServeQueue | src/skdashboard/dashboard_kanban.py:693-715 | Sends everything that arrives in order, until a reset, a failed check or a disconnection |
| StreamSse.Stream.ServeItem | src/skdashboard/dashboard_kanban.py:706-715 | One arrived item: its event, or its reset as the last frame |
| StreamSse.Stream.ServeTimeout | src/skdashboard/dashboard_kanban.py:696-705 | One timed-out wait: a check, and a heartbeat when enough time has passed |
| StreamSse.Stream.WaitNext | src/skdashboard/dashboard_kanban.py:694-695 | One wait consumes exactly the next item |
| StreamSse.Stream.Finish | src/skdashboard/dashboard_kanban.py:716-719 | Both resources are closed |
| ScheduleCycles.Cycles | src/skdashboard/dashboard_schedule.py:660-691 | Every node returned lies on a directed cycle, every directed cycle has an edge with both ends in the set, and so the set is empty exactly when the graph is acyclic; a node is returned if and only if an edge leads from a node at or below it in the search forest to a node at or above it |
| ScheduleCycles.ReportIsDetermined | src/skdashboard/dashboard_schedule.py:660-691 | The edge records and ids alone settle the order, the forest and the set returned |
| ScheduleCycles.FirstReachedIsReported | src/skdashboard/dashboard_schedule.py:668-690 | A node on a cycle that no earlier id reaches is returned |
| SearchForest.ForestIsUnique | src/skdashboard/dashboard_schedule.py:668-690 | The forest, described without the search as the paths whose every step is the first choice from which their end can still be reached off the path so far, is fixed by the graph and the order of its roots |
| SearchForest.NewPath | src/skdashboard/dashboard_schedule.py:689-690 | A node the search descends to has the stack as its path in that forest |
| SearchForest.BackSpansTheRest | src/skdashboard/dashboard_schedule.py:687-688 | The edge from the top of the path back onto it spans exactly the nodes the search reports for it |
| ScheduleCycles.MarkCycles | src/skdashboard/dashboard_schedule.py:660-697 | The same for the edge records given with their sorted ids, and each edge is labelled as the source labels it, so every cycle of known edges carries a label |
| ScheduleCycles.BuildGraph | src/skdashboard/dashboard_schedule.py:661-664 | The graph lists the targets of each node in the order of its known edges that name one |
| ScheduleCycles.Search | src/skdashboard/dashboard_schedule.py:671-690 | One root: the explicit-stack search ends, by unvisited nodes and then unexamined edges, with the root finished, everything reported on a cycle, every finished node ranked after the targets of its uncaught edges, and the forest grown by exactly the nodes found |
| ScheduleCycles.FollowEdge | src/skdashboard/dashboard_schedule.py:685-690 | The three ways the next edge is treated: back onto the path, onto a new node, or onto a finished one |
| ScheduleCycles.CycleCaught | src/skdashboard/dashboard_schedule.py:685-690 | No cycle escapes: along uncaught edges the finishing rank strictly falls, so some edge of every cycle was caught |
| ScheduleCycles.LoopIsCycle | src/skdashboard/dashboard_schedule.py:687-688 | An edge back to a node on the path closes a directed cycle through the rest of the path |
| ScheduleCycles.EmptyIsAcyclic | src/skdashboard/dashboard_schedule.py:660-697 | A sound set that hits every cycle is empty exactly on acyclic graphs |
| ScheduleCycles.SomeNodesStayUnreported | src/skdashboard/dashboard_schedule.py:660-697 | On the edges a to b, b to a, a to c, c to b the search returns exactly a and b, although c lies on the cycle c, b, a, and labels both edges at c acyclic |
| ScheduleCycles.KiteReported | src/skdashboard/dashboard_schedule.py:660-691 | That result follows from the contract of the search alone |
| BoundedExecutor.ExecutorIsSafe | src/skdashboard/dashboard_schedule.py:33-59 | In every interleaving: accepted calls start in order and at most once, at most `workers` wait and at most `workers` run, each on one worker, and whatever a caller receives is the outcome of its own call |
| BoundedExecutor.WorkerNeverBlocks | src/skdashboard/dashboard_schedule.py:39-45 | A worker can always take its next step unless it is idle with nothing waiting, even after its caller gave up |
| BoundedExecutor.TimeoutMeansUnfinished | src/skdashboard/dashboard_schedule.py:53-56 | A caller gives up only while its call still waits or runs |
| BoundedExecutor.WorkFalls | src/skdashboard/dashboard_schedule.py:39-45 | Every worker step uses up one unit of work, so workers come to rest without outside help |
| BoundedExecutor.RestMeansDone | src/skdashboard/dashboard_schedule.py:39-56 | At rest every accepted call has run and every caller still waiting has its own result in its queue |
| BoundedExecutor.ScheduleGood | src/skdashboard/dashboard_schedule.py:33-59 | Every state of every schedule satisfies the invariant |
| BoundedExecutor.NextGood | src/skdashboard/dashboard_schedule.py:33-59 | Each step of callers and workers keeps the invariant |
| ImpactGraph.Impacted | src/skdashboard/dashboard_architecture.py:235-276 | Each dependent once, never the root, at most `max_nodes`, nearest first and at its shortest distance; all dependents within the depth limit when they fit, otherwise as many as fit and none farther than one left out; truncated exactly when a cut was made; every reported cycle is a walk ending on a node already in it |
| ImpactGraph.UntruncatedIsComplete | src/skdashboard/dashboard_architecture.py:235-276 | Without truncation the list is the whole transitive set of dependents |
| ImpactGraph.ExpandTarget | src/skdashboard/dashboard_architecture.py:254-275 | The inner loop over the sorted links of one node keeps the search invariant, or stops at the node limit with the promised result |
| ImpactGraph.BuildReverse | src/skdashboard/dashboard_architecture.py:324-330 | The reverse map links a source to a target exactly when the source declares a depends_on or runs_on relationship to it |
| IndexRead.ReadObservations | src/skdashboard/dashboard_skcounter.py:537-590 | The retry loop, for every sequence of file contents: at most three attempts, each reading index, sources, index |
| IndexRead.ReportsRestOnOneIndex | src/skdashboard/dashboard_skcounter.py:537-590 | Whenever current, partial or empty is reported, either one index generation held before and after all source reads and the report is what was read in between, or there was no index and the report is what the acknowledged snapshots gave |
| IndexRead.ConfirmedIsFaithful | src/skdashboard/dashboard_skcounter.py:471-534 | A confirmed report holds whole contributions only, each from a source whose bytes hash to what every index entry of that source names, each read between the two index reads, in path order, within the byte budget; it is partial exactly when some source is missing |
| IndexRead.CompleteReadingsAgree | src/skdashboard/dashboard_skcounter.py:471-590 | With a collision-free hash, two complete readings that confirmed the same index bytes are equal, whatever a concurrent writer did |
| IndexRead.ErrorFreeReadsAgree | src/skdashboard/dashboard_skcounter.py:471-534 | With a collision-free hash, source reads without errors are a function of the index alone |
| IndexRead.ChangingMeansDisturbed | src/skdashboard/dashboard_skcounter.py:571-590 | The status changing is reported exactly when every allowed attempt found a good index at its start and something else at its end |
| IndexRead.PartsAreVouched | src/skdashboard/dashboard_skcounter.py:471-534 | Each part kept is vouched for by a different source, in order |
| IndexRead.PartsFitTheBudget | src/skdashboard/dashboard_skcounter.py:487-490 | The bytes behind the parts kept never exceed the budget, although the running total also counts rejected sources |
| IndexRead.NoErrorMeansAll | src/skdashboard/dashboard_skcounter.py:531-534 | The capped error list is empty exactly when every source gave its part |
| IndexRead.SourcesAreReadOnce | src/skdashboard/dashboard_skcounter.py:472-481 | Each source some entry names is read once and no other, for exactly the entries that name it |
| IndexRead.ReadIndexedSources | src/skdashboard/dashboard_skcounter.py:471-534 | Groups the entries by source, reads the sources in path order and collects observations, rows and errors |
| IndexRead.ReadOneSource | src/skdashboard/dashboard_skcounter.py:482-530 | One source gives its whole selection or nothing, with the bytes it cost |
| IndexRead.SelectRows | src/skdashboard/dashboard_skcounter.py:499-519 | All rows selected by the entries of a source, or none when one entry does not match its provenance or names a missing bucket |
| IndexRead.ReadOnce | src/skdashboard/dashboard_skcounter.py:542-583 | One attempt of the retry loop |
| IndexRead.HasDistinctKeys | src/skdashboard/dashboard_skcounter.py:457-465 | The index is refused when two entries share their logical key |
| Counters.LatestRows | src/skdashboard/dashboard_skcounter.py:646-665 | The dictionary loop yields one row per key, in order of first appearance |
| Counters.LatestKeepsWinners | src/skdashboard/dashboard_skcounter.py:662-665 | A row is kept exactly when it is the newest with its key and the earliest listed among equally new ones; no two kept rows share a key |
| Counters.LatestAbsorbs | src/skdashboard/dashboard_skcounter.py:646-665 | Deduplicating kept rows together with later rows equals deduplicating everything |
| Counters.LatestIsIdempotent | src/skdashboard/dashboard_skcounter.py:646-665 | Deduplicating twice changes nothing |
| Counters.Summarize | src/skdashboard/dashboard_skcounter.py:687-732 | The accumulation loop computes sums, maxima, pricing revisions and the cost state of the rows |
| Counters.FlagsJoin | src/skdashboard/dashboard_skcounter.py:725-731 | The cost state read off the flags is the join of the rows' own states |
| Counters.Breakdown | src/skdashboard/dashboard_skcounter.py:735-757 | Groups by label and sorts by falling total and then label |
| Counters.Series | src/skdashboard/dashboard_skcounter.py:760-768 | Groups by hour or day and sorts by bucket |
| Counters.BreakdownConserves | src/skdashboard/dashboard_skcounter.py:735-757 | The groups of every breakdown add up to the summary of the same rows: sums add, maxima agree, cost states join, revisions unite |
| Counters.SeriesConserves | src/skdashboard/dashboard_skcounter.py:760-768 | The same for every series |
| Counters.BreakdownLists | src/skdashboard/dashboard_skcounter.py:735-757 | A breakdown lists each label some row carries once, with the summary of exactly the rows that carry it, in the promised order |
| Grouping.GroupBy | src/skdashboard/dashboard_skcounter.py:735-741 | Grouping into an insertion-ordered dictionary keeps, per key, the rows with that key in order |
| Grouping.GroupsAddUp | src/skdashboard/dashboard_skcounter.py:735-768 | For any commutative accumulation the totals of groups under distinct keys that cover the rows add up to the total of the rows |
| ReportSnapshots.BuildReportSnapshot | src/skdashboard/dashboard_reports.py:230-345 | An acceptable request yields the assembled snapshot, which validates; it is refused exactly when the request is unacceptable or supersedes the id it is given |
| ReportSnapshots.CollectHashes | src/skdashboard/dashboard_reports.py:309-315 | The conflict-checking loop gives the mapping the validator recomputes when no two metrics disagree, and fails exactly when two do |
| ReportSnapshots.CollectProvenance | src/skdashboard/dashboard_reports.py:216-227 | The distinct provenances in order of first use, failing exactly when an insight has none |
| ReportSnapshots.ValidIdsIdentify | src/skdashboard/dashboard_reports.py:366-377 | With collision-free ids an id identifies a valid snapshot |
| ReportStore.ContentIsForever | src/skdashboard/dashboard_reports.py:601-628 | Stored content never changes, whatever is offered later |
| ReportStore.AcceptedIsKept | src/skdashboard/dashboard_reports.py:601-660 | A put that was accepted can be read back for ever, and repeating it is accepted with the same answer and changes nothing |
| ReportStore.StoreInvariant | src/skdashboard/dashboard_reports.py:601-660 | In every reachable store each file is readable under its own id and every superseded id is stored |
| ReportStore.NothingIsCorrupt | src/skdashboard/dashboard_reports.py:630-660 | In a store only put writes, reading succeeds exactly for the stored ids and never finds a corrupt file |
| ReportStore.NoPutConflicts | src/skdashboard/dashboard_reports.py:614-620 | When an id identifies a valid snapshot no put ever conflicts |
| ReportStore.ReportsNeverConflict | src/skdashboard/dashboard_reports.py:614-620 | So with the snapshot rules and collision-free ids no put ever conflicts |
| ReportStore.ChainsAreFinite | src/skdashboard/dashboard_reports.py:601-628 | A chain of supersession links visits no id twice and is no longer than the run |
| ReportStore.ChainReachesOriginal | src/skdashboard/dashboard_reports.py:601-628 | From every stored id the links lead to a snapshot that supersedes nothing |
| ReportStore.SupersededIsOlder | src/skdashboard/dashboard_reports.py:603-605 | A superseded snapshot was stored by an earlier put |
| ReportStore.ReportSnapshotStore.PutSnapshot | src/skdashboard/dashboard_reports.py:601-628 | Validates, looks up the superseded id, and creates the file once or compares with the existing one |
| ReportStore.ReportSnapshotStore.ReadSnapshot | src/skdashboard/dashboard_reports.py:630-660 | Reads, validates and checks the id, with its four ways to fail |
| AlertGate.Gate.MaybeAlert | src/skdashboard/dashboard_fleet.py:471-542 | One poll: whether the sender is asked, which gate decided, and the state kept afterwards, also when the sender raises or the state file cannot be written |
| AlertGate.AsksWhenOwed | src/skdashboard/dashboard_fleet.py:499-534 | In every run, whatever sender and disk do, a poll asks the sender exactly when it sees errors other than those it recorded telling the operator last, and the interval since every recorded attempt is over |
| AlertGate.AttemptsAreSpaced | src/skdashboard/dashboard_fleet.py:519-532 | In every run an attempt that left a trace holds off every later attempt for the interval |
| AlertGate.SentStaysSilent | src/skdashboard/dashboard_fleet.py:505-507 | A fingerprint recorded as sent stays silent until another alert is recorded or all is clear |
| AlertGate.PersistentIsOwed | src/skdashboard/dashboard_fleet.py:519-534 | New errors that persist are attempted at the first poll whose cooldown is over and stay owed after every failed attempt |
| AlertGate.RecoveryRearms | src/skdashboard/dashboard_fleet.py:509-517 | After a recorded recovery the same errors alert again as soon as the cooldown is over |
| AlertGate.UnrecordedAttemptRepeats | src/skdashboard/dashboard_fleet.py:528-538 | In every run, when the errors of an attempt are seen again within the interval, they are attempted again if and only if no attempt from the first one on has left a trace: the sender raised or the write failed each time |
| AlertGate.KeepsWhatWasTold | src/skdashboard/dashboard_fleet.py:501-534 | The fingerprint kept is what was last recorded as told to the operator, or as clear |
| AlertGate.KeepsLatestAttempt | src/skdashboard/dashboard_fleet.py:532 | The time kept bounds every earlier recorded attempt |
| AlertGate.FingerprintIsIdentity | src/skdashboard/dashboard_fleet.py:403-414 | Two reports have one fingerprint exactly when they hold the same error findings, in whatever order |
| Forecasting.PrepareHistory | src/skdashboard/forecast.py:119-136 | Sorts, splits off non-canonical periods and refuses overlapping canonical ones |
| Forecasting.HistoryIgnoresOrder | src/skdashboard/forecast.py:119-136 | The canonical history used, and the refusal of overlap, are the same for every permutation of the input |
| Forecasting.AdjoiningIsDisjoint | src/skdashboard/forecast.py:133-135 | Periods that pass the neighbour check are disjoint pair by pair |
| Forecasting.Simulate | src/skdashboard/forecast.py:148-170 | The nested draw loops, over an explicit stream of draws, with the horizon error |
| Forecasting.OutcomesAreLeast | src/skdashboard/forecast.py:159-170 | Each outcome less the blocked periods is the least number of draws that reaches the work, counted from where the iteration before stopped drawing |
| Forecasting.HitIsLeast | src/skdashboard/forecast.py:162-169 | A hitting time is least and within the horizon; there is none exactly when the horizon does not reach the work |
| Forecasting.NearestRankIsThePercentile | src/skdashboard/forecast.py:144-145 | The nearest-rank percentile is one of the outcomes, and the one value with fewer outcomes below it than its rank and at least that many at or below it |
| Forecasting.PercentilesAreOrdered | src/skdashboard/forecast.py:173-174 | p50 <= p85 <= p95 |
| Forecasting.QuantilesShift | src/skdashboard/forecast.py:170-174 | Adding b to every outcome adds b to every quantile |
| Forecasting.BlockedShiftsOutcomes | src/skdashboard/forecast.py:153-170 | Blocking b more periods adds b to every outcome and changes neither the draws used nor the success |
| ForecastArtifacts.RunForecast | src/skdashboard/forecast.py:177-259 | The forecast with its errors, its three reasons to abstain, its quantiles and the outcomes by the milestone |
| ForecastArtifacts.SimulateDependencies | src/skdashboard/forecast.py:262-382 | The baseline forecast and, when it is ready, every scenario in order; one refused scenario refuses all |
| ForecastArtifacts.SimulateScenarios | src/skdashboard/forecast.py:304-381 | The scenario loop |
| ForecastArtifacts.BlockingShifts | src/skdashboard/forecast.py:349-379 | Blocking a scenario for b more periods keeps it accepted, leaves its delivery quantiles alone and moves every completion quantile and every sensitivity by exactly b |
| ForecastArtifacts.OnlyBlocking | src/skdashboard/forecast.py:276-379 | A scenario that only blocks, over a ready forecast: delivery is the forecast and every sensitivity is exactly the blocked periods |
| ForecastArtifacts.RunBacktest | src/skdashboard/forecast.py:399-439 | The rolling-origin loop with its abstentions and errors |
| ForecastArtifacts.ActualPeriods | src/skdashboard/forecast.py:414-422 | The loop over the future periods, stopping at the target |
| ForecastArtifacts.BacktestRecords | src/skdashboard/forecast.py:413-439 | There is one record for each cutoff from the minimum sample on whose future reaches the target, and no other |
| ForecastArtifacts.ActualIsLeast | src/skdashboard/forecast.py:414-422 | The actual periods are the least number of future periods that reach the target, all inside the history |
| ForecastArtifacts.NoLeakage | src/skdashboard/forecast.py:413-439 | Whatever happens to the periods that start on or after a day, in whatever order the history is given, the record whose training ends that day keeps its quantiles |
| ForecastArtifacts.SamePastSamePrefix | src/skdashboard/forecast.py:119-136 | Histories with the same canonical periods before a day have the same canonical prefix up to it |
| ForecastArtifacts.CoverageGrows | src/skdashboard/forecast.py:436-477 | Coverage grows from p50 to p85 to p95, and misses are the records not covered at p95 |
| RateLimits.DequeLimiter.Handle | src/skdashboard/control_plane_api.py:731-752 | The deque limiter admits exactly when fewer than the limit of the whole admission log fall into the preceding 60 seconds: pruning from the left equals filtering the log |
| RateLimits.FilterLimiter.RateLimited | src/skdashboard/gateway_api.py:649-658 | The list limiter decides by the same specification |
| RateLimits.NoBurst | src/skdashboard/control_plane_api.py:731-752 | Under a clock that never runs backwards no window of 60 seconds, wherever it ends, holds more admissions of a key than the limit |
| RateLimits.RefusalMeansFull | src/skdashboard/control_plane_api.py:736-747 | A refused request found a full window |
| Pagination.CursorRoundTrip | src/skdashboard/control_plane_api.py:125-144 | Reading a cursor gives back every offset whose cursor fits the length limit |
| Pagination.CursorLength | src/skdashboard/control_plane_api.py:125-144 | It fits exactly for offsets of at most 381 digits |
| Pagination.PageAt | src/skdashboard/control_plane_api.py:204-217 | A page holds exactly the next items, and a next cursor for what follows exactly when something follows |
| Pagination.Pages | src/skdashboard/control_plane_client.py:357-378 | The client loop against any server, with its four ways to end |
| Pagination.PagesCoverTheList | src/skdashboard/control_plane_client.py:357-378 | Against a fixed list, following cursors from the start yields the list in order, in exactly the expected number of pages, whenever that many requests are allowed, and otherwise a prefix and the page-bound error; no cursor is refused or found repeated |
| Pagination.FollowFrom | src/skdashboard/control_plane_client.py:357-378 | The same from any cursor onward |
| Pagination.PageCountIsCeiling | src/skdashboard/control_plane_api.py:204-217 | The expected number of pages is the ceiling of the length over the limit |

## Left out

- HTTP handlers, routing, headers, HTML, static assets, sessions and identity: plumbing without a law of its own.
- BusService.Bus.PublishMessage: does not model the contents of the unpartitioned subscriber queues (`src/skdashboard/dashboard_kanban.py:630-634`), because they drop their oldest item when full and promise nothing; their share of the subscriber bound is modelled.
- Lanes and queues as separate mutable objects: in `BusService.Bus` they are values in the bus's own maps, and queues are numbered, so aliasing of a queue outside the bus is not captured.
- Python type errors on arguments (a boundary that is not a string, a message that is not a mapping): a message without usable form is one value, `Broken`.
- Length of event data in bytes: measured on the JSON text, which the service makes ASCII.
- Non-ASCII digits and spaces that `int()` also accepts: cursors are decoded from ASCII before.
- ImpactGraph.Impacted: reported cycles are shown to be real, not to be all cycles, because the search reports only those that close on the path it is expanding.
- BoundedExecutor.WorkFalls: counts worker steps, not time; a call that never returns keeps its worker running for ever.
- BoundedExecutor.ExecutorIsSafe: a pool of no workers, whose queue Python makes unbounded, is not modelled; the service creates pools of four.
- Partial writes, crashes and directory permissions in the report store and the alert state file; reads and writes are whole.
- `list` and `compare_report_snapshots` of the report store, and the offline generator: readings of stored snapshots without a run-wide law.
- ReportSnapshots.BuildReportSnapshot: audience, scope, timestamp, section and metric field checks are parameters, because each is settled by one branch, and that a request which passes them gives a snapshot which passes them is an assumption on those parameters; the quality statement is an arbitrary function of the metrics.
- `_read_acknowledged_snapshots`: what the fallback scan returns is an arbitrary value of the instant it is made.
- Texts of errors and alert messages: errors are told apart by kind.
- Counters.Summarize: does not model `cost_usd`, because each group is rounded to eight places and group costs need not add up to the total; the ratios derived from the totals are left out with it.
- `_apply_filters`, facets, collectors and coverage of the usage view: each follows from reading one loop.
- ForecastArtifacts.RunForecast: the confidence is given as a count of outcomes, not divided by the number of iterations, and the descriptive fields of the artifact are left out.
- ForecastArtifacts.RunBacktest: drift, the minimum number of backtests and the final state are left out, and `minimum_sample` is not negative.
- Forecasting.NearestRankIsThePercentile: the rank is computed exactly, while the source multiplies floating-point numbers before it rounds up.
- ForecastArtifacts.SimulateDependencies: which dependency paths a scenario affects and its echoed assumptions are left out, because no number depends on them.
- Pagination.PagesCoverTheList: the list does not change between requests, because offsets promise nothing when it does.
- Request and denial counters of the limiter, and the 304 answer, which hashes only some fields of the body.
- The metric field rules of `_validate_metric`, scope parsing and adapter contracts: each is settled by one branch.
