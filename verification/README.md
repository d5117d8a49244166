# Flowscape: the replication pipeline, modelled and proved

Flowscape folds network flows into a graph on a server, sends snapshots and ticks through
bounded per-client queues, and rebuilds the graph in each browser. This project models that
replication pipeline, and the in-place data structures at its two ends, and proves what they
are for: a browser that is told everything shows the server's graph.

## How it is laid out

- `Wire`, `Ids`: the values on the wire, and that string ids lose nothing. The rest uses keys.
- `GraphModel`: the server's graph as a state machine on values: flows, addresses, expiry,
  messages. `GraphSteps` decomposes each operation into six atomic steps, `GraphInvariants`
  and `GraphAnchors` prove what every step keeps, `GraphHistory` and `NodeHistory` tie every
  conversation and every node to the flows they stand for, `Admission`, `Naming`, `Expiry` and
  `Increments` say which flows count, under which names, for how long, and what of them waits
  for the next tick. `Graph` is the graph with its fields updated in place, each method proved
  to do what the model says.
- `ReplicaModel`, `ReplicaFacts`, `Adjacency`, `Journal`, `Touched`, `Times`: the browser's copy
  and what its reader shows; `GraphState` is the copy updated in place.
- `Coupling`: what a browser knows between two ticks. `Delivery`: what a message does to that.
  `Windows`, `CopyRings`, `Rates`, `JoinedWindows`: what the rings at both ends, and so the
  rates shown, say of the flows.
- `Backpressure`, `Channels`, `Sparks`, `Hub`: the client queues, the life of a channel, the
  sampled events, and the hub with its fields updated in place.
- `Gaps`: what a copy that misses a tick, or gets one twice, shows. `Messages`: how the lists
  of a message grow, and that every state has its messages.
- `System`: all of it as one step relation, with the laws about whole runs. Computing a tick
  and handing it out are separate steps, and flows, joins and reads may come in between.
  `Recovery`: clients that are given every tick, or a new snapshot. `Ledger`, `Shortfalls`:
  what every other client shows too much or too little. `Detachment`: when ticks break the
  adjacency of a copy, and for how long. `Scenarios`: runs in which copies go wrong.
- `Rings`, `ServerRing`, `ClientRing`: per-second counters in reused slots, at both ends.
- `EdgeSlots`, `Particles`: the slot allocator for arcs and the swap-remove particle system.
  `Board`, `SparkLinks`: when a spark under way is still on its own arc.
- `TopCounter`, `Endpoints`, `Sides`, `Placement`: the bounded counters, the node of a flow's
  side, the machine of a workload.

## What the proofs found

- One flow whose nameless remote source has the address that its host destination names
  creates the anchor of a named address again, and that is the only way one comes to be
  (`GraphAnchors.IngestAnchoredExactly`). If clients had been told of the anchor
  (`CollisionExample`), the next tick takes it off every copy though it stays in the graph
  (`Gaps.CollisionLosesNode`). The whole-system results exclude exactly such flows.
- A client that joins between the computing and the handing out of a tick is sent a snapshot
  that contains the tick, and then the tick. With no flow in between, its copy is wrong if and
  only if the tick carries an increment (`Recovery.JoinedMidTick`, `Scenarios.MidTickExample`).
  With any flows it counts the increments twice while the conversations live
  (`Shortfalls.DoubledStays`), and the tick may take a node off it that a flow has brought back
  (`Scenarios.LateDepartureExample`); `Detachment.JoinerLinkedExactly` says exactly when the
  adjacency breaks.
- Only eight undelivered ticks in a row bring a snapshot (`Backpressure.NextDelivery`). Gaps
  that none ends are never made up for: whatever their number and length, the client stays
  short of exactly what the missed ticks carried while the conversation lives
  (`Shortfalls.MissedStays`; `Ledger.LedgerTheorem` for every client and run).
- A missed announcement leaves a later conversation without its node
  (`Detachment.MissedAnnouncement`), a missed departure leaves ghosts (`GhostsStay`). The
  client never relinks a conversation it knows, so announcing the node again does not help:
  only the end of the conversation or a snapshot does (`LinkedOverRun`, exactly).
- With a retention that is not whole seconds, a ring has one slot too few: at some moments a
  second within the retention is lost (`Windows.CoveredExactly`, `OddRetentionLoses`).
- The machine a node is shown on is only updated for nodes reported as changed, and a snapshot
  reports none: after a new snapshot a node that moved meanwhile is shown, and filtered, on
  its old machine until a tick moves it again (`Touched.SnapshotHidesMove`, `MovedUnseen`).
- A flow as late as the ring is long erases a newer second (`Rings.AddAgreesExactly`).
- The change journal forgets an id that is shown, removed, added and removed again between
  two reads (`Journal.LostExactly`), and only then.
- The comment at web/src/graph-state.ts:82 says that a node removed and re-added by one
  snapshot is on neither list. The code before it already took the id off `removed`, so the
  two loops find nothing and the node is reported as added (`Journal.JournalLaw`). The model
  follows the code.
- An arc that is moved to a full batch is no longer drawn (`EdgeSlots.Edges.SetRate`).
- Sparks know places, not arcs: if an arc goes and another takes its place and is laid out
  before the sparks move on, they go on along the other (`SparkLinks.Reuse`), and only then
  (`Board.StrayExactly`).
- A workload of kind "remote-node" in a namespace called "reserved" would be taken for the
  anchor of a machine (`Endpoints.AnchorExactly`).

## Model

| member | source | states |
|---|---|---|
| `System.ReplicaTheorem` | internal/graph/graph.go:290-363 | in every run of the whole system, when nothing is pending and no tick is on its way, a client that was given every tick since an exact snapshot will show exactly the server's nodes (machine, birth) and conversations (ends, totals, last flow, drop reasons, layer-7 summary), with linked adjacency |
| `System.AccountingLaw` | internal/graph/graph.go:298-301 | in every run and at any moment, for every client that is not lost: what its copy will show plus what is pending makes up the server's counters plus what its snapshot counted twice; no conversation or node is missing but those pending, and adjacency is exact |
| `System.DriftLaw` | internal/graph/graph.go:345-350 | so at every boundary such a client shows the same conversations, misses no node, and counts each conversation too high by exactly its drift |
| `Recovery.JoinedAndServed` | internal/hub/hub.go:302-312 | a client that joins while no tick is on its way and finds room for every tick from then on: at any later boundary its totals exceed the server's by what was pending at the join, for the conversations that have lived since; with nothing pending at the join the copy is the graph |
| `Recovery.JoinedServedStays` | internal/hub/hub.go:244-264 | such a client is exact or drifted by exactly the surviving surplus, never lost: the history recorded about a client follows from its registration and its queue alone |
| `Recovery.ServedStays` | internal/hub/hub.go:244-264 | a client that finds room for every tick stays in step, and its drift shrinks only by conversations that a tick expired |
| `Recovery.ResyncAndServed` | internal/hub/hub.go:244-254 | whatever a client that fell behind had missed, and whenever its snapshot is handed out: if it is given that and every tick from then on, at every later boundary it has the server's conversations, misses no node, and counts too much exactly what was pending at the snapshot; if nothing was, its copy is the graph |
| `Recovery.ResyncIsExact` | internal/hub/hub.go:244-254 | the snapshot of a resynchronisation leaves a client as well informed as one that connects at that moment, and in step with the ticks |
| `Recovery.LostExactly` | internal/hub/hub.go:244-264 | exactly when one tick, nothing happening before it is handed out, makes an exact copy differ from the graph: the client is unregistered or has no room, and the tick would have told its copy something |
| `Ledger.LedgerTheorem` | internal/hub/hub.go:244-264 | for every run, every client that stays and every conversation: at a boundary, what its copy shows and what the ledger says it was not given make up the server's counters and what it was given twice; so its total is right if and only if the two sides agree |
| `Ledger.LedgerLaw` | internal/hub/hub.go:244-264 | the ledger is right at any moment of any run: flows, addresses and joins between the computing and the handing out of a tick, full queues, gaps of any length and new snapshots included |
| `Ledger.JoinLedger` | internal/hub/hub.go:302-312 | from the moment a client connects, with any copy left over, the ledger starts with what is pending counted twice |
| `Shortfalls.MissedStays` | internal/hub/hub.go:255-263 | gaps are not repaired, whatever their number and length and whatever comes in between: an exact client that is sent no new snapshot is short, of every conversation that stays, of exactly the sum of what the ticks it was not given carried; its total is right if and only if that sum is zero |
| `Recovery.JoinedMidTick` | internal/hub/hub.go:302-312 | exactly when joining between the computing and the handing out of a tick, with no flow in between, makes a copy differ from the graph: when that tick carries an increment |
| `Shortfalls.DoubledStays` | internal/hub/hub.go:302-312 | a client that joins while a tick is on its way, with any flows before and after, counts of every conversation that stays too much exactly what was pending at the join and, if the tick is given to it, what that carries; later ticks do not make up for it |
| `Shortfalls.BalanceIsSums` | internal/hub/hub.go:244-264 | while a conversation stays and no snapshot comes, the two sides of the ledger are the sums of what missed and doubled ticks carried |
| `Shortfalls.OverExactly` | internal/hub/hub.go:302-312 | a client can be given at most one tick that its snapshot contains, the one on its way when it joined |
| `Shortfalls.OffStays` | internal/hub/hub.go:244-264 | a client that is given every tick keeps whatever surplus or shortfall it had of every conversation that stays: no flow, tick or read makes up for it |
| `Detachment.TickLinkedExactly` | web/src/graph-state.ts:89-106 | a tick leaves a linked copy linked if and only if every conversation that the copy keeps or the tick opens has both ends among the nodes shown afterwards |
| `Detachment.MoveLinkedExactly` | internal/hub/hub.go:244-264 | of all moves of the system, the links of a client's copy are broken exactly by one that gives it a tick that does not fit what it shows |
| `Detachment.LinkedOverRun` | web/src/graph-state.ts:189-213 | over every run, whatever is missed or given twice, a client's copy is linked if and only if each end of each conversation it shows has been shown along with it, at every moment since it has shown the conversation or was last sent a snapshot |
| `Detachment.DetachedExactly` | web/src/graph-state.ts:189-213 | the same for one conversation and one of its ends |
| `Detachment.TickDetachedExactly` | web/src/graph-state.ts:89-106 | after any tick, on any copy, a conversation is detached from an end exactly if it was or the end is not shown: a tick mends nothing but by removing the conversation |
| `Detachment.StaysDetached` | web/src/graph-state.ts:189-213 | over every run a conversation that a node does not know of stays so, and the copy unlinked, until a tick says that the conversation is gone or a snapshot comes: announcing the node again does not help |
| `Detachment.DetachedForGood` | web/src/graph-state.ts:189-213 | the same for a copy and any list of ticks |
| `Detachment.JoinerLinkedExactly` | web/src/graph-state.ts:89-106 | a snapshot followed by any tick leaves a copy linked if and only if no conversation of the graph that the tick does not remove is at a node it removes, and what it opens anew is at nodes of the graph or of the tick |
| `Detachment.RemoveNodesLinkedExactly` | web/src/graph-state.ts:225-229 | removing nodes keeps a copy linked if and only if no conversation is shown at one of them |
| `Detachment.MissedAnnouncement` | web/src/graph-state.ts:189-213 | after a missed announcement, an increment that opens a conversation at the node, without the node being announced again, leaves the copy unlinked |
| `Detachment.GhostsStay` | web/src/graph-state.ts:105-106 | after a missed departure, conversations and nodes that no later tick reports as gone stay |
| `Detachment.StaleDeparture` | web/src/graph-state.ts:105-106 | a tick that removes a node at which the copy shows a conversation it does not remove leaves the copy unlinked |
| `Scenarios.LateDepartureExample` | internal/hub/hub.go:302-312 | it happens: a run from an empty graph in which a client joins after a flow that brought back a node the tick on its way reports as gone, and is left with a conversation at a node it does not show |
| `Scenarios.MidTickExample` | internal/hub/hub.go:302-312 | it happens: a run from an empty graph, with one flow and one such client, that ends with a copy that differs from the graph |
| `Gaps.MissedTickExactly` | internal/graph/graph.go:336-354 | an exact copy that misses a tick equals the graph afterwards if and only if the tick carries no increment, no node the copy does not show or shows elsewhere, and no gone id that it shows |
| `Gaps.DoubledTickExactly` | web/src/graph-state.ts:89-106 | a copy that has everything up to a tick and is given that tick equals the graph afterwards if and only if the tick carries no increment |
| `Gaps.ShownAfterTick` | web/src/graph-state.ts:92-106 | what any copy shows of any conversation after any tick: nothing if the tick says it is gone, otherwise what it showed and what the tick carries |
| `Gaps.OpenedOff` | internal/graph/graph.go:132-138 | a conversation opened by a flow is off, in any copy, by what the copy still shows of an earlier one of that name |
| `Gaps.DeliveredExactly` | web/src/graph-state.ts:92-97 | a delivered tick adds to each surviving total exactly what was pending, whatever the copy |
| `Gaps.CollisionLosesNode` | internal/graph/graph.go:354-354 | the tick after a flow that collides on an announced anchor takes the anchor off every copy though it stays in the graph |
| `System.DoInv` | internal/graph/graph.go:103-363 | each step of the pipeline - flow, addresses, tick computed, tick handed out, join, registration, read, departure - keeps the graph well formed and anchored and every client informed as recorded |
| `System.RunInv` | internal/graph/graph.go:103-363 | the same over every run |
| `System.StartInv` | internal/graph/graph.go:67-82 | an empty graph without clients satisfies the invariant |
| `Coupling.StepKeepsEdges` | internal/graph/graph.go:132-170 | each atomic step of the server keeps, for a browser whose copy does not move: shown totals + pending increments = counters + drift, last times, drop reasons and layer-7 details up to what is flagged for the next tick |
| `Coupling.StepKeepsSynced` | internal/graph/graph.go:208-215 | each atomic step keeps: the copy's nodes are the announced ones plus those yet to be reported gone, on their machine unless a move is pending |
| `Coupling.StepKeepsCovered` | internal/graph/graph.go:173-187 | each atomic step keeps: every node is known to the copy or about to be announced |
| `Coupling.IngestKeepsEdges` | internal/graph/graph.go:103-171 | a flow that re-creates no retired anchor keeps the accounting between server and copy |
| `Coupling.IngestKeepsNodes` | internal/graph/graph.go:103-171 | every flow keeps the node relations between server and copy |
| `Coupling.LearnAllKeepsEdges` | internal/graph/graph.go:221-227 | learning addresses, with all the retirements it causes, keeps all relations between server and copy |
| `Coupling.SyncedIsCoupled` | internal/graph/graph.go:310-363 | an exactly informed copy is also coupled, with no drift |
| `Delivery.TickKeepsSynced` | internal/graph/graph.go:310-363 | expiry, the tick message and its application take an exactly informed copy to an exactly informed copy |
| `Delivery.TickKeepsCoupled` | internal/graph/graph.go:310-363 | the same for a drifted copy; the drift is restricted to what survived expiry |
| `Delivery.SnapshotCouples` | internal/graph/graph.go:290-308 | a snapshot taken at any moment couples whatever copy applies it, with the pending increments as drift |
| `Delivery.CleanSnapshotSyncs` | internal/graph/graph.go:290-308 | a snapshot taken with nothing pending informs whatever copy applies it exactly |
| `Delivery.SnapshotRings` | web/src/graph-state.ts:77-81 | after a snapshot the copy's ring answers, for every second that begins within the retention, what the server's ring of that conversation answers |
| `CopyRings.CopyRingTheorem` | web/src/graph-state.ts:89-97 | after a snapshot and any ticks, while nothing comes a whole ring late, the copy's ring answers for every second of its window what the server's ring answered at the snapshot and what the ticks that the server computed in that second carried |
| `CopyRings.TickRaises` | web/src/graph-state.ts:89-97 | a tick raises what the copy's ring answers for a second by the pending increment exactly if the server computed it in that second; any other second is left alone, but for one whole turns away, which may be evicted |
| `Rates.TickAddsToRate` | web/src/graph-state.ts:112-126 | so it adds that increment to the sums, and the rates, of every window that holds the second and is no longer than the ring |
| `Rates.ShowRates` | web/src/main.ts:150-160 | where the ring answers for each second of the window with its flows, the rates shown are the numbers of flows of the whole window, by verdict, per second |
| `JoinedWindows.JoinedWindow` | internal/hub/hub.go:302-312 | after any run, for a client that joins with any copy left over: over every window up to the length of the ring that ends with the second of the join, its ring answers each second with the flows of the run in that second, while none is a whole ring late or ahead of the join |
| `JoinedWindows.GraphOfRun` | internal/hub/hub.go:190-264 | the graph of a run of the system is the graph of its history of flows, addresses and ticks |
| `Windows.SnapshotTells` | internal/graph/graph.go:290-308 | after any history, a copy that applied a snapshot answers for every second that begins within the retention with the flows of that second, by verdict |
| `Windows.RingTells` | internal/graph/buckets.go:21-29 | after any history, the server's ring of a conversation has one slot for each whole second of the retention and answers for a second with its flows while none that is not late is that far ahead |
| `Windows.CoveredExactly` | internal/graph/graph.go:146-146 | the ring covers the whole retention at a moment if and only if the part of a second by which the retention exceeds whole seconds has passed in the current one; for whole seconds it always does |
| `Windows.OddRetentionLoses` | internal/graph/graph.go:146-146 | for every other retention it can fail: two flows in seconds that are as far apart as there are slots, and the first second is lost though it is within the retention |
| `Windows.RetentionTells` | internal/graph/buckets.go:21-29 | otherwise every second of the retention is answered with its flows |
| `CopyRings.CopyRing` | web/src/graph-state.ts:240-250 | that ring is what the snapshot's seconds and the ticks' increments, taken as one log, make of a fresh one |
| `CopyRings.FeedIsAddAll` | web/src/graph-state.ts:231-238 | laying the listed seconds into a fresh ring is adding them to it |
| `Delivery.DeliverTotals` | web/src/graph-state.ts:92-97 | applying a tick adds to each total exactly what was pending |
| `Delivery.DeliverDetails` | web/src/graph-state.ts:98-101 | applying a tick brings drop reasons and layer-7 details up to date for every conversation |
| `Delivery.DeliverSynced` | web/src/graph-state.ts:91-106 | after a tick the copy has exactly the server's nodes on the server's machines |
| `Delivery.DeliveredKeys` | web/src/graph-state.ts:89-106 | after a tick the copy has exactly the server's conversations |
| `Adjacency.TickLinked` | web/src/graph-state.ts:89-106 | the order inside a tick (nodes, conversations, gone conversations, gone nodes) keeps every node's adjacency set exact and leaves no conversation without its ends |
| `Adjacency.SnapshotLinked` | web/src/graph-state.ts:67-82 | a snapshot leaves the adjacency exact, whatever the copy was |
| `Adjacency.UpsertEdgeLinked` | web/src/graph-state.ts:189-213 | opening a conversation between shown nodes keeps adjacency exact |
| `Adjacency.RemoveEdgeLinked` | web/src/graph-state.ts:215-223 | closing one does |
| `Adjacency.RemoveNodesLinked` | web/src/graph-state.ts:225-229 | removing nodes does, if no conversation is shown at them |
| `ReplicaFacts.UpsertNodesAt` | web/src/graph-state.ts:171-187 | what a list of node entries makes of each listed node: a known one keeps its birth and takes a named machine, a new one is as listed |
| `ReplicaFacts.TickEdgesAt` | web/src/graph-state.ts:92-103 | what a list of increments makes of each listed conversation, found or freshly opened |
| `ReplicaFacts.SnapEdgesAt` | web/src/graph-state.ts:77-81 | what a snapshot makes of each listed conversation |
| `GraphInvariants.RunKeepsWellFormed` | internal/graph/graph.go:132-154 | every run of atomic steps keeps the invariant: both ends of a conversation exist and differ, degrees are exact, nodes are at least as recent as their conversations, pending sets are nested and disjoint as they should be, machines lead their counts, rings have the length of the retention |
| `GraphInvariants.StepKeepsWellFormed` | internal/graph/graph.go:132-154 | every atomic step does |
| `GraphInvariants.NewWellFormed` | internal/graph/graph.go:68-82 | a new graph satisfies it |
| `GraphInvariants.StepKeepsDegrees` | internal/graph/graph.go:143-145 | the hand-kept degree of every node stays its number of incident conversations |
| `GraphInvariants.StepKeepsRecent` | internal/graph/graph.go:147-149 | no conversation is ever newer than its ends |
| `GraphInvariants.StepKeepsPending` | internal/graph/graph.go:158-168 | dirtyL7 within dirty within edges; newNodes and dirtyNode disjoint subsets of nodes |
| `GraphInvariants.StepKeepsIncrements` | internal/graph/graph.go:164-169 | what waits for the next tick is never an empty increment |
| `GraphInvariants.CountedRecent` | internal/graph/graph.go:139-169 | a counted flow leaves its conversation there and pending, and conversation and ends at least as recent as itself |
| `GraphInvariants.StepKeepsLeads` | internal/graph/graph.go:231-247 | the machine of every node has a maximal count |
| `GraphInvariants.IngestWellFormed` | internal/graph/graph.go:103-171 | every flow keeps the invariant, whatever it teaches |
| `GraphInvariants.IngestIsRun` | internal/graph/graph.go:103-171 | every flow is a run of the six atomic steps |
| `GraphInvariants.LearnAllWellFormed` | internal/graph/graph.go:221-227 | learning addresses keeps the invariant |
| `GraphInvariants.AfterTickWellFormed` | internal/graph/graph.go:310-363 | a tick keeps the invariant and leaves nothing pending |
| `Expiry.ConversationKeptExactly` | internal/graph/graph.go:311-323 | after any history, a tick keeps a conversation exactly if one of the flows it stands for is not older than the retention, and that is what was asked for, but at least ten seconds |
| `Expiry.NodeKeptExactly` | internal/graph/graph.go:324-334 | and a node exactly if one of the flows that touched it is not |
| `Expiry.RetentionExactly` | internal/graph/graph.go:68-73 | the retention in force is the one asked for, but at least ten seconds, after any history |
| `Expiry.ThereIfFlows` | internal/graph/graph.go:132-138 | a conversation is in the graph exactly if there are flows it stands for |
| `Expiry.ThereIfVisits` | internal/graph/graph.go:173-187 | a node is in the graph exactly if there are flows that touched it |
| `GraphInvariants.TickKeepsExactly` | internal/graph/graph.go:311-334 | a tick keeps exactly the nodes and conversations whose last time is not before the cutoff (`Expiry` tells that from the flows): the degree test never spares an old node |
| `GraphInvariants.OldNodeIsDead` | internal/graph/graph.go:324-334 | after the edge loop every node older than the cutoff has degree zero |
| `GraphHistory.AfterWellFormed` | internal/graph/graph.go:103-363 | every state that any history of flows, addresses and ticks reaches satisfies the invariant, colliding flows included |
| `GraphHistory.ConversationTheorem` | internal/graph/graph.go:139-170 | over every history of flows, addresses and ticks, all that is kept about a conversation is what the flows counted on it since it was last opened say: each counter is the number of flows with its verdicts, the last time is the newest, drop reasons and layer-7 paths are the bounded counters of theirs, the status is that of the last response, and while no flow is a whole ring late the ring agrees with the per-second log of their arrivals |
| `GraphHistory.ConversationIsItsFlows` | internal/graph/graph.go:132-170 | over every history a conversation is the fold of those flows; expiry and retirement start the list over |
| `GraphHistory.NextIsRaised` | internal/graph/graph.go:103-363 | each operation carries that over |
| `GraphHistory.RaisedTells` | internal/graph/graph.go:145-163 | what such a fold keeps, told from the flows alone |
| `GraphHistory.DropReasonsExact` | internal/graph/graph.go:151-154 | every drop reason but "other" is counted as often as it occurred on the conversation |
| `Admission.AdmittedExactly` | internal/graph/graph.go:103-131 | exactly what becomes of a flow: it is counted if it is no reply, has a verdict with a counter and a time, and two ends; which counter; and which reason is given otherwise |
| `Admission.CountedIsListed` | internal/graph/graph.go:103-170 | a counted flow is the last of those its conversation stands for, is pending, and raises the counter of its verdict |
| `Admission.DnsNamesExact` | internal/graph/l7.go:54-58 | every DNS name but "other" is counted as often as it was asked for, with or without the final dot |
| `Admission.RequestsExact` | internal/graph/l7.go:48-53 | every path but "other" is counted as often as it was requested |
| `Increments.IncrementsAreFlows` | internal/graph/graph.go:156-169 | over every history, a conversation waits for the next tick exactly if flows were counted on it since the last, its increment is their numbers by verdict, and its details are sent again exactly if one of them told a drop reason or a layer-7 record |
| `Increments.MovesExactly` | internal/graph/graph.go:242-246 | over every history, a node waits to be sent again exactly if clients have been told of it and an operation since the last tick moved it to another machine |
| `GraphHistory.QuietRunEdges` | internal/graph/graph.go:193-216 | naming, cutting, dropping, touching and placing change no conversation that they leave in place |
| `NodeHistory.NodeTheorem` | internal/graph/graph.go:173-187 | over every history, a node's first time is that of the flow that opened it, its last the newest of those that touched it, its counts per machine the observations among them, it is shown on the machine that was first to reach the maximal count, and a tick removes it exactly if its newest flow is older than the retention |
| `NodeHistory.NodeIsItsVisits` | internal/graph/graph.go:231-247 | over every history a node is the fold of the flows that touched it since it was opened |
| `NodeHistory.NextStands` | internal/graph/graph.go:103-363 | each operation carries that over |
| `GraphSteps.RetireIsRun` | internal/graph/graph.go:193-216 | retiring an address is one cut and one drop |
| `GraphSteps.LearnAllIsRun` | internal/graph/graph.go:221-227 | learning addresses is a run of namings, cuts and drops |
| `GraphSteps.CountGrows` | internal/graph/graph.go:139-169 | a counted flow adds one to one verdict, never lowers the last time, flags changed details, and never empties them |
| `GraphSteps.IngestIsLeadInAndRecord` | internal/graph/graph.go:103-171 | a flow is its lead-in followed, if counted, by one stored conversation whose ends are at least as recent as the flow |
| `GraphAnchors.IngestAnchoredExactly` | internal/graph/graph.go:123-127 | a flow leaves no anchor for a named address, and nothing gone comes back before the clients hear of it, if and only if the flow does not show as its nameless remote source the very address that its destination names |
| `GraphAnchors.DistinctAddressesNeverCollide` | internal/graph/graph.go:123-124 | distinct source and destination addresses rule that case out |
| `GraphAnchors.GoneIsGoneExactly` | internal/graph/graph.go:123-124 | a flow leaves something both in the graph and on the lists of the gone if and only if it collides on an anchor that was announced or already had this conversation |
| `GraphAnchors.AnnouncedComesBack` | internal/graph/graph.go:193-216 | an announced anchor on which a flow collides is in nodes and in goneNodes at once |
| `GraphAnchors.CollisionExample` | internal/graph/graph.go:123-124 | it happens: after one flow and one tick, a second flow retires the announced anchor and creates it again |
| `GraphAnchors.AnchoredGoneIsGone` | internal/graph/graph.go:351-354 | goneNodes is disjoint from nodes and goneEdges from edges |
| `GraphAnchors.LearnAllAnchored` | internal/graph/key.go:129-140 | learning addresses retires every anchor it names |
| `GraphAnchors.AfterTickAnchored` | internal/graph/graph.go:310-363 | a tick keeps anchors retired |
| `Endpoints.AnchorExactly` | internal/graph/key.go:57-121 | the sides that land on a given anchor are exactly the remote nodes with that address while no name is known for it, and workloads of kind "remote-node" with that name in a namespace "reserved" |
| `Naming.NamesAreLastSaid` | internal/graph/key.go:129-140 | after any history an address has the name that was last given to it, by a host's own flow or by the list of peers |
| `Naming.MachineIsOneNode` | internal/graph/key.go:103-116 | after any history a remote node is the node of a machine exactly if its address was last said to be that machine's; of an address nothing was said about, it is the anchor |
| `Naming.FlowFindsMachine` | internal/graph/graph.go:123-124 | so each end of a flow lands on its machine; the source is looked up before the flow says anything, the destination after its source has been named |
| `Naming.NothingNew` | internal/graph/key.go:133-138 | saying again what was last said changes nothing; saying anything else leaves no anchor for the address |
| `Sides.WorkloadsShare` | internal/graph/key.go:61-71 | sides with named workloads are one node exactly if namespace and workload agree, whatever their pods and addresses, a ReplicaSet going as its Deployment |
| `Sides.ReplicasShare` | internal/graph/key.go:61-71 | every ReplicaSet of a Deployment, whatever its hash, is the node of the Deployment |
| `Sides.StripExactly` | internal/graph/key.go:142-160 | a name is cut exactly if it is something, a dash and five to ten digits or small letters, and then to what comes before the dash |
| `Sides.PodsShare` | internal/graph/key.go:72-75 | without one, exactly if namespace and pod agree |
| `Sides.PodIsWorkload` | internal/graph/key.go:61-75 | a pod is the node of a workload exactly if that is a pod of its name |
| `Sides.WorldsShare` | internal/graph/key.go:90-102 | sides of the world are told apart by their first DNS name, by the CIDR only if they have none |
| `Sides.CidrIsWorld` | internal/graph/key.go:90-102 | a side with a CIDR and no identity is the side of the world with that CIDR and no name |
| `Sides.StrangersShare` | internal/graph/key.go:58-60 | a side without identity and CIDR is told apart by its address, like one the flow does not describe |
| `Sides.IdentitiesShare` | internal/graph/key.go:117-119 | any other identity is one node |
| `Sides.HostsShare` | internal/graph/key.go:103-108 | hosts are told apart by the agents that see them |
| `Sides.PseudoExactly` | internal/graph/key.go:57-121 | which sides are in the namespaces "unknown" and "reserved" |
| `Sides.CidrExactly` | internal/graph/key.go:86-87 | the CIDR is that of the last such label |
| `Sides.LastReservedExactly` | internal/graph/key.go:80-85 | without a machine label the identity is the last reserved label |
| `Endpoints.ScanLabels` | internal/graph/key.go:57-125 | the label loop finds the identity: a host wins over a remote node whatever the order, otherwise the last reserved label decides; the last CIDR is kept |
| `Endpoints.RankOfIdentity` | internal/graph/key.go:123-125 | the rank of the identity found tells which machine labels are present |
| `Placement.MachineIsFirstLeader` | internal/graph/graph.go:231-247 | over any sequence of observations the machine shown has the maximal count and is the first that reached it: a tie keeps the incumbent |
| `Placement.PlaceAllCounts` | internal/graph/graph.go:238-238 | each machine's count is its number of observations |
| `Graph.Graph.constructor` | internal/graph/graph.go:68-82 | a new graph, with a retention of at least ten seconds |
| `Graph.Graph.Ingest` | internal/graph/graph.go:103-171 | the new state and the result of one flow |
| `Graph.Graph.EndpointKey` | internal/graph/key.go:57-121 | the node of one side, and what looking it up teaches |
| `Graph.Graph.LearnMachine` | internal/graph/key.go:129-140 | naming an address, and retiring its anchor when that is news |
| `Graph.Graph.LearnMachines` | internal/graph/graph.go:221-227 | naming several |
| `Graph.Graph.RetireAddress` | internal/graph/graph.go:193-216 | the loop that deletes while it visits, in any order, is one simultaneous cut |
| `Graph.Graph.TouchNode` | internal/graph/graph.go:173-187 | a node is opened or becomes more recent |
| `Graph.Graph.PlaceOnMachine` | internal/graph/graph.go:231-247 | one observation on a machine, and the move it may cause |
| `Graph.Graph.Count` | internal/graph/graph.go:132-170 | one flow counted on its conversation |
| `Graph.Graph.Snapshot` | internal/graph/graph.go:290-308 | the message lists every node and conversation once, with totals and the exact sparse seconds |
| `Graph.Graph.ExpireEdges` | internal/graph/graph.go:314-323 | the loop that deletes idle conversations while it visits them, in any order, is one simultaneous cut |
| `Graph.Graph.ExpireNodes` | internal/graph/graph.go:324-334 | the loop over the nodes likewise |
| `Graph.Graph.Tick` | internal/graph/graph.go:310-363 | the message lists each new or moved node and each pending conversation once, and what is gone; the state after it |
| `Messages.TickExists` | internal/graph/graph.go:336-354 | every state with its pending sets in order has a tick |
| `Messages.SnapshotExists` | internal/graph/graph.go:290-308 | every state has a snapshot |
| `Messages.ListSeconds` | internal/graph/buckets.go:31-45 | every ring has its sparse listing |
| `Graph.CutSeqIsCut` | internal/graph/graph.go:314-323 | dropping conversations one at a time, in any order, is cutting them all at once |
| `Graph.DropSeqIsDrop` | internal/graph/graph.go:324-334 | the same for nodes, with the rule for nodes no client was told about |
| `GraphState.GraphState.constructor` | web/src/graph-state.ts:63-65 | an empty copy |
| `GraphState.GraphState.ApplyTick` | web/src/graph-state.ts:89-109 | a tick takes the copy to what the model says |
| `GraphState.GraphState.ApplySnapshot` | web/src/graph-state.ts:67-87 | a snapshot does |
| `GraphState.GraphState.Consume` | web/src/graph-state.ts:148-169 | the journal is handed over and emptied |
| `GraphState.GraphState.ApplyUpsertNode` | web/src/graph-state.ts:171-187 | one node entry |
| `GraphState.GraphState.ApplyUpsertEdge` | web/src/graph-state.ts:189-213 | one conversation opened, with adjacency |
| `GraphState.GraphState.ApplyTickEdge` | web/src/graph-state.ts:92-103 | one increment |
| `GraphState.GraphState.ApplySnapEdge` | web/src/graph-state.ts:77-81 | one conversation of a snapshot, with its seconds |
| `GraphState.GraphState.ApplyRemoveEdge` | web/src/graph-state.ts:215-223 | one conversation removed |
| `GraphState.GraphState.ApplyRemoveNode` | web/src/graph-state.ts:225-229 | one node removed |
| `GraphState.TakeOffBoth` | web/src/graph-state.ts:83-84 | the settling loop takes off both lists what is on both |
| `Journal.JournalLaw` | web/src/graph-state.ts:148-169 | over any history of additions, removals, clearings and reads: nothing live is missing from the reader's picture, the added and removed lists are disjoint, the settling loops of a snapshot find nothing, and the picture is the graph if and only if no id was lost |
| `Journal.RunExact` | web/src/graph-state.ts:171-229 | the exact law behind it, over every run: picture = live ids + lost ids |
| `Journal.LostExactly` | web/src/graph-state.ts:225-229 | an id is lost exactly by a removal that finds it shown and freshly added, and found again by an addition |
| `Journal.NothingLost` | web/src/graph-state.ts:171-229 | a history without such a removal is rendered faithfully, read after read |
| `Journal.LostExample` | web/src/graph-state.ts:225-229 | shown, removed, added, removed again before a read: neither list has it |
| `Journal.TickTracked` | web/src/graph-state.ts:89-106 | a tick is a run of additions and removals on both journals |
| `Journal.SnapshotTracked` | web/src/graph-state.ts:67-87 | a snapshot clears, adds and settles both journals |
| `Journal.RenderedLaw` | web/src/main.ts:87-127 | for every history of snapshots, ticks and reads of a copy: what the reader shows next is the copy's nodes and conversations, plus exactly the lost ids |
| `Touched.TouchedExactly` | web/src/graph-state.ts:171-187 | over every history of messages and reads, the nodes reported as changed are exactly those that a tick has moved to another machine since the last read or snapshot and that have been shown ever since |
| `Touched.TickTouched` | web/src/graph-state.ts:89-106 | what a tick does to the reports of changed nodes and conversations |
| `Touched.ReadExactly` | web/src/main.ts:87-125 | over every history, a read leaves a node on the right machine exactly if it was not shown yet, was shown there already, or is reported as changed |
| `Touched.PictureStays` | web/src/main.ts:95-98 | while only ticks come and the node stays, every read shows it where it is |
| `Touched.SnapshotHidesMove` | web/src/graph-state.ts:67-87 | a snapshot hides a move: a node that is shown keeps the machine it is shown on, whatever the snapshot lists |
| `Touched.MovedUnseen` | web/src/main.ts:87-125 | it happens: a pod that moves between two snapshots is shown on its old machine |
| `Touched.HeaderExactly` | web/src/graph-state.ts:63-65 | over every history, the reader is told to start over exactly if a snapshot came since the last read, and the time handed over is that of the last message |
| `Times.TickLasts` | web/src/graph-state.ts:176-177 | a tick brings the last time of the nodes it lists up to date, in milliseconds, and leaves that of the others |
| `Times.SnapshotLasts` | web/src/graph-state.ts:67-76 | a snapshot brings those of all nodes up to date |
| `Times.TimesNeverFall` | web/src/graph-state.ts:98-98 | no tick whatsoever, late or given twice, makes the last time of a node or a conversation fall |
| `Rings.RingRefinesLog` | internal/graph/buckets.go:21-29 | while no flow is a whole ring late, every second of the window reads exactly its count in an unbounded log |
| `Rings.AddAgreesExactly` | internal/graph/buckets.go:21-28 | one more flow keeps that agreement if and only if it is less than a ring late or the newer second it evicts was empty |
| `Rings.LateFlowEvicts` | internal/graph/buckets.go:21-28 | a flow ten seconds late erases the newer second in a ring of ten |
| `Rings.AddAt` | internal/graph/buckets.go:21-29 | a flow changes its own second, forgets the one it evicts, and touches no other |
| `Rings.SlotIsRemainder` | web/src/graph-state.ts:112-126 | the slot is the truncating remainder of the server for its non-negative seconds, and the twice corrected one of the browser for any second |
| `Rings.SparseOfLog` | internal/graph/buckets.go:31-45 | the listing after any second of the window is exactly the log's non-zero seconds after it |
| `Rings.SparseUnique` | internal/graph/buckets.go:31-45 | the listing is determined, whatever sort produced it |
| `Rings.SnapshotRoundTrip` | web/src/graph-state.ts:231-238 | a fresh browser ring fed the listing answers every later second as the server's ring does |
| `Rings.WindowOfSnapshot` | web/src/graph-state.ts:112-146 | every window the browser reads after a snapshot holds, second by second, what the flows put there |
| `ServerRing.Slots.AddFlow` | internal/graph/buckets.go:21-29 | the two writes into the slices are one addition |
| `ServerRing.Slots.Sparse` | internal/graph/buckets.go:31-45 | the listing of the slices |
| `ServerRing.SparseSlots` | internal/graph/buckets.go:31-45 | the loop over the slots finds exactly the non-zero seconds after since, oldest first |
| `ServerRing.SortBySecond` | internal/graph/buckets.go:43-43 | sorting keeps the entries and orders them by second |
| `ClientRing.Slots.SetBucket` | web/src/graph-state.ts:231-238 | five writes into the flat arrays are one bucket set |
| `ClientRing.Slots.AddBucket` | web/src/graph-state.ts:240-250 | lazy reset and increase are one addition |
| `ClientRing.Slots.Rate` | web/src/graph-state.ts:112-126 | each rate times the window is the sum over its seconds |
| `ClientRing.Slots.Series` | web/src/graph-state.ts:128-146 | the sparkline lists each second's total, oldest first |
| `ClientRing.TotalsOfWindow` | web/src/graph-state.ts:128-146 | the sparkline adds up to the sum that the rates show, over all verdicts |
| `Backpressure.BackpressureLaw` | internal/hub/hub.go:244-264 | over every run of ticks and reads since a client joined: at most 32 queued, a resynchronisation due exactly after eight drops, every queued tick preceded by at most seven drops in a row, every queued snapshot by eight drops and snapshots without room |
| `Backpressure.FanOutOk` | internal/hub/hub.go:244-264 | one tick keeps the bounds |
| `Backpressure.NextDelivery` | internal/hub/hub.go:244-264 | over every run: what ends a gap is a snapshot if and only if at least eight ticks went undelivered in it, the first eight as drops and the rest as snapshots without room; a shorter gap is ended by a later tick |
| `Channels.CloseSafety` | internal/hub/hub.go:169-186 | under every interleaving of joins, ticks, exits and the shutdown no closed channel is offered a message or closed again, and a channel whose handler has exited was closed exactly once |
| `Channels.RunSound` | internal/hub/hub.go:309-321 | the invariant behind it over every run |
| `Channels.DoSound` | internal/hub/hub.go:309-321 | the invariant behind it for each step |
| `Hub.Hub.Open` | internal/hub/hub.go:300-307 | a new connection's channel holds greeting and snapshot |
| `Hub.Hub.Register` | internal/hub/hub.go:309-312 | registration |
| `Hub.Hub.Offer` | internal/hub/hub.go:280-287 | a send that never blocks; the channel must be open |
| `Hub.Hub.FanTo` | internal/hub/hub.go:244-264 | one client's share of a tick |
| `Hub.Hub.Tick` | internal/hub/hub.go:244-264 | the fan-out loop, over the clients in any order, is one simultaneous step and offers only to open channels |
| `Hub.Hub.Read` | internal/hub/hub.go:329-333 | the handler takes the oldest message |
| `Hub.Hub.Exit` | internal/hub/hub.go:313-321 | the deferred clean-up closes only what the shutdown has not |
| `Hub.Hub.Shutdown` | internal/hub/hub.go:176-183 | every registered channel is closed once |
| `Sparks.Collector.Flow` | internal/hub/hub.go:97-104 | the backlog stays within 4096 and its count of rare verdicts never falls |
| `Sparks.Collector.Drain` | internal/hub/hub.go:204-226 | the backlog is emptied; within the budget it is sent whole |
| `Sparks.Sample` | internal/hub/hub.go:207-226 | exactly the budget, each from the input, with min(budget, rare) rare verdicts, for any shuffle |
| `Sparks.Split` | internal/hub/hub.go:209-217 | rare sparks are kept while there is room, everything else waits, none is lost |
| `Sparks.Shuffle` | internal/hub/hub.go:218-218 | any shuffle is a permutation |
| `Sparks.RareOfMultiset` | internal/hub/hub.go:207-226 | the count of rare verdicts does not depend on the order |
| `Particles.Particles.Update` | web/src/particles.ts:89-132 | the in-place loop leaves exactly the particles that live through the frame, each once and as `FrameExactly` says, and `alive` is their number |
| `Particles.Particles.Visit` | web/src/particles.ts:92-131 | one turn keeps done + still to come, and brings the end nearer by one |
| `Particles.Particles.Step` | web/src/particles.ts:93-116 | one particle advanced, or found dead |
| `Particles.Particles.Kill` | web/src/particles.ts:142-157 | the last live particle takes the place of a dead one |
| `Particles.Particles.Spawn` | web/src/particles.ts:73-87 | a particle joins the live ones if there is room and its arc is laid out, with the speed and size its verdict and chance give it |
| `Particles.SurvivorsOnTheWay` | web/src/particles.ts:98-116 | every survivor is short of the end (a dropped one short of the end of its burst), its arc is laid out, and it moved by its own speed |
| `Particles.FrameExactly` | web/src/particles.ts:89-132 | what a frame makes of any particles: exactly those live whose arc is laid out and that come to less than 1, or less than 0.86 if dropped, each where its speed takes it and at its base size; a dropped one keeps its size up to 0.72 and then grows |
| `Particles.ArrivedExactly` | web/src/particles.ts:93-116 | the same for one particle |
| `Particles.FilterMapBag` | web/src/particles.ts:89-132 | the result of a frame does not depend on the order of the particles |
| `EdgeSlots.Edges.constructor` | web/src/edges.ts:64-92 | every place of the three batches is free |
| `EdgeSlots.Edges.Add` | web/src/edges.ts:108-111 | an unknown arc is placed in the thinnest batch, if that has room |
| `EdgeSlots.Edges.Place` | web/src/edges.ts:113-132 | the top of the stack is taken; the free stacks, the slots and the reverse index still match |
| `EdgeSlots.Edges.Remove` | web/src/edges.ts:134-139 | the arc leaves and its place is free |
| `EdgeSlots.Edges.Clear` | web/src/edges.ts:141-149 | a place is given back and loses its control points |
| `EdgeSlots.Edges.IdAt` | web/src/edges.ts:151-153 | the arc found at a segment is the one that has its place; none is found only where none is drawn |
| `EdgeSlots.Edges.SetRate` | web/src/edges.ts:157-174 | an arc moves to the batch of its rate with everything it carries; if that batch is full the arc is no longer drawn |
| `EdgeSlots.WantExactly` | web/src/edges.ts:161-161 | the batches begin at rates 1 and 20, and a busier arc is never in a thinner one |
| `EdgeSlots.Edges.Rehome` | web/src/edges.ts:165-173 | the move itself, a full target batch included |
| `EdgeSlots.Edges.SetSame` | web/src/edges.ts:177-184 | exactly the arcs that still exist lose their control points and take their new height |
| `EdgeSlots.Edges.Update` | web/src/edges.ts:208-228 | exactly the arcs whose ends have positions gain control points |
| `EdgeSlots.Edges.BoardIsOk` | web/src/edges.ts:113-149 | no two arcs share a place, and only places in use have control points |
| `Board.AtExactly` | web/src/edges.ts:108-149 | over every run of changes, an arc is at a place exactly if it was and is never removed, or took it and is not removed after |
| `Board.LaidExactly` | web/src/edges.ts:208-228 | and has control points there exactly if it was laid out since it took the place, and neither removed nor forgotten after |
| `Board.StrayExactly` | web/src/particles.ts:92-97 | a spark that nothing killed in between is on another arc than its own exactly if another took the place and was laid out there, and neither has been undone |
| `SparkLinks.SurvivorOnOwnArc` | web/src/particles.ts:92-97 | so a spark that lives through a frame is on its own arc unless that happened, and always if its arc was not removed |
| `SparkLinks.OrphanDies` | web/src/particles.ts:93-97 | and a spark whose arc went without that is killed by the frame |
| `SparkLinks.Reuse` | web/src/edges.ts:113-149 | it happens: the place of an arc that goes is the one the next arc is given, and laying that out lets the old sparks go on along it |
| `EdgeSlots.PopExact` | web/src/edges.ts:113-132 | taking a place keeps the stacks the exact complement of the places in use |
| `EdgeSlots.PushExact` | web/src/edges.ts:141-149 | giving one back does |
| `TopCounter.Counter.Add` | internal/graph/l7.go:15-23 | one key counted |
| `TopCounter.FedBounded` | internal/graph/l7.go:11-23 | at most topN + 1 keys over any stream, the extra one being "other" |
| `TopCounter.FedConserves` | internal/graph/l7.go:15-23 | the values add up to the length of the stream |
| `TopCounter.FedExact` | internal/graph/l7.go:15-23 | every key but "other" has its exact number of occurrences in the whole stream |
| `TopCounter.AbsentIsUnseen` | internal/graph/l7.go:19-21 | a key missing while there is room has not occurred |
| `Ids.NodeIdInjective` | internal/graph/key.go:22-22 | the id of a node determines its key, if namespace and kind hold no slash |
| `Ids.EdgeIdInjective` | internal/graph/key.go:33-35 | the id of a conversation determines its key, printed port included |
| `Ids.DecimalValue` | internal/graph/key.go:33-35 | decimal printing can be read back and holds no separator |
| `Ids.SlashesCollide` | internal/graph/key.go:22-22 | with slashes two keys can share an id |
| `Ids.NamespaceOfId` | web/src/main.ts:167-168 | splitting an id at the first slash gives the namespace if and only if that holds no slash |

## Left out

- GraphModel: nodes and conversations are values in maps, where the program has pointers shared by `nodes`, `newNodes` and `dirtyNode`; those two are key sets here, so aliasing is not captured. Gone lists are sets in the model and sequences in the class.
- Graph.Graph.Ingest: requires an accepted flow not to lie before 1970, where the ring would be indexed with a negative number; `Accepted` itself is part of the model. The `unknown` statistic is not kept.
- Graph.Graph.EndpointKey: labels arrive cut at their prefix, as under `Endpoints.ScanLabels`.
- Graph.Graph.TouchNode: labels and the DNS name of a node are not kept; nothing is decided by them.
- Graph.Graph.Snapshot: entries come in any order, without labels, DNS names and latency.
- Graph.Graph.LearnMachines: takes the addresses as a sequence; the program ranges over a map, in some order.
- Graph.Graph.Tick: entries come in any order, where the program sorts them by id, and without labels, DNS names and latency; no reader depends on the order. The check for an increment whose conversation is gone is dropped, because the invariant rules the case out.
- GraphHistory.ConversationTheorem: the latency of the layer-7 summary is a floating-point average and not told from the flows.
- GraphInvariants: 32- and 64-bit wrap-around of counters and JavaScript's number precision; counters are unbounded here.
- System.ReplicaTheorem: assumes of every flow that it does not collide (`GraphAnchors.Collides`, never true of distinct addresses), that no workload of kind "remote-node" is in a namespace called "reserved" and no address is called "remote-node". It speaks of what the browser shows once it has read its queue. The last-seen time of a node is not compared, because ticks do not send it again (`Times.TickLasts`). `sync` is a history variable; `Recovery` states its results about registration, queues and copies. The per-second rings are not part of it after a tick: the browser books increments under the tick's second by design; `CopyRings.CopyRingTheorem` says what they hold then.
- Recovery.LostExactly: one tick with nothing before it is handed out. With flows in between, and for gaps of any length, `Ledger.LedgerTheorem` and `Shortfalls.MissedStays` give the totals exactly and `Detachment.LinkedOverRun` the adjacency; which nodes, machines and layer-7 details such a copy shows is not told.
- Recovery.JoinedMidTick: no flow between the computing, the join and the handing out. With flows, `Shortfalls.DoubledStays` gives the totals exactly and `Detachment.JoinerLinkedExactly` the adjacency.
- Expiry.ConversationKeptExactly: a flow earlier than year 1, the zero time of the program, counts as of then; the same in `Expiry.NodeKeptExactly`.
- Windows.SnapshotTells: assumes that no flow is a whole ring late or ahead of the second asked for, and seconds from 1970; `Rings.AddAgreesExactly` says what happens otherwise. The same in `JoinedWindows.JoinedWindow`; that the greeting tells a browser the length of the ring is a condition on the copy there.
- Touched.ReadExactly: layout, filters and the number of places for nodes are not part of it.
- NodeHistory.NodeTheorem: a last time earlier than year 1, the zero time of the program, reads as that.
- Rings.RingRefinesLog: assumes lateness below the ring length; `AddAgreesExactly` says what happens otherwise.
- Endpoints.ScanLabels: labels arrive cut at their prefix; `labelSubset`, FQDNs and the cluster prefix of an observer's name touch no state modelled here.
- Hub.Hub.Offer: sending to a closed channel and closing one twice are preconditions, so that verifying the methods shows the panics cannot happen.
- Hub.Hub.Tick: the message and the snapshot are parameters; JSON encoding and its errors, WebSocket reads and writes, status and metrics are not modelled. `Channels` counts the closes; each mutex-protected section is one step, below which the memory model is not considered.
- Sparks.Shuffle: chance is an arbitrary choice, here and in `Collector.Flow`. Sparks inside the browser are `Particles`; the list that carries them there is not modelled.
- Particles.Particles.Spawn: what chance returns, and which arcs have control points, are parameters. Arithmetic is on reals. Positions, colours and GPU buffers are not modelled.
- SparkLinks.Reuse: one arc going and one coming; `Board` has any run of changes.
- EdgeSlots.Edges.Update: which arcs have ends with positions is a parameter; colours, emphasis, buffers and curves are not modelled.
- GraphState.GraphState.ApplyTick: labels, latency and sparks of a message are not carried; neither are they in `ApplySnapshot`.
- GraphState.GraphState.ApplySnapshot: labels and latency are not carried.
- GraphState.GraphState.ApplyUpsertNode: labels of a known node are not replaced.
- GraphState.GraphState.ApplyUpsertEdge: latency is not kept.
- GraphState.GraphState.ApplyTickEdge: latency is not updated.
- GraphState.GraphState.Consume: sparks are not among what is handed over.
- GraphState.GraphState.ApplySnapEdge: the ring of a conversation is a value inside the copy; `ClientRing.Slots` proves the array form, and `ServerRing.Slots` that of the server.
- Journal.RenderedLaw: the reader is main.ts as far as it adds and removes ids; layout, filters and the capacity of the arc batches are not part of the picture.
- Latency and rate averages, `pathPrefix`, the layout, picking, panels, themes, the relay client, replay files, the demo source and the HTTP server.
