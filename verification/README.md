# Routing plane of the class network router: a verified model

This project models the routing plane of a Go router for a class network, and
proves what the router is for: announcements converge, databases agree, tables
are optimal, and messages passed from next hop to next hop arrive. Code that
changes state is modelled as methods and classes, proved against functions of
the old state; the theorems about whole runs and whole networks are lemmas about
those functions.

| file | models |
|---|---|
| Ordering, Options | identifiers and their order, sorting |
| NodeQueue, Graphs, ShortestPaths, Exactness | the binary heap of Go's `container/heap`, `AddEdge`, Dijkstra with lazy deletion, and its exactness |
| SafeTables, SeenCaches, Flooding | the published table, the duplicate cache, target selection and flooding mode |
| Packets, Names, WireFormat, MessageFormat | header lists and hop budget, the name table, and the round trips of announcements and messages through addresses |
| LinkState, LinkStateNode | the link-state machine as functions, and as the object that is updated in place |
| Databases, Announcements | database agreement, restart recovery, announcement policy, ageing |
| StaticMode | static Dijkstra mode |
| FloodCore, FloodWeights, Sums, Lines | what both floods have in common: spreading, counting, and how far a budget goes |
| LinkStateFlood, LinkStateRuns, LinkStateLimits, LinkStateSpans, LinkStateReach, Healing | the network of link-state nodes: orderly runs, runs with all that can go wrong, what bounds them and how they heal |
| MessagePlane, MessageFlood, MessageReplays, MessageLimits, HopByHop, Ties | networks with copies of messages in flight: both floods, and forwarding along next hops, with which of several cheapest ways is taken |
| NodeFloods, Journeys | what the node's handlers put on links is what the network models say |
| Discovery, Nodes | liveness and costs, and the node's handlers over all three algorithms |
| Snapshots | `recompute` with its steps interleaved |
| Symmetry, AsymmetryWatches | one-sided links and the report-once watch |
| EndToEnd, PlaneNetworks, Resting, PlaneRests | announcements to delivered messages, and that networks do come to rest |
| LateJoiners, WithoutRefresh, LateLine | what is sure before the refresh after the last link, and what is not |
| Drift, Triangles, DriftedNetworks | how much unannounced change of costs messages survive |

The network models deliver any copy in flight next, at any time. Runs of one
node are sequences of complete handler calls with an explicit clock.

How the parts fit: a node's handlers (`Nodes`, `LinkStateNode`) are proved equal
to functions on identifiers; `Names`, `WireFormat` and `MessageFormat` show that
what they put on the wire is what other nodes read; `LinkStateFlood` runs those
functions at every node, which may tell any of its live neighbours, and `Healing`
proves that databases converge, and do so again after losses; `LinkState` says that
each table is the one its database gives; `Exactness` says what such a table is;
`HopByHop` follows the tables; `EndToEnd` puts the chain together, and
`PlaneNetworks` has every link, and whom a node floods to, come out of discovery;
`NodeFloods` and `Journeys` show that the packets of the node's handlers are the
copies and messages of these networks, from the text sent to the text delivered.

Where the code does not do what its comments or callers might expect, the exact
condition is proved:
`Databases.OrderIrrelevantIffNarrow` (the restart rule makes arrival order matter
if and only if two numbers of one origin are sixteen or more apart),
`Discovery.FloorIffConfigured` (the cost floor protects measured costs only),
`DriftedNetworks.DriftIsSafeIff` (the comment at internal/routing/alg_lsr.go:41-45
says a change below the threshold cannot change anyone's shortest path in practice;
but small changes add up unannounced, `Announcements.DriftIsUnbounded`, and messages
survive exactly those rises that stay below what the cheapest link costs),
`Snapshots.StaleAheadIffStraggler` (a table published outside the lock can be
stale),
`MessageLimits.ExactlyOnceIff`, `MessageLimits.LinksBoundIffWithinMemory` and
`LinkStateSpans.LinksBoundIffWithinMemory` (exactly-once, and one copy per link,
hold as long as a cache remembers and, for the former, as far as the hop budget
goes),
`LinkStateLimits.MostCopiesIsAttained` (internal/routing/alg_lsr.go:184-185 says
that the sequence number ends a flood, not the budget; an entry that has expired
at a node that has forgotten the id no longer stops a copy, and then only the
budget does),
`LateLine.WithoutRefreshIff` (an announcement goes only to the neighbours found so
far, and a joining node is sent no database; until each origin's refresh after the
last link, messages are sure to arrive on at most three nodes),
`AsymmetryWatches.KeysCollideIff` (the watch joins names to keys), and
`Names.TableIdReadsBackIff`. The comment at internal/node/node.go:412-414 says that
`*` resolves to itself; the code writes the sender's own address
(`Names.StarIsTheSender`). The comment on
`Clone` in internal/protocol/packet.go promises a deep copy; the code copies header
values by reference, and the model, whose header values are immutable, claims only
that headers can be set separately.

## Model

| member | source | states |
|---|---|---|
| NodeQueue.PopTakesLeast | internal/routing/graph.go:108-127 | `Pop` on a heap returns an entry no later in distance than any other queued one |
| NodeQueue.PushKeepsHeap | internal/routing/graph.go:108-127 | `heap.Push` keeps heap order |
| NodeQueue.PushedRoot | internal/routing/graph.go:108-127 | a newcomer leads the queue exactly if it is nearer than who led it: of equals the earlier stays |
| NodeQueue.PushMembers | internal/routing/graph.go:108-127 | after `heap.Push` the entries are the old ones plus the new one, as a multiset |
| NodeQueue.PopKeepsHeap | internal/routing/graph.go:108-127 | `heap.Pop` keeps heap order on the rest |
| NodeQueue.PoppedRoot | internal/routing/graph.go:108-127 | after a pop the last entry leads unless the nearer of the two next in line is nearer, the left of two equals |
| NodeQueue.PopPermutes | internal/routing/graph.go:108-127 | `heap.Pop` loses and invents no entry: result and rest together are the old queue as a multiset |
| NodeQueue.Queue.HeapPush | internal/routing/graph.go:120-120 | the in-place sift-up (a loop of swaps) yields exactly the queue of the functional `Push`, so ties fall the same way |
| NodeQueue.Queue.HeapPop | internal/routing/graph.go:121-127 | the in-place sift-down yields exactly the entry and queue of the functional `Pop` |
| Graphs.WithEdgeLinks | internal/routing/graph.go:18-28 | what `AddEdge` does to every pair: both ends become nodes, the lower cost of the pair wins, all other links stay |
| Graphs.Adjacency.AddEdge | internal/routing/graph.go:18-28 | the nested maps, updated in place, become the functional `WithEdge` of the old ones |
| Graphs.EdgeOrderIrrelevant | internal/routing/graph.go:18-28 | two listings of the same edges, in any order and with any repetition, build the same graph |
| ShortestPaths.StepDecreases | internal/routing/graph.go:55-92 | every pass of the main loop either visits one more node or, with the same nodes left, shortens the queue: the lexicographic measure on which it ends |
| ShortestPaths.Dijkstra | internal/routing/graph.go:48-106 | the imperative loop (heap, `dist`, `firstHop`, `visited`) returns the table of the search's unique complete run; the `Exactness` rows say what costs that run gives, the `Ties` rows which of several cheapest ways |
| Exactness.PoppedEntryIsCurrent | internal/routing/graph.go:66-72 | an unvisited node is popped at its current tentative distance: stale duplicates are only ever popped after their node was visited |
| Exactness.LazyDeletionIsHarmless | internal/routing/graph.go:55-92 | popped distances never decrease; each known node is acted upon once, at its final distance; pops equal pushes, at most one plus the number of links |
| Exactness.DijkstraIsExact | internal/routing/graph.go:48-106 | the keys are precisely the other nodes reachable over links of cost >= 0, each cost is the minimum over all such walks, each next hop the first node of a walk attaining it |
| Ties.NeighboursAscend | internal/routing/graph.go:66-72 | the links of a node are tried in the order of a dictionary: at the first character in which two names differ the lower goes first, and a name before its extensions |
| Ties.FirstSettledIsFirstNamed | internal/routing/graph.go:55-92 | the first node settled after the source is the nearest that one of its links leads to, and of several equally near the first in the dictionary; there is one exactly if some link of the source may be used |
| Ties.FirstSettledWayIsListed | internal/routing/graph.go:74-91 | of several cheapest ways to a node the one through the first node settled that has one is listed: if that is the source, the node is its own next hop, otherwise it shares the next hop of that node |
| SafeTables.SafeTable.Replace | internal/routing/table.go:60-64 | the published table is the new one, whole |
| SafeTables.SafeTable.Lookup | internal/routing/table.go:67-72 | a route is found exactly for the keys of the published table |
| SafeTables.SafeTable.Snapshot | internal/routing/table.go:75-83 | the copying loop returns the whole published table |
| LinkState.TableIsCurrent | internal/routing/alg_lsr.go:413-428 | after every run of complete handlers the cached table equals recomputing from links and database, and rebuilding from `Topology()` in any order gives the same table |
| LinkState.HandleKeepsConsistent | internal/routing/alg_lsr.go:154-239 | each single handler, refresh and sweep keeps the table equal to recomputation and the node out of its own database |
| LinkStateNode.Lsr.Recompute | internal/routing/alg_lsr.go:413-428 | the two map loops and Dijkstra publish the table of own links plus database, whatever order the maps are iterated in |
| LinkStateNode.Lsr.HandleInfo | internal/routing/alg_lsr.go:154-196 | the object's new state and its relayed copies are those of the specified handler for the packet as this node reads it, including duplicate, unreadable, own and stale packets |
| LinkStateNode.Lsr.StoreLsp | internal/routing/alg_lsr.go:348-367 | the stored entry, the acceptance verdict and the structural-change verdict are those of `Store` |
| LinkStateNode.Lsr.OnLinkUp | internal/routing/alg_lsr.go:200-225 | links, counter, clock, cache and table after the event, and the announcement flooded, are those specified; the counter rises exactly for a new neighbour, or for a cost that rose above one and a half or fell below half of the one before and comes more than five seconds after the last announcement |
| LinkStateNode.Lsr.OnLinkDown | internal/routing/alg_lsr.go:228-239 | a known neighbour is withdrawn, announced and routed around; an unknown one changes nothing |
| LinkStateNode.Lsr.AnnounceLinks | internal/routing/alg_lsr.go:297-322 | the counter rises by one and every live neighbour is sent the current links under their addresses |
| LinkStateNode.Lsr.RelayPacket | internal/routing/alg_lsr.go:325-340 | one clone per live neighbour but the previous hop, re-marked and one hop poorer, none when the budget is spent; the packet itself is untouched |
| LinkStateNode.CopiesAreEnvelopes | internal/routing/alg_lsr.go:325-340 | read as identifiers, those copies are exactly the envelopes of the protocol, one per target |
| LinkStateNode.Lsr.Expire | internal/routing/alg_lsr.go:395-409 | removes exactly the entries older than thirty seconds and reports whether there were any |
| LinkStateNode.Lsr.Age | internal/routing/alg_lsr.go:125-139 | the sweep's new state, table included, is the specified one |
| LinkStateNode.Lsr.Topology | internal/routing/alg_lsr.go:247-262 | lists exactly the edges `recompute` feeds to Dijkstra |
| LinkStateNode.Lsr.PrintedRoutes | internal/cli/console.go:229-241 | the console's `dijkstra` command, rebuilding a graph from `Topology()`, shows exactly the published table |
| Announcements.AnnouncedNeighboursAreCurrent | internal/routing/alg_lsr.go:200-239 | over every run the last announcement names exactly the current neighbours, numbers count up by one from one, and drift never announces within five seconds of the previous one |
| Announcements.DriftRateBounded | internal/routing/alg_lsr.go:200-225 | k announcements caused by drift between two moments take at least 5(k - 1) seconds |
| Announcements.LinkUpAnnouncedIff | internal/routing/alg_lsr.go:200-225 | a reported cost is announced if and only if the neighbour is new, or more than five seconds have passed since the last announcement (or there was none) and the cost before was at most zero or the new one is above 1.5 times or below half of it; the announcement lists the links as they now are, and they change either way |
| Announcements.LinkDownAnnouncedIff | internal/routing/alg_lsr.go:228-239 | the loss of a neighbour is announced with the links that are left, the loss of someone else is not |
| Announcements.OwnIdIsRemembered | internal/routing/alg_lsr.go:320-321 | for a minute a node recognises the id of its own announcement, whatever made it announce |
| Announcements.DriftIsUnbounded | internal/routing/alg_lsr.go:200-225 | nothing bounds how far a cost can rise above the one announced: from any cost any higher one is reached by measurements none of which is announced, even all at one moment |
| Announcements.NoEntryOutlivesItsAge | internal/routing/alg_lsr.go:395-409 | with a sweep at most three seconds ago no database entry is older than thirty-three seconds |
| Announcements.KeptWhileAlive | internal/routing/alg_lsr.go:348-409 | an origin stays on file exactly as long as no sweep finds its last proof of life more than thirty seconds old |
| Databases.DatabasesAgree | internal/routing/alg_lsr.go:348-367 | nodes delivered the same announcements, in any order and with any duplication, hold the same database if each origin's numbers span less than the restart gap |
| Databases.FoldHoldsGreatest | internal/routing/alg_lsr.go:348-367 | that database holds each origin's highest number and what was announced under it |
| Databases.OrderIrrelevantIffNarrow | internal/routing/alg_lsr.go:344-367 | folding `store` over the same announcements in any order, with any repetition and at any times, always ends with the same database if and only if no two numbers of one origin are sixteen or more apart |
| Databases.WideSpanDisagrees | internal/routing/alg_lsr.go:344-367 | for any wider deliveries, two lists with the same numbers that end with different databases |
| Databases.RestartRecovers | internal/routing/alg_lsr.go:344-367 | whatever is on file, of announcements of one origin with strictly increasing numbers `store` rejects at most the first sixteen and accepts everything from the first it accepts |
| Databases.StructuralIffTopologyChanged | internal/routing/alg_lsr.go:344-382 | `store` reports a structural change exactly if it accepted an announcement of an unknown origin, or one after which the entries together declare other links than before |
| Names.IDFor | internal/config/config.go:138-160 | the search over the name table returns an id that holds the address, completed by a colon and the port if it has none, or the completed address itself if nobody holds it |
| Names.LocalID | internal/node/node.go:428-433 | own address and `*` resolve to the node itself; any other address to whoever holds it in the table, or to itself, one without a port as if the node's own port stood behind it |
| Names.TableIdReadsBackIff | internal/node/node.go:415-433 | exactly when every reading of the address written for an id of a shared table is that id again: it is the receiver's own, or the completed address is its own and nobody else's, or nobody has the completed address and it is the id itself |
| Names.RawIdReadsBackIff | internal/node/node.go:415-433 | the same for an id outside the table other than the sender's own, written as it is |
| Names.OwnIdReadsBackIff | internal/node/node.go:415-433 | the same for the sender's own id, in the table or not, which is written as the address it listens on: the origin of each of its announcements |
| Names.AddressRoundTrip | internal/node/node.go:415-433 | with one shared table of distinct addresses that carry a port, every id, of the table or a raw endpoint nobody has, written by one node is read back as that id by every node |
| Names.SharedAddressMisreads | internal/config/config.go:138-145 | in every table in which two ids share a complete address a third node may misread each of them |
| Names.PortMayBeLeftOut | internal/config/config.go:132-160 | with distinct addresses a host without a port, other than `*` and the node's own address, is read exactly as it is with a colon and the node's port, and as any id that holds that address |
| Names.PortMayBeLeftOutIff | internal/config/config.go:132-160 | for any table leaving out the port changes nothing if and only if the address with the port is not the node's own, or the table reads the node's own address as the node |
| Names.DialledIff | internal/config/config.go:117-132 | a node has an address to be dialled at if and only if the table has it or its id looks like an endpoint, and the table decides |
| Names.StarIsTheSender | internal/node/node.go:412-423 | what is addressed to `*` is written with the sender's own address, so with one shared sound name table every node reads it as the sender |
| Packets.HeaderAfterSet | internal/protocol/packet.go:136-185 | a header just set is read back, and every other header reads as before |
| Packets.ValueAfterSet | internal/protocol/packet.go:146-208 | a header just set reads as that value in every type: as text, as a number only if it is one, as a trace only if it is a list |
| Packets.Packet.SetHeader | internal/protocol/packet.go:177-185 | the loop overwrites in the first object that has the key, else appends |
| Packets.Packet.Header | internal/protocol/packet.go:136-143 | the loop returns the value in the first object that has the key |
| Packets.Packet.AppendTrace | internal/protocol/packet.go:211-213 | the trace grows by the address; no other header changes |
| Packets.Packet.DecrementTTL | internal/protocol/packet.go:342-348 | one hop less, and whether any is left |
| Packets.DecodedMayTravel | internal/protocol/packet.go:359-366 | after decoding a packet has budget left: what it came with, if anything, else that of a new packet |
| Packets.Packet.Clone | internal/protocol/packet.go:324-336 | a new packet that reads the same and is changed separately |
| WireFormat.ReadsBack | internal/routing/alg_lsr.go:171-182 | with one shared sound name table every node reads from the wire exactly the announcement written, however its neighbour list is ordered |
| WireFormat.LastEntryCounts | internal/routing/alg_lsr.go:179-182 | of several neighbour entries that resolve to one id the last gives the cost |
| WireFormat.AnnouncementIsStored | internal/routing/alg_lsr.go:297-340 | through however many relays it has come, an announcement that is accepted is stored under the sender's id with exactly the sender's number and links at announce time |
| WireFormat.RelayWrites | internal/routing/alg_lsr.go:325-340 | a relayed copy writes the same announcement with one hop less and the relay as previous hop |
| MessageFormat.PassesOnWrites | internal/node/node.go:323-341 | what a node relays writes the relayed message of the network models |
| MessageFormat.StartWrites | internal/node/node.go:344-352 | what `Send` builds writes the fresh message with its full hop budget |
| MessageFormat.MessageReadsBack | internal/node/node.go:428-433 | every node reads back exactly the message written: id, ends, budget, previous hop and trace |
| StaticMode.StaticTableIsOptimal | internal/routing/alg_dijkstra.go:117-133 | the table is the optimum over exactly the walks of the configured graph that avoid every neighbour considered down |
| StaticMode.TableDependsOnDownOnly | internal/routing/alg_dijkstra.go:66-89 | after any sequence of link events the table is that of the set of neighbours down, whatever the history |
| StaticMode.DownThenUpCancels | internal/routing/alg_dijkstra.go:66-89 | losing and regaining a neighbour that was up leaves the state as it was |
| StaticMode.LosingNeighboursNeverHelps | internal/routing/alg_dijkstra.go:117-133 | with more neighbours down no destination appears and no cost falls |
| StaticMode.StaticRouter.Recompute | internal/routing/alg_dijkstra.go:117-133 | the nested loops publish the table of the pruned graph |
| StaticMode.StaticRouter.Start | internal/routing/alg_dijkstra.go:44-46 | the first table is that of the graph without the neighbours down |
| StaticMode.StaticRouter.OnLinkUp | internal/routing/alg_dijkstra.go:66-76 | set and table after the event are those of the specified step, recomputed only on change |
| StaticMode.StaticRouter.OnLinkDown | internal/routing/alg_dijkstra.go:79-89 | likewise for a neighbour lost |
| StaticMode.AnyListingGivesTheTable | internal/cli/console.go:229-241 | after any events, rebuilding from the listed edges in any order gives the published table |
| StaticMode.StaticRouter.Topology | internal/routing/alg_dijkstra.go:96-113 | lists exactly the edges the table is computed from |
| SeenCaches.SeenIsExact | internal/routing/seen.go:26-50 | over every run with a clock that never goes back, a call on a non-empty id answers true exactly when a call on it answered false at most `ttl` earlier |
| SeenCaches.CacheIsExact | internal/routing/seen.go:44-50 | over every run the cache holds exactly the ids recorded no more than `ttl` before it was last used, so it does not grow without bound |
| SeenCaches.SeenCache.Seen | internal/routing/seen.go:26-41 | entries and answer are those of `Look`; an empty id is never recorded |
| SeenCaches.SeenCache.Evict | internal/routing/seen.go:44-50 | the loop keeps exactly the entries at most `ttl` old |
| Flooding.Flood | internal/routing/flood.go:16-25 | the loop returns the neighbours in order without the previous hop |
| Flooding.FloodTargetsDistinct | internal/routing/flood.go:16-25 | no neighbour is chosen twice |
| Flooding.FloodKeepsOrder | internal/routing/flood.go:16-25 | the neighbours chosen stay in the order they were listed in |
| Flooding.FloodingRouter.Table | internal/routing/alg_flooding.go:72-81 | flooding mode shows each live neighbour as a one-hop route at its cost |
| LinkStateFlood.StoreDecides | internal/routing/alg_lsr.go:348-367 | in orderly runs (no entry expires and nothing in flight comes a restart gap late, but copies may be lost and nodes may not have found all their neighbours yet) `store` takes exactly the newer of the announcements in flight, and changes no content otherwise |
| LinkStateFlood.LatestIsNews | internal/routing/alg_lsr.go:348-367 | in orderly runs an origin's latest is newer than what is on file at every node that has not handled it |
| LinkStateFlood.RepeatHandled | internal/routing/alg_lsr.go:184-189 | in orderly runs a later copy is never passed on, even when the duplicate cache has forgotten it; `LinkStateLimits.MostCopiesIsAttained` says what can happen in others |
| LinkStateRuns.NothingInvented | internal/routing/alg_lsr.go:154-196 | at every moment of every run, with packets dropped, entries expiring, copies any time late and announcements told to some neighbours only, what is on file was announced by its origin, under a number the origin has reached |
| LinkStateRuns.NeverBeyondBudget | internal/protocol/packet.go:342-348 | no such run files an announcement more than fifteen hops from its origin |
| LinkStateRuns.NoBudgetIsRestored | internal/protocol/packet.go:359-366 | in every such run every copy on a link has budget left, so decoding never restores one to the full sixteen hops |
| LinkStateLimits.EveryFloodEnds | internal/routing/alg_lsr.go:325-340 | in every such run the copies of an announcement taken off their links, and all that those in flight can still cause, stay within a bound fixed when it is made: the ways on from the origin that never turn straight back, end when they come home and are no longer than fifteen links |
| LinkStateLimits.MostCopiesIsAttained | internal/routing/alg_lsr.go:184-187 | that bound is the least: from every start, in some run in which the origin refreshes at least every ten seconds until the end, no copy of one announcement is lost and exactly that many arrive (copies of the refreshes are lost), so neither the sequence number nor the duplicate cache ends a flood, the hop budget does |
| LinkStateSpans.LinksBoundIffWithinMemory | internal/routing/alg_lsr.go:21-22 | all such runs that last no longer than a span cause, for each announcement, at most as many copies as there are live links if and only if the span is at most the memory of a cache; on a triangle with a tail of one link, eight links, the ninth copy comes any moment later |
| LinkStateLimits.CopiesInNumbers | internal/routing/alg_lsr.go:325-340 | with at most d neighbours each that is no more than d plus d squared and so on up to the fifteenth power |
| Healing.LatestHeals | internal/routing/alg_lsr.go:12-17 | whatever was lost, forgotten, late or expired before an origin made its latest announcement, and whoever had not been found: if it is told and passed on by nodes that know all their neighbours, none of its copies is lost, no entry with its number expires and nothing a restart gap behind it arrives, then on at most sixteen nodes once its flood is quiet every node connected to the origin has exactly it on file |
| Healing.RefreshHeals | internal/routing/alg_lsr.go:113-123 | so after every run, however bad, one refresh and the deliveries it causes bring every node connected to the origin up to date with it |
| Healing.FloodConverges | internal/routing/alg_lsr.go:154-196 | on at most sixteen nodes that have found all their neighbours, without loss, in every order of announcements and deliveries at any times, once nothing is in flight every node connected to an origin has that origin's highest number, the links announced under it, and so its current neighbours, on file, and nothing of an origin that never announced; caches may forget meanwhile |
| LinkStateReach.OrderlyRunIsARun | internal/routing/alg_lsr.go:154-196 | every orderly run is one of those runs, so what is safe in all of them is safe in it |
| LinkStateReach.ConvergesIff | internal/protocol/packet.go:342-348 | every orderly run without loss, of nodes that have found their neighbours, on every network of at most n nodes converges if and only if n is at most sixteen |
| LinkStateFlood.FloodEnds | internal/routing/alg_lsr.go:184-196 | in orderly runs, however deliveries are ordered and whatever is lost, the copies of one announcement taken off their links and those in flight are together no more than the live links |
| FloodCore.QuietMeansReached | internal/routing/alg_lsr.go:325-340 | with at most one node more than the hop budget, a quiet flood has reached every node that can be reached without passing a node that keeps the packet |
| FloodCore.SpentBudgetMeansEveryone | internal/protocol/packet.go:342-348 | a spent budget proves that as many distinct nodes have handled the packet |
| MessageFlood.DeliveredAtMostOnce | internal/node/node.go:293-319 | in every run within the memory of a cache, with or without losses, a message is delivered at most once, only at its destination, with a loop-free live path from the sender as trace whose length accounts for the budget spent |
| MessageReplays.DeliveriesFarApart | internal/node/node.go:293-319 | in every run, however long, two deliveries of one message lie more than the sixty seconds of a cache apart, each at the destination with a live path from the sender as trace |
| MessageReplays.OnceIffWithinMemory | internal/node/node.go:39-41 | all runs that last no longer than a span deliver each message at most once if and only if the span is at most the memory of a cache |
| MessageReplays.LateCopyDeliversTwice | internal/routing/seen.go:44-50 | for any later moment, a run in which a copy that took another way is delivered again then |
| MessageFlood.ReachableDeliversOnce | internal/node/node.go:293-365 | on at most seventeen nodes, without loss and within the memory of a cache, under every delivery order a reachable destination has received the message exactly once when the flood is quiet |
| MessageFlood.FloodEnds | internal/node/node.go:323-341 | within the memory of a cache every copy sent is in flight or taken off its link, and no more are ever sent than there are live links |
| MessageLimits.LinksBoundIffWithinMemory | internal/node/node.go:39-41 | all runs that last no longer than a span send each message on at most as often as there are live links if and only if the span is at most the memory of a cache; on a triangle the seventh send comes any moment later |
| MessageLimits.ExactlyOnceIff | internal/node/node.go:293-365 | every message that can arrive does so exactly once, in all runs without loss of at most a span on all networks of at most n nodes (n at least three), if and only if n is at most seventeen and the span at most the memory of a cache |
| MessageLimits.EveryFloodEnds | internal/node/node.go:323-341 | in every run, whatever is lost, forgotten or late, a copy sent is in flight or taken off its link, and no more are ever sent than there are ways on from the sender that never turn straight back, end at the destination and are no longer than sixteen links |
| MessageLimits.MostSendsIsAttained | internal/node/node.go:323-341 | that bound is the least: for every sender and destination on every live graph some run without loss sends exactly that many copies |
| MessageLimits.SendsInNumbers | internal/node/node.go:323-341 | with at most d neighbours each that is no more than d plus d squared and so on up to the sixteenth power |
| MessageReplays.NeverBeyondBudget | internal/protocol/packet.go:342-348 | no run, however long, delivers a message more than sixteen hops from its sender |
| MessageReplays.NoBudgetIsRestored | internal/protocol/packet.go:359-366 | every copy of a message on a link has budget left, so decoding never restores one |
| HopByHop.NextHopIsCloser | internal/routing/alg_lsr.go:142-150 | with one graph and positive costs the next hop can itself route on, and the remaining cost shrinks by exactly the link crossed |
| HopByHop.RouteDescends | internal/node/node.go:293-341 | the remaining cost falls strictly along a route, so no node repeats |
| HopByHop.DeliveredIffWithinBudget | internal/node/node.go:293-365 | forwarding delivers exactly the messages whose route has at most sixteen links, at the cost the sender's table lists and with the route as trace; any other expires |
| HopByHop.SmallNetworkDelivers | internal/node/node.go:293-365 | on at most seventeen nodes every listed destination is reached at the listed cost |
| HopByHop.TravelByDescent | internal/node/node.go:293-341 | whatever graphs the tables come from, if every hop leads closer by one measure, a message with budget enough arrives |
| Journeys.HandlingIsTravelling | internal/node/node.go:293-341 | with a table, a node that reads a message in a packet sends one copy, to the next hop its table lists, exactly if it has not seen the id, is not the destination, and a route and budget are left; the copy carries the text as it came and the message with which the network models go on; and it delivers exactly when they do |
| Journeys.OriginatingIsSending | internal/node/node.go:344-365 | `Send` puts one packet with the fresh message and the text on the link to the next hop, or none if there is no route |
| Journeys.JourneyEnds | internal/node/node.go:293-365 | the packets that handlers hand on one after another, from `Send` on, take at most sixteen hops, and where they end the text is handed to the user if and only if the network models say that the message arrives: at its destination, with the nodes passed as its trace |
| Journeys.TextArrivesIff | internal/node/node.go:293-365 | such a journey from `Send` to the user exists if and only if they say so |
| Journeys.FloodedAsModelled | internal/node/node.go:293-341 | in flooding mode the packets a node sends on are exactly the copies of the network model, with the text as it came |
| Ties.DirectLinkWinsTies | internal/routing/graph.go:66-92 | a neighbour is listed at no more than its link costs, and if at just that, as its own next hop, however many other ways are as cheap |
| Discovery.DiscoveryAgrees | internal/node/discovery.go:123-227 | after every run of complete handlers, in all three modes, the routing plane's links are the smoothed costs of exactly the live neighbours (in static mode, its pruned nodes exactly those that fell silent) |
| Discovery.AliveExactly | internal/node/discovery.go:160-227 | a neighbour is alive exactly when it has been heard and no sweep since came more than fourteen seconds after the last time |
| Discovery.NoStrangeNeighbours | internal/node/discovery.go:160-189 | over every run neither a nameless sender nor the node itself ever becomes a neighbour |
| Discovery.FloorIffConfigured | internal/node/discovery.go:144-207 | no link cost ever falls below the floor if and only if no configured cost of another node does |
| Discovery.CostIsSmoothed | internal/node/discovery.go:186-207 | while a neighbour stays alive with a positive cost, its cost is the moving average of its samples, whatever happens in between |
| Discovery.EchoedCost | internal/node/discovery.go:144-207 | an echo that carries stamp t makes the link to a neighbour that was not alive, or had no cost, cost c such that 2c milliseconds after t is the clock, and the floor if that is less than the floor or there is no stamp; otherwise a quarter of the way there from the cost on record; the routing plane has the same cost |
| Discovery.GreetedCost | internal/node/discovery.go:160-183 | a hello makes the link cost what is on record, or 1 for a stranger |
| Discovery.CostStaysOnRecord | internal/node/discovery.go:160-227 | in every run without an echo of a neighbour its cost on record stays, through silence, loss and return |
| Discovery.SmoothingStaysBetween | internal/node/discovery.go:199-201 | the average stays between the least and the greatest of the starting cost and the samples |
| Discovery.SmoothingConverges | internal/node/discovery.go:16-22 | after k equal samples the distance to them is exactly (3/4)^k of the original distance |
| Nodes.Node.MarkAlive | internal/node/discovery.go:160-183 | neighbour map and routing plane after the call are those specified; a change is reported and announced once |
| Nodes.Node.MarkAliveWithCost | internal/node/discovery.go:186-207 | likewise with the smoothed cost, always reported |
| Nodes.Node.HandleHello | internal/node/discovery.go:123-141 | the node's new state is one specified step, and the echo carries the sender's timestamp back |
| Nodes.Node.HandleEcho | internal/node/discovery.go:144-156 | the node's new state is one specified step, and the cost of the link afterwards is half the round trip in milliseconds, floored, or the average with the one before |
| Nodes.RoundTripIsMeasured | internal/node/discovery.go:123-156 | with one shared sound name table, a hello answered by another node makes the link to just that node cost half the time from its own stamp to the arrival of the answer |
| Nodes.Node.HandleInfo | internal/node/node.go:272-274 | the previous hop is marked alive, then the algorithm handles the packet; relayed copies exist exactly for news |
| Nodes.Node.ReapDead | internal/node/discovery.go:210-227 | exactly the overdue are marked dead and withdrawn one after another, each with its announcement |
| Nodes.Node.LiveNeighbors | internal/node/node.go:385-396 | lists exactly the live neighbours, each once |
| Nodes.Node.Forward | internal/routing/alg_lsr.go:142-150 | with a table the one target is the next hop published for the id the destination is read as, and there is none if that is not listed; in flooding mode every live neighbour but the previous hop |
| Nodes.Node.HandleMessage | internal/node/node.go:293-319 | delivery, silence or the relayed copies are exactly what the message plane's reaction says of the message the node reads |
| Nodes.Node.Relay | internal/node/node.go:323-341 | no targets or a spent budget send nothing; otherwise every target gets the packet with one hop less, trace and previous hop updated, all else untouched |
| Nodes.Node.Send | internal/node/node.go:344-365 | own id is refused; otherwise the id is remembered and every target gets the fresh packet, or the caller is told there is no route |
| Nodes.TargetsAreTheModels | internal/routing/alg_flooding.go:38-51 | with one shared sound name table the targets are the next hop the table lists for the destination of the message, or none, and in flooding mode the live neighbours but the one the message came from |
| NodeFloods.ProbeOnLinks | internal/node/discovery.go:123-207 | the packets a hello or an echo makes a node put on its links are, read as announcements, exactly the copies that the call puts in flight in the network of planes |
| NodeFloods.InfoOnLinks | internal/node/node.go:272-274 | so are those of an announcement received: first about the previous hop, then the announcement passed on, while the copy received is no longer in flight |
| NodeFloods.ReapOnLinks | internal/node/discovery.go:210-227 | and those of a sweep, loss by loss |
| NodeFloods.OtherModesAreSilent | internal/routing/alg_dijkstra.go:58-62 | in the other modes a node announces nothing and passes no announcement on |
| Snapshots.EveryTableIsOneSnapshot | internal/routing/alg_lsr.go:413-428 | with locking, reading and publishing as separate steps of concurrent tasks, every table ever published is the Dijkstra result of one (links, database) state the run passed through |
| Snapshots.StragglerWins | internal/routing/alg_lsr.go:425-427 | from any state at rest and for any change a slow task can publish last what it read first, leaving the old table in force with no task at work |
| Snapshots.StaleTableIsPossible | internal/routing/alg_lsr.go:425-427 | so a run can end with a table that misses a link |
| Snapshots.StaleAheadIffStraggler | internal/routing/alg_lsr.go:413-428 | after any run, even if nothing changes any more, some continuation still publishes a table that is not current if and only if some task now holds a finished reading that gives another table |
| Snapshots.RecomputeRestoresCurrency | internal/routing/alg_lsr.go:413-428 | while nothing changes and nobody holds a stale reading, every table published is current |
| Snapshots.UninterruptedIsHandle | internal/routing/alg_lsr.go:154-239 | the steps of a handler that nobody interrupts do to links, database and table what the link-state machine says |
| Snapshots.SerialIsTheMachine | internal/routing/alg_lsr.go:154-239 | so tasks that take turns refine its runs |
| Symmetry.Asymmetries | internal/routing/symmetry.go:37-72 | the loops and the sort return the specified report |
| Symmetry.AsymmetriesAreExact | internal/routing/symmetry.go:37-72 | the report is sorted by declaring and missing node, names no link twice, and holds precisely the links whose other end has declared some link but not this one, at the cost declared last |
| Symmetry.ListedByName | internal/routing/symmetry.go:64-71 | that order is the one of a dictionary |
| Symmetry.ReportIsReproducible | internal/routing/symmetry.go:28-30 | every listing of the same links gives the same report |
| Symmetry.SilenceMeansMutualRoutes | internal/routing/symmetry.go:8-18 | when the report is empty, every node mentioned has declared a link and costs are non-negative, v is in Dijkstra's table from u if and only if u is in the table from v |
| AsymmetryWatches.AsymmetryWatch.Due | internal/routing/symmetry.go:96-122 | both maps and the report after the call are those specified |
| AsymmetryWatches.DueIsExact | internal/routing/symmetry.go:76-122 | over every run a key is reported exactly at the first call of each unbroken episode that is later than the grace period after the episode's first, and never again in it |
| AsymmetryWatches.KeysCollideIff | internal/routing/symmetry.go:101-101 | two findings share a memory key if and only if they are about the same link, or one name is the other followed by an arrow and the text that the other end then begins with |
| AsymmetryWatches.KeysAreDistinct | internal/routing/symmetry.go:101-101 | among names without an arrow every link has its own key |
| AsymmetryWatches.LinkDueIsExact | internal/routing/symmetry.go:76-122 | so, for such names, over every run a one-sided link is reported exactly by the first call of each unbroken episode that is later than the grace period after the episode's first |
| AsymmetryWatches.ReportsAreSorted | internal/routing/symmetry.go:96-122 | what the watch reports of a sweep is listed by declaring and then missing node, in the order of a dictionary |
| AsymmetryWatches.ShiftedLinkIsNeverReported | internal/routing/symmetry.go:96-122 | in every run in which the colliding link with the shorter name is found whenever the other is, the other is never reported, however long it stays one-sided |
| EndToEnd.NodesStayOk | internal/routing/alg_lsr.go:413-428 | in every run of the network each node's published table is the one its own links and database of the moment give, and a node that never announced has no links |
| EndToEnd.MeasuredByDiscovery | internal/node/discovery.go:160-227 | what the network theorems ask of a node's links, the live neighbours at positive costs, is what its discovery plane supplies |
| PlaneNetworks.PlanesRunEachNode | internal/node/discovery.go:160-227 | in a network where links come up and go down only through hellos, echoes, announcements and sweeps, and each handler floods to the neighbours it leaves alive, each node goes through a run of its own discovery plane |
| PlaneNetworks.PlanesRunTheNetwork | internal/node/node.go:385-396 | and the routing planes go through a run of the link-state network, told to those neighbours only, so whatever is safe, bounded or heals in all its runs does so here |
| PlaneNetworks.RefreshedSinceLastLink | internal/routing/alg_lsr.go:113-123 | an origin is up to date everywhere in the sense of the next row if, since the last link came up, it has announced and no copy of that was lost, expired or overtaken by one a restart gap late |
| PlaneNetworks.EveryMessageArrives | internal/node/node.go:344-365 | so on at most sixteen nodes, whatever was lost before, once every node has found its live neighbours, has flooded its latest announcement undisturbed through nodes that had found theirs, and has nothing left to say, a message from any node to any other arrives at the least cost of any walk |
| PlaneRests.FoundIsReachable | internal/node/discovery.go:160-227 | from boot, every network of at most sixteen nodes that hear each other gets there in some run of hellos, deliveries and one refresh each, in which nodes flood to the neighbours found so far |
| LateJoiners.NeighboursKnow | internal/routing/alg_lsr.go:297-322 | without any refresh, but also without loss, once all have found their neighbours and nothing is in flight or left to say, every node has on file exactly what its neighbours have as links |
| WithoutRefresh.ThreeNeedNoRefresh | internal/routing/alg_lsr.go:325-340 | so on at most three nodes every message already arrives then |
| LateLine.LastIsStranded | internal/routing/alg_lsr.go:325-340 | on a line of four nodes, at whatever configured costs, there is a run in which the last joins when the others have settled, all find their neighbours, nothing is lost or left in flight, and the last has no route to the first: a joining node is told of its neighbours only |
| LateLine.WithoutRefreshIff | internal/routing/alg_lsr.go:12-17 | every message arrives without waiting for a refresh after the last link, in all such runs on all networks of at most n nodes, if and only if n is at most three |
| EndToEnd.RestingTables | internal/routing/alg_lsr.go:413-428 | on at most sixteen mutually connected nodes, whatever went wrong before, once every origin's latest announcement has been flooded undisturbed by nodes that know all their neighbours, and nobody has unannounced drift, all nodes route over the same graph |
| EndToEnd.EveryMessageArrives | internal/node/node.go:344-365 | then a message from any node to any other arrives, at the least cost of any walk over the live links |
| EndToEnd.MessagesSurviveMildDrift | internal/routing/alg_lsr.go:208-216 | with every latest announcement flooded like that, every message still arrives if no link has risen since it was last announced by as much as its node's cheapest link costs |
| EndToEnd.MildDriftCosts | internal/routing/alg_lsr.go:208-216 | and it then costs, by the measurements of now, no more than the least announced cost and the greatest rise once for each hop |
| Journeys.TextsArrive | internal/node/node.go:293-365 | so in a settled network without much drift every text that is sent to another node is handed to the user there |
| Resting.RestIsReachable | internal/routing/alg_lsr.go:200-225 | every connected network of at most sixteen nodes gets there in some run from boot in which nodes announce to those they have links to, at whatever costs its links are measured, and comes to rest |
| Drift.DriftedHopIsCloser | internal/routing/graph.go:48-106 | where a node sends by its own costs is closer to the goal by the announced ones, if none of its links has risen by as much as the link taken costs |
| Drift.MildDriftIsHarmless | internal/routing/alg_lsr.go:41-45 | so forwarding by such tables arrives, for all announced and all measured costs |
| Drift.MildDriftCosts | internal/routing/alg_lsr.go:41-45 | and costs, by the measured costs, no more than the least announced cost and the greatest rise once for each hop |
| Triangles.TriangleArrivesIff | internal/routing/graph.go:48-106 | with three nodes and any costs, announced and measured, a message arrives unless each neighbour of the goal finds the way over the other's announced link cheaper; ties included |
| DriftedNetworks.StoryArrivesIff | internal/routing/alg_lsr.go:200-225 | each such triangle comes about in a run from boot, nodes announcing to those they have links to, in which no rise is announced; one rise can be enough for the message to come back and be dropped |
| DriftedNetworks.DriftIsSafeIff | internal/routing/alg_lsr.go:41-45 | if links may rise unannounced by less than one bound and cost at least another, every message in every network of at most sixteen nodes arrives if and only if the first bound is at most the second, over all runs that settle and over those alone in which nothing is lost and nodes announce to those they have links to |

## Left out

- Transport, JSON, checksums and the inbox: connections, timeouts, encoding, `DecodeLSPFlexible` (a payload is readable or not) and the CRC header, which never affects processing; a full inbox is the loss step of `MessageFlood` and `LinkStateRuns`.
- Random ids and clocks: message ids are given and unique; time is an argument. Tickers and goroutine scheduling are steps in any order.
- Floating point: costs and seconds are reals, so rounding, infinities and NaN are not part of this model.
- Integers: sequence numbers and hop budgets are unbounded; 64-bit overflow is not part of this model.
- Healing.FloodConverges: for orderly runs without loss on a fixed live graph whose nodes have found all their neighbours; `Healing.LatestHeals` asks this of one announcement only, from when it is made, and so does `PlaneNetworks.RefreshedSinceLastLink`, from when the last link has come up; before that `LateLine.WithoutRefreshIff` is exact, and while links keep going up and down only what holds in every run is claimed.
- EndToEnd.EveryMessageArrives: assumes that each origin has announced undisturbed since the last link came up, without which `LateLine.LastIsStranded` fails, and that no cost has drifted since its last announcement; small drifts update a node's own table unannounced, and `DriftedNetworks.DriftIsSafeIff` says how much of that messages survive, and `EndToEnd.MildDriftCosts` at what cost.
- PlaneNetworks.EveryMessageArrives: assumes the same.
- Journeys.JourneyEnds: a node remembers the id exactly if the journey has been there, which caches do for sixty seconds; addresses are those of one shared sound name table.
- Journeys.TextsArrive: assumes the same.
- HopByHop.DeliveredIffWithinBudget: assumes all tables are of one graph with positive costs, for the same reason.
- LinkStateFlood.RepeatHandled: for orderly runs; in others a copy can be passed on again, by a node where its entry has expired or that takes it for a restart.
- LinkStateFlood.FloodEnds: for orderly runs, of any length and with any losses; with expiry and late copies the same bound holds exactly as long as a cache remembers, `LinkStateSpans.LinksBoundIffWithinMemory`, and `LinkStateLimits.EveryFloodEnds` is the bound over all runs.
- MessageFlood.ReachableDeliversOnce: within the sixty seconds that a cache remembers, which `MessageLimits.ExactlyOnceIff` shows to be exact; over longer runs `MessageReplays.DeliveriesFarApart` is what remains.
- MessageFlood.FloodEnds: likewise, exact by `MessageLimits.LinksBoundIffWithinMemory`; over longer runs `MessageLimits.EveryFloodEnds` is the bound.
- MessageLimits.ExactlyOnceIff: for at least three nodes; on two a message has one copy only.
- LinkState.TableIsCurrent: each handler is one step; `Snapshots` says what is left when the steps of handlers interleave.
- Discovery.DiscoveryAgrees: each handler is one step, although `reapDead` reports outside the lock.
- Sends: the nodes' methods return what is handed to `SendTo`; a neighbour without a known address, for which it fails, is not part of this model.
- Packets.Packet.Clone: header values are immutable, so sharing of a trace slice between copies is not part of this model.
- Packets.Packet.AppendTrace: how a trace would be rendered as text is not modelled.
- Go's iteration order of maps is any order; `sort.Slice` and `sort.Strings` are modelled by their result, the one ascending listing, built by insertion; `container/heap` is modelled from its published algorithm.
- Names: a port-less address is recognised by the absence of a colon, as in the code; IPv6 literals get no special treatment.
- Packet.Decode: only its budget default is modelled, `Packets.DecodedTtl`; fallback message ids are not part of this model.
- `warnSilentNeighbors`, `probeAll`, `reportAsymmetries`, `SilentNeighbors`, `Table.String`, logging and the console beyond its `dijkstra` command: they print, or would only add easy members.
- Start-up and configuration files: `New` is the constructor of `Nodes.Node` over a chosen algorithm; reading JSON is not part of this model.
