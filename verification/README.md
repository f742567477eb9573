# A verified model of the gossip network

This project models a peer-to-peer gossip messenger and proves what its protocols promise. The parts are:

- **The gossip and topic-routing protocol.** `Network.dfy` is a step system over any number of nodes, any
  set of links and any TTL and fan-out: nodes publish, advertise topics, receive, lose and duplicate copies
  in any order, register handshakes, collect expired routes and clear the routes of lost peers. What a node
  does with one message is the function `Receive` in `Gossip.dfy`; `StepLaws.dfy` says what single steps do in
  terms of table entries, connections and clock readings alone. `PathVector.dfy` holds the invariants of
  every run, `LoopFreedom.dfy` those of stretches of a run that delete no route to an origin, whatever came before,
  `Coverage.dfy` proves coverage, convergence, recovery and topic delivery, and `Termination.dfy` bounds all
  traffic. `Deletions.dfy`, with `Cycles.dfy` and `Travel.dfy`, proves exactly which networks deletions can
  make loop.
- **The objects that run it.** `TopicRouter.dfy`, `ConnectionPool.dfy`, `GossipEngine.dfy` and `Node.dfy`
  are classes that change their tables, the message and the outgoing traffic in place, with the loops of the
  program. `Node.dfy` proves a simulation: each method of a node takes any network state that agrees with
  the node to one that agrees again, by steps of the network model, and what it puts on the wire is exactly
  what the model adds to the messages in flight. `Family.dfy` extends this to all nodes at once: after any
  calls on any of them they all agree with the last state of one run from the initial state, so that the
  theorems about runs hold of them.
- **The rate limiter** (`RateLimiter.dfy`): a token bucket per peer with bans.
- **Storage and synchronisation** (`Keys.dfy`, `MessageStore.dfy`, `TopicScans.dfy`, `SyncManager.dfy`): a
  buffered ordered key/value store with composite keys and an index, what scanning a topic returns, and the
  batch streams after a reconnect, which may overlap. `SyncIntake.dfy` says how much of a batch gets past the
  receiver's rate limiter, and `SyncLoss.dfy` what becomes of the rest.
- **Acknowledgements** (`AckManager.dfy`) and the visualizer's **propagation waves** (`Waves.dfy`).

Conventions. The history that the theorems mention (`log`, `emitted`, `forwarded`, the `trail` of a copy)
is recorded beside the state; a node reads none of it, except that a trail ends with the neighbour the copy
came from. A message that fails proof of work, rate limit or signature is a `Lose` step, since these checks
come before deduplication. The random choice of forwarding targets is any choice of the right size. A clock
is read once per call. The ids of new messages are fresh.

Where the code and its own words disagree, the code is modelled. The visible cases, with their exact
conditions:

- Route deletions can make next hops go round: exactly in networks with a cycle of 3 to 2 * maxTtl - 3 nodes
  (`LoopFreeIffNoShortCycle`). They prevent convergence: collection wherever there is a node, a lost connection
  or a LEAVE that comes late wherever there is a link (`ConvergesIff`, `LateLeaveDeletesNewerRoute`), and a
  stale route can stay once all is quiet (`OneDeletionCanLeaveStaleRoute`). The next JOIN repairs both
  (`Recovery`, `LoopFreeAgain`). All these runs need no clock that goes backwards.
- `getRecentMessages` with limit 0 returns everything (`RecentAreLastIff`).
- `getByTopic` and `getRecentMessages` catch messages of some topics that continue the topic after a colon,
  and of those that the topic spells out together with a timestamp (`ForeignIff`, `ScansRightIff`,
  `RecentAreLastIff`); `getByTopic` misses timestamps that overflow the padding (`RangeScanReturns`).
- `prune` skips topics that start with `~` or a later character (`PruneCompleteIff`).
- A message to no peers is never confirmed by itself but fails after the third timeout (`NoPeersFails`).
- The watermark of a sync can fall when the peer reconnects during a stream (`RunLowersIff`,
  `OverlapLowersWatermark`).
- A sync batch is acknowledged even when the rate limiter drops part of it (`BatchTakenWholeIff`); the
  watermark passes what was dropped, so that it is not sent again (`DroppedForGood`), and the default capacity
  of 20 tokens is below the batch size of 100 (`DefaultCapacityIsTooSmall`).
- `broadcast` also reaches inbound connections, so that a peer that is connected both ways, and no other, gets
  a message twice (`OneCopyEachIff`).

## Model

| member | source | states |
|---|---|---|
| TopicRouting.RouteTableConfluence | protocol/topicRouter.js:49-73 | after any sequence of offers the stored route is the first one that attains the best (sequence, hop count) ever offered, with the latest lease among it and its renewals; nothing is stored only if nothing was offered |
| TopicRouting.OrderOfOffersIrrelevant | protocol/topicRouter.js:49-73 | two sequences of the same offers store the same sequence number and hop count, whatever their order |
| TopicRouting.LookupAccept | protocol/topicRouter.js:49-73 | an offer changes the entry it addresses and no other |
| TopicRouting.AcceptMeaning | protocol/topicRouter.js:49-73 | an offer is installed if and only if there is no entry, or it has a higher sequence number, or the same one and fewer hops; otherwise the entry stays, with a later lease if the offer has the same sequence number and next hop |
| TopicRouting.AcceptKeepsNoEmptyTopic | protocol/topicRouter.js:49-73 | updating leaves no topic without entries |
| TopicRouting.RetainNoEmptyTopic | protocol/topicRouter.js:78-88 | no deletion leaves a topic without entries |
| TopicRouting.PeersForTopicMeaning | protocol/topicRouter.js:97-108 | the peers of a topic are exactly the next hops of its unexpired entries |
| TopicRouting.TopicsOfMeaning | protocol/topicRouter.js:116-128 | the topics of a peer are "global", its direct topic and those with a route to it, so that a topic it has offered a route for is one of them |
| TopicRouting.RemovedExactly | protocol/topicRouter.js:78-88 | removing a route removes the entry of this origin for this topic; every other entry stays, also of the same topic or origin |
| TopicRouting.CollectionInvisible | protocol/topicRouter.js:153-164 | collecting expired routes cannot be observed by any later lookup of peers |
| TopicRouting.CollectedExactly | protocol/topicRouter.js:153-164 | collecting leaves exactly the routes whose lease is not over |
| TopicRouting.ClearedExactly | protocol/topicRouter.js:135-146 | clearing a peer leaves exactly the routes that neither start at it nor pass through it |
| TopicRouting.TopicRouter.UpdateRoute | protocol/topicRouter.js:49-73 | the entry afterwards is the new route, the old one or the old one with a later lease, by sequence numbers, hops and next hops; the result says whether it is the new one, and no other entry changes |
| TopicRouting.TopicRouter.RemoveRoute | protocol/topicRouter.js:78-88 | exactly that entry is gone, every other one stays, and the result says whether it was there |
| TopicRouting.TopicRouter.GetPeersForTopic | protocol/topicRouter.js:97-108 | the loop computes exactly the next hops of the entries for the topic whose lease is not over |
| TopicRouting.TopicRouter.GetTopicsForPeer | protocol/topicRouter.js:116-128 | exactly "global", the direct topic of the peer and every topic with a route to it |
| TopicRouting.TopicRouter.ClearRoutesForPeer | protocol/topicRouter.js:135-146 | the nested deletion loops leave exactly the entries whose origin and next hop are both other peers |
| TopicRouting.TopicRouter.Gc | protocol/topicRouter.js:153-164 | the nested deletion loops leave exactly the entries whose lease is not over |
| PathVector.PathVectorInvariant | protocol/gossipEngine.js:117-161 | in every run, an advertisement in flight carries a duplicate-free path of links from its sender to the node that sent this copy, avoiding the receiver, and path length plus TTL is the maximal TTL; the routes installed from it are the subject of `InstalledRoutes` |
| PathVector.InstalledRoutes | protocol/gossipEngine.js:117-140 | in every run, deletions included, every installed route is a handshake's direct one or has hop count = path length, next hop = last node of the path, and a simple path of fewer than maxTtl nodes along links from the origin, the originator's own entry being the empty path; no route is newer than what its origin advertised |
| PathVector.NextKeepsShape | protocol/topicRouter.js:49-164 | every step of the network, deletions included, keeps all routes of these forms |
| PathVector.HopBound | protocol/gossipEngine.js:142-198 | in every run, no copy is beyond its (maxTtl - 1)-th hop, and none visited a node twice |
| PathVector.AtMostOnce | protocol/gossipEngine.js:97-105 | in every run, each node emits and broadcasts each message at most once, and has emitted every ordinary message it has seen |
| PathVector.NextKeepsBase | protocol/gossipEngine.js:66-199 | every step of the network, deletions included, keeps the path and history invariants |
| Gossip.EligibleMeaning | protocol/gossipEngine.js:207-230 | a peer is eligible if and only if it is connected, neither the sender nor the neighbour the message came from, and, unless the topic is empty or "global", the next hop of an entry for the topic whose lease is not over |
| Gossip.ChoiceMeaning | protocol/gossipEngine.js:232-240 | a choice takes eligible peers only, at most as many as the fan-out, and all if it takes fewer |
| StepLaws.Origination | node/index.js:252-292 | a new message starts with the whole TTL and no path; an advertisement carries the next sequence number of its node and topic, and no other counter changes |
| StepLaws.Forwarding | protocol/gossipEngine.js:187-254 | a node that has seen an ordinary message, or gets it with no TTL beyond its own hop, sends nothing; any other sends it with the TTL reduced by one, over every connection, to as many targets as the fan-out allows; targets are the connected peers that are neither sender nor inbound neighbour and, for a topic of its own, next hops of live entries; only the first arrival is emitted, and no table entry changes |
| StepLaws.ScopedCopiesFollowRoutes | protocol/gossipEngine.js:211-221 | whenever a copy of a message with a topic of its own is sent, the sending node has a live entry for this topic whose next hop is the receiver |
| StepLaws.Advertisement | protocol/gossipEngine.js:117-163 | a JOIN that is heard for the first time and off its path replaces the entry of its sender for its topic if it is better, and otherwise at most prolongs it, for 30 seconds from now; a LEAVE removes this entry; no entry of another topic, origin or node changes |
| StepLaws.AdvertisementPassedOn | protocol/gossipEngine.js:142-183 | an advertisement is passed on exactly when it changes the table for the better or removes an entry, and has TTL beyond this hop: to exactly the connected peers that are neither on its path nor its sender nor the inbound neighbour, with the TTL reduced and the path extended |
| StepLaws.DeletesIff | protocol/topicRouter.js:78-164 | a step deletes the entry of an origin for a topic if and only if it is the arrival of this origin's LEAVE for this topic, a collection after the lease, or the loss of the next hop or the origin as a neighbour |
| StepLaws.OthersOnlyDelete | protocol/topicRouter.js:135-164 | losses, duplications, collections and lost neighbours never enter or change a route |
| StepLaws.HandshakeEntry | node/index.js:169-181 | a handshake enters a direct route of sequence number 0 with a lease of 30 seconds where there is none, renews one of this number, and changes no other entry |
| LoopFreedom.LoopFree | protocol/gossipEngine.js:117-140 | in every run that deletes no route to an origin for a topic, following next hops to it never visits a node twice, whatever is lost, duplicated or reordered, and whatever is deleted of other routes |
| LoopFreedom.LoopFreeAgain | protocol/gossipEngine.js:117-140 | after any past, with any deletions and losses, once no route to the origin for the topic is deleted any more, next hops do not go round from any node that has heard an advertisement issued since |
| LoopFreedom.NoDeletionsKeep | protocol/topicRouter.js:78-164 | a run without LEAVE, collection and cleared peers deletes no route at all |
| LoopFreedom.NextHopIsBetter | protocol/topicRouter.js:49-73 | in such runs every hop that does not end at the origin leads over a link to a node with a strictly better (sequence, hop count) |
| LoopFreedom.RoutesReachOrigin | protocol/gossipEngine.js:117-140 | in such runs no entry is a dead end: its next hops lead to the origin along links |
| LoopFreedom.NextKeepsRoutes | protocol/gossipEngine.js:117-161 | every step that deletes no route to the origin for the topic keeps the invariant of the routes that are newer than the stretch |
| Deletions.OneDeletionCanLoop | protocol/topicRouter.js:78-164 | in every network with a cycle of 3 to 2 * maxTtl - 3 nodes and for each kind of deletion (LEAVE, collection, cleared neighbour) there is a run without losses, with deletions of this kind only and no clock that goes backwards, after which two nodes are each other's next hop by routes that have not expired |
| Deletions.LoopNeedsShortCycle | protocol/gossipEngine.js:117-161 | in every run, whatever it deletes, next hops go round only if the links have such a cycle |
| Deletions.LoopFreeIffNoShortCycle | protocol/topicRouter.js:78-164 | for each kind of deletion: all runs in which no clock goes backwards are free of loops of unexpired routes if and only if the links have no simple cycle of 3 to 2 * maxTtl - 3 nodes |
| Deletions.LoopFreeIffForest | protocol/topicRouter.js:78-164 | with at most maxTtl nodes, they are if and only if the links have no simple cycle of three or more nodes |
| Deletions.OneDeletionCanLeaveStaleRoute | protocol/gossipEngine.js:122-161 | in every network with such a cycle there is a run without losses, in which no clock goes backwards, that ends with nothing in flight, in which a node connected to the origin holds the route of sequence number 1 although the origin has advertised a newer one, and, unless the origin left, two nodes stay each other's next hop |
| Deletions.ConvergesIff | protocol/topicRouter.js:78-164 | all runs with deletions of one kind, in which no clock goes backwards, leave the newest JOIN at every connected node once no copy of it is lost or in flight, if and only if, for collection, there are no nodes, and, for lost connections and for LEAVE, there are no links |
| Deletions.LateLeaveDeletesNewerRoute | protocol/gossipEngine.js:162-183 | on every link, with a TTL of at least two: a LEAVE that a newer JOIN overtakes deletes the neighbour's newer route, since LEAVE has no sequence check; nothing is lost, and in the end nothing is in flight |
| Deletions.NeighbourDisconnected | node/index.js:146-152 | on every link, with a TTL of at least two: a neighbour that lost the connection has no route, although nothing was lost and nothing is in flight |
| Deletions.OwnRouteCollected | node/index.js:239-242 | at every node: its own route is collected when its lease is over |
| Travel.Spreads | protocol/gossipEngine.js:122-183 | along any path of links of at most maxTtl nodes that are ready for it, a JOIN or LEAVE can be delivered node by node at any time, leaving at each its route with the lease from that time (or none), and the copy for the next one in flight |
| Coverage.GossipCovers | protocol/gossipEngine.js:187-254 | if no copy of a global message is lost, the fan-out is enough for it and there are at most maxTtl nodes, then once no copy of it is in flight it has been emitted exactly once at every node connected to its publisher, whatever happens to other messages |
| Coverage.TopicDelivery | protocol/gossipEngine.js:207-254 | once routes to a subscriber were learned and none of them was deleted, and while they hold and live, a topic message of which no copy is lost, and for which the fan-out is enough, reaches it through transit nodes and is emitted there exactly once |
| Coverage.DeliveryFromRoutes | protocol/gossipEngine.js:207-254 | the same after any past, for routes learned in a later stretch that deletes none of them |
| Coverage.Convergence | protocol/gossipEngine.js:122-161 | without deletions, when no copy of the newest advertisement was lost and none is in flight any more, every connected node holds its sequence number and its next hops lead to the origin, whatever was lost of other messages |
| Coverage.Recovery | protocol/gossipEngine.js:122-161 | after any past, with any deletions and losses, one later JOIN of which no copy is lost, in a stretch that deletes no route of its origin and topic, brings every connected node up to date, with next hops that lead to the origin, whatever happens to other routes and messages |
| Coverage.DeliveryAfterConvergence | protocol/gossipEngine.js:117-254 | after any past, once such a JOIN has spread, a topic message published at any node connected to the subscriber is emitted there exactly once |
| Coverage.SmallDegreeIsRoomy | protocol/gossipEngine.js:228-234 | if no node has more neighbours than the fan-out, the fan-out never limits a run |
| Coverage.StepServes | protocol/gossipEngine.js:97-254 | every step that loses no copy of the message keeps the key invariant: each peer a forwarder owes the message has seen it or has a copy on the way |
| Termination.TrafficBound | protocol/gossipEngine.js:97-198 | in every run of N nodes, deliveries, losses and copies in flight number at most originations * N * (2N + 1) + duplications |
| Termination.Quiescence | protocol/gossipEngine.js:97-198 | from every reachable state, delivering what is in flight empties the network within the potential of the state |
| Transport.ConnectionPool.GetAllPeerIds | transport/connectionPool.js:160-166 | every connected peer exactly once |
| Transport.ConnectionPool.Broadcast | transport/connectionPool.js:122-141 | one transmission over every outbound and every inbound connection to a peer that is not excluded, and nothing else |
| Transport.ConnectionPool.SendReply | transport/connectionPool.js:101-115 | one reply over one connection if the peer is connected either way, and otherwise none |
| Transport.CopiesCount | transport/connectionPool.js:122-141 | sending to a set of targets puts one copy on each connection to one of them and nothing else on any |
| Transport.OneCopyEachIff | transport/connectionPool.js:122-141 | among connected targets, everyone gets exactly one transmission if and only if none of them is connected both ways |
| Transport.ConnectedBothWays | transport/connectionPool.js:122-141 | concretely, a peer that is connected both ways gets two |
| Engine.GossipEngine.Pick | protocol/gossipEngine.js:232-240 | the splicing loop picks exactly min(fan-out, candidates) distinct candidates |
| Engine.GossipEngine.Candidates | protocol/gossipEngine.js:209-230 | without repetition, exactly the connected peers that are neither the sender nor the inbound neighbour and, unless the topic is empty or "global", are the next hop of an entry for the topic whose lease is not over |
| Engine.GossipEngine.BroadcastTo | protocol/gossipEngine.js:246-252 | excluding everyone but the targets sends to exactly the targets |
| Engine.GossipEngine.ForwardMessage | protocol/gossipEngine.js:207-254 | an ordinary message goes to such peers only, to at most as many as the fan-out and to all if these are fewer, and to nobody else |
| Engine.GossipEngine.ForwardAd | protocol/gossipEngine.js:142-161 | TTL and path are changed in place and the changed message goes to exactly the peers it has not come through |
| Engine.GossipEngine.ApplyAd | protocol/gossipEngine.js:126-163 | a LEAVE removes the entry of its sender for its topic, a JOIN that changes anything enters its route for 30 seconds, an unknown action does nothing, and no other entry changes; the result says whether anything changed |
| Engine.GossipEngine.ReceiveMessage | protocol/gossipEngine.js:66-199 | a message that fails proof of work, rate limit or signature changes nothing but the rate limiter, and without proof of work not even that; an accepted one leaves the seen set, the table, the message, the traffic and the emitted events that the model's `Receive` describes; nothing is ever emitted twice |
| Node.P2PNode.OnGossip | node/index.js:193-196 | an arriving copy is a `Deliver` or `Lose` step of the network, and `Deliver` exactly if proof of work and signature are valid and the limiter admits it; no other peer's account changes |
| Node.P2PNode.Publish | node/index.js:252-266 | publishing is a `Publish` step of the network |
| Node.P2PNode.AdvertiseSubscription | node/index.js:276-292 | advertising takes the topic's next sequence number and is an `Advertise` step of the network |
| Node.P2PNode.RefreshSubscriptions | node/index.js:294-298 | refreshing is a run of one JOIN per subscription, each under its next sequence number |
| Node.P2PNode.Subscribe | node/index.js:300-304 | a new subscription is one JOIN step, a repeated one no step at all |
| Node.P2PNode.Unsubscribe | node/index.js:306-310 | ending a subscription is one LEAVE step, ending none no step at all |
| Node.P2PNode.RegisterSubscriptions | node/index.js:162-184 | a handshake is a run of one `Handshake` step per shared topic; afterwards each has a route to the peer, and no other entry has changed |
| Node.P2PNode.OnPeerGone | node/index.js:146-152 | losing a connected peer is a `Disconnect` step of the network |
| Node.P2PNode.CollectRoutes | node/index.js:239-242 | the collection timer is a `Collect` step of the network |
| Node.P2PNode.ReceiveSyncBatch | storage/syncManager.js:149-165 | the loop leaves exactly the seen set and the sender's account that taking the messages one by one through deduplication, proof of work, rate limit and signature gives, and exactly the tables, the emitted events and the copies sent that processing those taken in gives, for legitimate choices of targets; each newly seen ordinary message is emitted exactly once; the SYNC_ACK goes to the sender in any case, except that a payload that is no list is left alone and not acknowledged |
| Node.P2PNode.Inject | storage/syncManager.js:154-158 | a message seen before does nothing; any other goes through the engine's checks, and its effect, copies sent included, is that of `Receive` |
| SyncIntake.BatchBound | storage/syncManager.js:149-165 | the new messages a batch brings number at most the sender's tokens plus the refill while it is processed |
| SyncIntake.EnoughTokens | storage/syncManager.js:149-165 | a valid batch for which the sender has the tokens, and no ban, is taken in whole |
| SyncIntake.NothingTaken | storage/syncManager.js:149-165 | messages that were seen before or fail proof of work leave no trace, not even with the rate limiter; new ones that fail the signature check cost their sender and are not taken in |
| SyncIntake.BatchTakenWholeIff | storage/syncManager.js:149-165 | for all clock readings: a batch of new and valid messages is taken in whole if and only if the sender is not banned, its balance and the refill cover the messages so far at each one, and no later stretch has more than the capacity and the refill cover |
| SyncIntake.TakenIffAdmitted | storage/syncManager.js:149-165 | of such a batch exactly those messages are taken in whose call the limiter admits |
| SyncLoss.DroppedForGood | storage/syncManager.js:68-165 | end to end: if the receiver cannot afford a batch of new and valid messages of a stream on its own, one of them is dropped, the sender's watermark passes it, and no later stream that does not overlap another collects it again |
| SyncLoss.PassedForGood | storage/syncManager.js:117-122 | whatever such a stream has sent lies below the watermark it leaves, and is never collected again |
| SyncLoss.DefaultCapacityIsTooSmall | config/default.js:76-77 | with the default capacity no batch of more than 20 messages processed at one instant is affordable |
| Node.DeliveryMatches | protocol/gossipEngine.js:66-199 | what a node does with an accepted copy is exactly a `Deliver` step of the model |
| Node.OriginationMatches | node/index.js:276-292 | what a node does with its own new message is exactly a `Publish` or `Advertise` step of the model |
| Family.FrameMatches | node/index.js:154-199 | a step at another node, or in the network alone, keeps a node in agreement with the state |
| Family.InitialMatches | node/index.js:67-72 | a new node agrees with the initial state |
| Family.Perform | node/index.js:154-310 | whatever is asked of a node is the run of steps at this node that the call stands for, such as one JOIN for a new subscription and none for a repeated one |
| Family.Act | node/index.js:154-310 | if all nodes agree with the last state of a run, then after any call on any of them they all agree with the last state of a longer run, in which what is in flight is what was there, less what the call consumed, plus what it sent |
| Family.NetworkActs | transport/connectionPool.js:122-141 | losses and duplications between the calls keep all nodes in agreement |
| RateLimiting.WindowBound | protocol/rateLimiter.js:94-124 | in every run and every window, the calls admitted number at most the capacity plus the refill of the window, bans included |
| RateLimiting.ClosedForm | protocol/rateLimiter.js:72-87 | for a new peer, whatever became of its calls, the tokens a call finds are the minimum over all calls so far of a full bucket then, less the calls admitted since, plus the refill since; so refusals are free, and the bucket fills during a ban |
| RateLimiting.ClosedFormFrom | protocol/rateLimiter.js:72-87 | the same from any account, with the first balance in place of the first full bucket |
| RateLimiting.AdmittedFromIff | protocol/rateLimiter.js:94-124 | from any account, all calls are admitted if and only if the peer is not banned at first, the calls so far never exceed the first balance plus the refill, and those of no later window the capacity plus the refill |
| RateLimiting.NeverRefusedIffConforming | protocol/rateLimiter.js:94-160 | a peer is never refused, and so never banned, if and only if its calls in every window keep to the capacity plus the refill |
| RateLimiting.BanExactlyAtEleventh | protocol/rateLimiter.js:131-160 | a refusal by the bucket bans if and only if it is at least the 11th within the last 60 seconds since the last ban; the history stays sorted and has at most 10 entries between calls |
| RateLimiting.BlockedExactlyWhileBanned | protocol/rateLimiter.js:94-177 | a call is turned away as banned if and only if an earlier call banned the peer and five minutes have not passed since |
| RateLimiting.VerdictExactly | protocol/rateLimiter.js:94-177 | every verdict of every run from the verdicts before: blocked if and only if some call of the last 300000 ms banned the peer; otherwise admitted if and only if from every earlier call on the admitted ones and itself keep to capacity plus refill; otherwise banning if and only if there were ten refusals before it within 60000 ms since the last ban |
| RateLimiting.PrunedIsWithin | protocol/rateLimiter.js:136-143 | on a sorted history, dropping leading old entries leaves exactly the entries within the window |
| RateLimiting.RateLimiter.Refill | protocol/rateLimiter.js:72-87 | the bucket afterwards is the refilled one; a new peer gets a full one, and a clock that has not advanced changes nothing |
| RateLimiting.RateLimiter.CheckLimit | protocol/rateLimiter.js:94-124 | verdict and account follow the one-call specification; a pending ban turns the call away and changes nothing, a new ban lasts until 300000 ms from now, and no other peer's account changes |
| RateLimiting.RateLimiter.RecordViolation | protocol/rateLimiter.js:131-148 | the pruning loop and the ban leave the account that a refusal calls for |
| RateLimiting.RateLimiter.ShouldBan | protocol/rateLimiter.js:155-160 | true exactly above ten entries |
| RateLimiting.RateLimiter.ApplyBan | protocol/rateLimiter.js:167-176 | the peer counts as banned exactly up to five minutes after the call, its history is forgotten, its bucket stays, and no other peer is affected |
| Keys.PaddedOrder | storage/messageStore.js:40-44 | below 10^15, zero-padded decimals compare as strings exactly as their numbers do |
| Keys.PaddedSince | storage/messageStore.js:77-100 | for all exact integers, the scan's lower bound lets a later timestamp in if and only if the padding does not overflow between them |
| MessageStorage.KeyInjective | storage/messageStore.js:40-44 | messages that differ in id, topic or timestamp never share a key, for ids without colons |
| MessageStorage.KeyFormat | storage/messageStore.js:40-44 | concretely, timestamp 42 of topic "global" is padded to 15 digits between topic and id |
| MessageStorage.BufferedRefinesPlain | storage/messageStore.js:51-69 | after any sequence of saves, flushes and prunes the buffered store answers as if every save had been immediate |
| MessageStorage.SaveKeepsIndexIff | storage/messageStore.js:135-147 | saving keeps messages and index entries in bijection if and only if the id is new or saved again under the same key |
| MessageStorage.RunKeepsIndex | storage/messageStore.js:135-189 | after any run with unique ids, index entries and messages are in bijection |
| MessageStorage.RunHolds | storage/messageStore.js:135-189 | after any run of saves with unique ids, flushes and prunes, reads see exactly the messages that were saved and that no later pruning was due to delete |
| MessageStorage.PruneExact | storage/messageStore.js:165-189 | pruning removes exactly the messages created before the cutoff that its scan sees, and their index entries with them |
| MessageStorage.PruneCompleteIff | storage/messageStore.js:165-189 | it removes exactly the messages older than the cutoff if and only if no old message has a topic from `~` on |
| TopicScans.ForeignIff | storage/messageStore.js:77-100 | which messages of other topics fall into a scan, told from topics, timestamp and id: those whose topic continues the scanned one after a colon with something that sorts above the lower end and does not start at or above `~`, and those whose topic, a colon and padded timestamp spell the scanned topic |
| TopicScans.RangeScanReturns | storage/messageStore.js:77-100 | for all exact timestamps, which message a topic scan returns: the newer ones of its topic unless the padding overflows, and the newer ones of other topics that fall into it in these two ways |
| TopicScans.ScanIsTopicLogIff | storage/messageStore.js:77-100 | with 15-digit timestamps, a scan is the topic's newer messages in (timestamp, id) order if and only if no stored newer message falls into it in one of these ways |
| TopicScans.ScanOfRun | storage/messageStore.js:77-189 | from saves to reads: after any run with unique ids and 15-digit timestamps, a scan yields exactly the newer messages of its topic that were saved and not due to be pruned since, in (timestamp, id) order, if and only if none of those of other topics falls into it |
| TopicScans.ScansRightIff | storage/messageStore.js:77-100 | for every store with these topics and every `since`: scans of a topic are right if and only if no other topic in use continues it after a colon in the scanned range, and it is none of them followed by a colon and a 15-digit timestamp |
| TopicScans.SeparateTopicsScan | storage/messageStore.js:77-100 | in particular they are right when no stored topic continues another one after a colon |
| TopicScans.ContinuedTopicIsReturned | storage/messageStore.js:77-100 | and every newer message of a topic that continues the scanned one after a colon with a character between `9` and `~` is returned too |
| TopicScans.DirectMessagesShowUpUnderDm | storage/messageStore.js:77-100 | concretely, reading topic "dm" yields direct messages |
| TopicScans.SpelledTimestamp | storage/messageStore.js:77-100 | concretely, reading the topic that spells "a" and timestamp 5 yields a message of topic "a" |
| TopicScans.SixteenDigitsAreMissed | storage/messageStore.js:40-44 | concretely, a newer message with a 16-digit timestamp is missed |
| TopicScans.ChatScanIsChatLogIff | node/index.js:315-333 | a chat scan is the topic's chat messages in (timestamp, id) order if and only if no stored chat message of another topic falls into it in one of the two ways |
| TopicScans.RecentAreLastIff | node/index.js:315-333 | end to end: for all positive limits the result is the last `limit` chat messages of the topic, if and only if no stored chat message of another topic falls into the scan; for limit 0 it is so if and only if there is nothing to return |
| MessageStorage.MessageStore.Flush | storage/messageStore.js:51-69 | the buffered writes are in the database, in order, and the buffer is empty |
| MessageStorage.MessageStore.Save | storage/messageStore.js:135-147 | message and index entry are buffered in this order with a flush scheduled, or in the database with an empty buffer once that makes 50 writes |
| MessageStorage.MessageStore.GetById | storage/messageStore.js:108-122 | the one stored message with this id, if there is one |
| MessageStorage.MessageStore.GetByTopic | storage/messageStore.js:77-100 | the scan of what was saved so far, buffered writes included |
| MessageStorage.MessageStore.Prune | storage/messageStore.js:165-189 | the store afterwards is the pruned one, with nothing buffered |
| TopicScans.GetRecentMessages | node/index.js:315-333 | the last `limit` messages of the topic's chat scan for a positive limit, all of it for limit 0, and all but the first ones for a negative limit; if no stored chat message of another topic falls into the scan, a positive limit gives the last messages of the topic's chat log |
| MessageStorage.CollectMessages | storage/messageStore.js:86-99 | the reading loop collects exactly the accepted messages under the keys |
| MessageStorage.CollectDeletions | storage/messageStore.js:166-187 | the pruning loop collects both deletions for every old message, or none at all when it meets an entry that is no message |
| Synchronisation.SortedLemma | storage/syncManager.js:88-89 | sorting permutes, orders by Lamport timestamp, and keeps the order of equal timestamps |
| Synchronisation.StreamSendsAll | storage/syncManager.js:68-127 | when a stream is over, whatever acknowledgements, timeouts and further reconnects there were, its batches of 1 to 100 messages concatenate to a permutation of what was collected, in Lamport order |
| Synchronisation.OneBatchInFlight | storage/syncManager.js:97-123 | a stream has sent one batch more than acknowledgements and timeouts let it go on, it waits for the last one it sent, and it waits exactly as long as messages are left |
| Synchronisation.EventMeaning | storage/syncManager.js:84-181 | what each event does: the expected acknowledgement, and no other, and the timeout of any wait end that wait and send the next batch of at most 100 messages, or end the stream and settle the watermark; a reconnect with something to send begins a stream in Lamport order |
| Synchronisation.AcknowledgedStreamEnds | storage/syncManager.js:100-181 | without any timeout, a stream on its own of n messages is over with its ceil(n / 100)-th acknowledgement in order, and not before, and leaves the watermark at its latest timestamp unless that was higher |
| Synchronisation.WatermarkMonotone | storage/syncManager.js:117-122 | over any run in which the peer does not reconnect while a stream waits, the watermark never decreases |
| Synchronisation.RunLowersIff | storage/syncManager.js:117-122 | with any overlap of streams, a run lowers the watermark somewhere if and only if some stream ends with a maximum above the watermark it began with, and below one that another stream has stored since it began |
| Synchronisation.OverlapLowersWatermark | storage/syncManager.js:68-141 | concretely, two overlapping streams up to 50 and up to 20 that time out leave the watermark at 20 |
| Synchronisation.SingleStreamWatermark | storage/syncManager.js:117-122 | when a stream was alone, the watermark ends at the latest timestamp sent, if that is above where it was, and otherwise there |
| Synchronisation.TopicLogExtendsDelta | storage/syncManager.js:74-81 | adding the log of one more topic to what was collected yields exactly the messages of these topics above the watermark, each once |
| Synchronisation.CollectDelta | storage/syncManager.js:74-81 | with 15-digit timestamps, the loop over the peer's topics collects the stored messages above the watermark and those that fall into a scan of these topics, and exactly the former, each once, if and only if there are none of the latter |
| Synchronisation.SyncManager.OnPeerReconnected | storage/syncManager.js:68-127 | a reconnect begins a stream of what was collected, if anything, beside those that are under way; with 15-digit timestamps that is exactly the delta over "global", the direct topic of the peer and the topics with a route to it, under the condition of `CollectDelta`; no other peer is affected |
| Synchronisation.SyncManager.StartStream | storage/syncManager.js:88-103 | the stream starts from the stored watermark with its messages sorted |
| Synchronisation.SyncManager.Transmit | storage/syncManager.js:100-116 | the next batch goes out and its acknowledgement is the one expected now, whichever was expected before |
| Synchronisation.SyncManager.Resume | storage/syncManager.js:97-123 | after a wait the next batch goes out, or the watermark is stored and the stream is over |
| Synchronisation.SyncManager.ReceiveSyncAck | storage/syncManager.js:170-181 | the expected acknowledgement ends its wait, and the next batch of at most 100 messages is sent and expected, or the stream ends and its latest timestamp is stored if it is above that at its start; any other id changes nothing |
| Synchronisation.SyncManager.AckTimeout | storage/syncManager.js:132-141 | the safety timer ends its wait in the same way, and gives up the expected acknowledgement, even another stream's |
| Acknowledgement.ExactlyOneOutcome | protocol/ackManager.js:26-116 | a tracked message is confirmed once if some acknowledgement leaves nobody out before the third timeout, otherwise fails once at the third timeout with exactly the peers that have not acknowledged by then; one transmission at first and one after each of the first two timeouts before the outcome, one live timer exactly while pending |
| Acknowledgement.CompletedMeansAllAcked | protocol/ackManager.js:93-116 | for a non-empty set of peers it is confirmed if and only if all had acknowledged at some moment before the third timeout |
| Acknowledgement.RetriesGoToTheMissing | protocol/ackManager.js:71-86 | each retry goes to exactly the peers that have not acknowledged by the timeout that causes it |
| Acknowledgement.NoPeersFails | protocol/ackManager.js:26-86 | concretely, a message to no peers fails after three timeouts |
| Acknowledgement.AckManager.SendWithAck | protocol/ackManager.js:26-45 | one transmission, one timer and a new entry; other ids are untouched |
| Acknowledgement.AckManager.HandleTimeout | protocol/ackManager.js:71-86 | a retry to the missing peers or the failure report, as the number of attempts says |
| Acknowledgement.AckManager.ReceiveAck | protocol/ackManager.js:93-116 | the peer is struck off, and the last one confirms the message and clears its timer |
| Waves.BuildAdjacency | visualizer/src/simulation/gossipEngine.js:30-40 | a node's neighbours are exactly those it shares a live edge with, each as often as live edges lead there |
| Waves.SampleK | visualizer/src/simulation/gossipEngine.js:43-46 | min(k, length) elements of the array, no occurrence twice, and all of them when k allows |
| Waves.ComputeGossipWaves | visualizer/src/simulation/gossipEngine.js:58-92 | it terminates; every transmission uses a live edge and carries its wave's number; whoever was first reached in one wave sends min(fan-out, live edge ends) transmissions in the next one, over no edge end twice, and nobody else sends any; whoever is reached in the first k waves has a live path of at most k edges; and if no node has more neighbours than the fan-out, the converse holds, so first waves are distances and all that can be reached are reached |
| Waves.BallIsWithinHops | visualizer/src/simulation/gossipEngine.js:58-92 | the layers of the search are exactly the nodes with a live path of that many edges |

## Left out

- Coverage.Recovery: says nothing of a stretch in which routes of the same origin and topic are deleted, for which `Deletions.ConvergesIff` says when convergence can be expected.
- `subscribe` and `unsubscribe` of the router and the engine's proxies for them, which enter routes with an endless lease: not used by the node.
- Coverage.TopicDelivery: assumes that the routes to the subscriber keep their next hops and do not expire while the message spreads; how often leases must be refreshed for that depends on real time.
- Links are fixed during a run and symmetric, with correct and non-empty peer ids; `connect`, `disconnect`, reconnection, PEX, mDNS and bootstrap are not part of this model.
- Node.P2PNode.ReceiveSyncBatch: stands beside the step system, whose theorems are about gossip copies; messages that come back from a peer's storage would be further originations.
- Node.P2PNode.Publish: chat commands that start a summary, and the summaries themselves, are not part of this model; the content of a message does not matter to it.
- Family.Act: calls happen one at a time, as in one event loop per node whose turns are interleaved.
- Proof of work, signatures, key registration, JSON and UUIDs: parameters, fresh ids, and the outcome `Unparsable` of a payload.
- The Lamport clock's update on receipt, metrics, logging, heartbeats, the pending queue, the AI service, HTTP, the command line and the user interface: would only add easy members.
- RateLimiting.WindowBound: tokens are exact reals, not rounded floating-point numbers; the defaults for missing options are not part of this model.
- MessageStorage.MessageStore.Prune: database batches and iterators are atomic and successful; read errors, `markDelivered` and creation dates that are no dates beyond "never older" are not part of this model.
- MessageStorage.RunKeepsIndex: ids contain no colon, as UUIDs do not; without that two messages can share a key.
- TopicScans.ScansRightIff: covers timestamps of up to 15 digits and ids without colons; longer timestamps are the subject of `TopicScans.RangeScanReturns`.
- Synchronisation.SyncManager.OnPeerReconnected: reading the watermark, collecting and the first send are one step; the watermark is a map from peers to numbers rather than text under a `sync:` key.
- Synchronisation.WatermarkMonotone: does not say that everything up to the watermark was acknowledged, since a stream goes on after a timeout.
- Acknowledgement.AckManager.SendWithAck: peers are a set, and one round of transmission is recorded as its set of peers; the latency metric and the fallback to a broadcast are not part of this model.
- Waves.ComputeGossipWaves: random latencies and `computeHealingEdges` are not part of this model.
