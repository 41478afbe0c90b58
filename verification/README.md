# A verified model of Pearl's event-driven cores

Pearl is a node, an SPV client and a DNS seeder written in Go. Their hardest code
keeps mutable indexes, queues and caches consistent while many goroutines, peers and
chain reorganizations act on them. This project models six of those cores in Dafny
and proves what holds in every run.

Code that changes state in place is modelled the same way: a class with the
original's fields, a method for each handler, arrays for buffers that are shifted or
extended in place. Each method is proved against functions on values, and the lemmas
about those functions say what the functions are for. What the code does not control
(the moment of a disconnect, which select case is ready, the best chain at a call,
map iteration order) is an argument, a nondeterministic choice or a schedule, so a
statement about all schedules is one about all runs.

| file | what it models |
|---|---|
| `BlockTree.dfy`, `CheckpointCache.dfy` | the block index, and the BIP 157 checkpoint header cache that is extended in place and survives reorganizations |
| `Wire.dfy`, `WsClient.dfy` | blocks, transactions, websocket clients and their filters |
| `Subscriptions.dfy` | the websocket notification handler with its two-way subscription indexes |
| `FilterScan.dfy` | the two implementations of transaction filtering |
| `Rescan.dfy`, `RescanChunks.dfy` | the rescan of one block, and the chunked rescan over a changing chain |
| `Delivery.dfy` | the two queues made of channels that deliver notifications |
| `BatchSpendReporter.dfy` | the SPV client's batched search for spends |
| `PeerTable.dfy`, `SpvPeerTable.dfy` | the peer tables and peer lifecycles of the node and of the SPV client |
| `LongPoll.dfy` | the getblocktemplate long-poll registry (BIP 22) |
| `Paging.dfy` | searchrawtransactions: a page over two sources in 32-bit arithmetic |
| `Seeder.dfy`, `Crc16.dfy` | the DNS seeder's node list, and its checksum |
| `Common.dfy` | options, maps without a key, counting |

## What was found

Where the code does not do what its comments or its callers expect, the code is
modelled as it is, and the exact condition is proved.

- *Checkpoint cache.* A request that fails because a filter header is missing can leave
  the cache changed: after growing within the slice's capacity it writes through to the
  shared array. Most such changes do no harm. Requests after it can be answered wrongly
  exactly under `Misleads`: the slice grows in place, the first missing header lies below
  the old length, and a header written before it differs from the one it replaces
  (`UnansweredRequestKeepsSoundIff`, and `AlwaysTransparentIff` over whole runs).
  `WriteThroughMisleadsTheNextRequest` gives such a run. With every header present the
  cache is transparent.
- *Filters.* Broadcasting a block and rescanning it agree for a client exactly when its
  filter does not hold the null outpoint (`BroadcastEqualsRescanOnAllBlocksIff`).
- *Chunked rescan.* The comments at node/rpcwebsocket.go:2429-2434 expect the lookup of a
  reorganized block to fail in the database and to be recovered from. The lookup refuses a
  block off the best chain before it asks the database (node/blockchain/chainio.go:1542-1549),
  with an error that the rescan takes for a failure: a reorganization met by a lookup always
  ends the scan, and without a stop block a new range is fetched exactly when the database
  misses a block of the best chain (`ScanBlockChunks`).
- *Batched spend search.* Requests for one outpoint share one unspent report, the one of
  the latest request. `UnspentReportIsOwnIff` says exactly when it is also a request's
  own, and `LaterRequestHidesTheOutput` gives a failing run.
- *Peer lifecycle.* The comment on `peerAdded` (node/server.go:344-347) says that
  DonePeer is only reported for peers that were registered. It is reported for every
  peer whose peerAdd was handled, also when the peer was turned away: in every run DonePeer
  comes without NewPeer exactly for the finished peers that were turned away
  (`RunsAreSafe`; `TurnedAwayPeerIsReportedGone` gives a run). The comment at
  node/server.go:1974-1976 expects a done message before its add; `HeadTaken` and the
  invariant show that it cannot come.
- *Paged search.* The number to skip is cut to 32 bits; `RightIffSkipFits` shows that the
  command is right on all data exactly when it fits. A slice expression panics exactly
  under `Panics`, which no pool below 2^32 - 10000 entries reaches.
- *Seeder.* The comment at dnsseeder/seeder.go:409-411 says that clients can work out the
  real address from the fake one. Two addresses on one port share a fake address exactly
  when their checksums agree (`FakesAgreeIff`). All IPv6 addresses get the checksum of
  nothing, so they share one fake address on a port (`Ipv6AddressesShareAFake`,
  `TwoIpv6Addresses`). IPv4 addresses with the same first two bytes never share one
  (`NeighboursHaveTheirOwnFakes`); across networks they can (`NetworksShareFakes`).

## Model

| member | source | states |
|---|---|---|
| `BlockTree.AncestorOfAncestor` | node/blockchain/chain.go:1658-1691 | the ancestor of an ancestor is the ancestor, so any walk down parents meets the same nodes |
| `BlockTree.MatchVouchesForAllBelow` | node/server.go:1255-1271 | two chains that share an interval hash share every lower one |
| `BlockTree.IntervalBlockHashes` | node/blockchain/chain.go:1658-1691 | the shortcut through the best chain yields what a plain walk down the parents yields, for an end block on any branch: the hashes of the blocks it descends from at every positive multiple of the interval, and of no others, lowest first |
| `CheckpointCache.ForkIdxIsSharedPrefix` | node/server.go:1255-1264 | over a cache of one chain, the index found from the top equals the number of checkpoints the two chains share: an entry is below it exactly when the hashes agree |
| `CheckpointCache.CacheIsTransparent` | node/server.go:1255-1313 | a cache of any one chain answers a request on any other with the uncached headers, and answers exactly when every checkpoint not shared is indexed |
| `CheckpointCache.AnsweredRequestKeepsOneChain` | node/server.go:1232-1319 | after an answered request the cache again belongs to a single chain, the requested one if it is longer and otherwise the old one |
| `CheckpointCache.TransparentIffSound` | node/server.go:1255-1313 | a cache answers every further request with the uncached headers if and only if each entry on some block's chain carries, with everything below it, that chain's headers |
| `CheckpointCache.UnansweredRequestKeepsCacheIff` | node/server.go:1232-1312 | an unanswered request leaves the cache as it is if and only if it does not grow within capacity and write below the old length |
| `CheckpointCache.UnansweredRequestKeepsSoundIff` | node/server.go:1232-1312 | after an unanswered request the cache still answers rightly if and only if the request did not write, between the fork and the first missing header below the old length, a header that differs |
| `CheckpointCache.AlwaysTransparentIff` | node/server.go:1195-1321 | over any run of requests, answered or not, the cache answers rightly at every moment if and only if no unanswered request of the run misleads |
| `CheckpointCache.WriteThroughMisleadsTheNextRequest` | node/server.go:1289-1312 | a concrete unanswered request after which a request for the cached chain gets a foreign header |
| `CheckpointCache.CheckpointServer.Grow` | node/server.go:1232-1244 | appending empty entries keeps the old ones, in the same array when its capacity allows and in a fresh one otherwise |
| `CheckpointCache.CheckpointServer.FindFork` | node/server.go:1259-1264 | the downward search finds the highest matching entry below the shorter of cache and request |
| `CheckpointCache.CheckpointServer.FetchHeaders` | node/server.go:1279-1313 | the write loop fills reply and cache from the fork on and stops at the first header that is missing |
| `CheckpointCache.CheckpointServer.OnGetCFCheckpt` | node/server.go:1195-1321 | the k-th header of a reply is that of the block the stop block descends from at height 1000 (k + 1), taken from the cache exactly up to its highest match; there is no reply exactly if such a header is neither vouched for nor indexed; slice contents, capacity and owner after one request equal the value-level functions of the state before it, failures included |
| `CheckpointCache.CheckpointServer.ServeOne` | node/server.go:1195-1321 | on a cache that can be trusted an answer has the filter headers of the requested chain at heights 1000, 2000 and so on, and the cache can be trusted afterwards if and only if the request does no harm |
| `CheckpointCache.CheckpointServer.ServeAll` | node/server.go:1195-1321 | over any sequence of requests on any mix of branches, with any best chains in between, each is answered from what the ones before it left: if none misleads, every reply that is given has the headers of its own chain; if everything asked for is indexed, every reply is given and the cache stays one chain's |
| `FilterScan.BroadcastEqualsRescanIff` | node/rpcwebsocket.go:2151-2207 | on one block the two transaction lists are equal if and only if the filter lacks the null outpoint or every coinbase matters for its outputs |
| `FilterScan.BroadcastEqualsRescanOnAllBlocksIff` | node/rpcwebsocket.go:2151-2207 | on all blocks they are equal if and only if the filter lacks the null outpoint |
| `FilterScan.ListedInOrder` | node/rpcwebsocket.go:555-683 | both lists have, in block order, exactly the transactions with an output that pays the filter or an input that spends an outpoint it was loaded with or learned from an earlier transaction of the block; a rescan does not look at what a coinbase spends |
| `FilterScan.RescanBlockFilter` | node/rpcwebsocket.go:2151-2207 | returns the rescan list of the filter, each transaction once in block order, and leaves the filter with what it learned |
| `FilterScan.SubscribedClients` | node/rpcwebsocket.go:555-610 | yields exactly the clients whose filter the transaction hits, and every filter learns the outputs that pay it |
| `FilterScan.CollectSubscribedTxs` | node/rpcwebsocket.go:674-683 | after the block each client's list and filter equal the broadcast list and learned set of that client alone |
| `FilterScan.NotifyFilteredBlockConnected` | node/rpcwebsocket.go:657-698 | every client is sent one filtered block with its own list; filters of clients with separate filters do not disturb each other |
| `FilterScan.BroadcastAndRescan` | node/rpcwebsocket.go:2151-2207 | both run on one block, on equal filters: the filters learn the same, and the list broadcast to the client is the rescanned one if and only if the filter lacks the null outpoint or every coinbase matters for its outputs |
| `Rescan.RangeResultSet` | node/rpcwebsocket.go:2005-2144 | over a well-formed range the fold of "remove spent, add paying" equals initial set plus created minus spent |
| `Rescan.RescanInputs` | node/rpcwebsocket.go:2035-2100 | one redeemingtx exactly if some input spends a watched outpoint or comes from a watched address; exactly the spent outpoints are given up |
| `Rescan.RescanOutputs` | node/rpcwebsocket.go:2103-2144 | one recvtx exactly if some output pays a watched address; exactly those outputs are added |
| `Rescan.RescanTx` | node/rpcwebsocket.go:2035-2144 | inputs come before outputs: the redeemingtx precedes the recvtx, and what the transaction pays is watched afterwards |
| `Rescan.RescanBlock` | node/rpcwebsocket.go:2005-2144 | for a client that refuses nothing, keys and notifications after the block are the in-order fold over its transactions |
| `RescanChunks.HeightRangeIsSegment` | node/blockchain/chain.go:1569-1607 | a snapshot of a main chain between two heights lists consecutive parent-linked blocks from the lower height |
| `RescanChunks.Scanner.LookUp` | node/rpcwebsocket.go:2402-2443 | a block off the best chain ends the scan; a block of the best chain that the database misses leads to recovery exactly without a stop block |
| `RescanChunks.Scanner.RecoverFromReorg` | node/rpcwebsocket.go:2281-2322 | the recovered range is the best chain's of the moment; if anything was scanned before, its first block was looked up on the best chain and is a child of the last scanned one; a reorganization is reported if and only if that block is found and is no such child |
| `RescanChunks.Scanner.ScanNext` | node/rpcwebsocket.go:2402-2499 | after a block is scanned the next hash follows; after one that the database misses, without a stop block, the scan goes on with the range of the best chain that recovery asked for, and nothing was scanned; when it ends, it ends for the reason it gives |
| `RescanChunks.Scanner.CatchUp` | node/rpcwebsocket.go:2365-2400 | registers the client exactly at the tip of the best chain it asks for, and only with the last scanned block there, or with nothing to scan; otherwise the scan goes on |
| `RescanChunks.Scanner.ScanHashList` | node/rpcwebsocket.go:2402-2499 | whatever happens to the chain during a chunk, blocks are scanned in consecutive parent-linked order |
| `RescanChunks.Scanner.ScanBlockChunks` | node/rpcwebsocket.go:2328-2505 | in every run the scanned blocks are consecutive and parent-linked, and each was looked up by its own hash while it was on the best chain; a lookup off the best chain ends the scan, and recovery is entered if and only if the database misses a best-chain block and there is no stop block; a registration is at the tip of the best chain of that moment, and the last scanned block is that tip; success means the stop height or the end of a best chain was reached, and every failure has happened as the last observations say; notifications and final unspent set do not depend on chunking; on a fixed chain the scan covers exactly the range, cannot fail, registers if unbounded and ends within two observations a block |
| `Subscriptions.RedeemedExactlyOnce` | node/rpcwebsocket.go:1001-1034 | of all that a client is sent for a block, echoes included, exactly one is a block-carrying redeemingtx for a transaction if an input spends what the client watched just before that transaction, and none otherwise |
| `Subscriptions.ReceivedExactlyOnce` | node/rpcwebsocket.go:912-958 | of all that a client is sent for a block exactly one is a recvtx for a transaction with an output that pays it, however many there are, and none for any other |
| `Subscriptions.NotificationManager.AddSpentRequests` | node/rpcwebsocket.go:807-842 | both indexes gain the outpoints for this client; mempool spends are echoed once each to whom they concern |
| `Subscriptions.NotificationManager.RemoveSpentRequest` | node/rpcwebsocket.go:856-876 | the outpoint leaves both indexes for this client and no other; no empty client set stays |
| `Subscriptions.NotificationManager.AddAddrRequests` | node/rpcwebsocket.go:1048-1065 | both address indexes gain the addresses for this client |
| `Subscriptions.NotificationManager.RemoveAddrRequest` | node/rpcwebsocket.go:1079-1099 | the address leaves both indexes for this client; no empty client set stays |
| `Subscriptions.NotificationManager.NotifyForTxIns` | node/rpcwebsocket.go:1001-1034 | one redeemingtx for every watcher of some spent outpoint; in a block the requests end, in the mempool they stay |
| `Subscriptions.NotificationManager.NotifyForTxOuts` | node/rpcwebsocket.go:912-958 | one recvtx for every client that is paid, however many outputs pay it; all those outputs are watched from then on; with each new request the mempool's spends of it are echoed to every watcher: the exact notifications of every client, for some order of the clients |
| `Subscriptions.NotificationManager.NotifyForTx` | node/rpcwebsocket.go:986-994 | inputs before outputs, for every client: exactly a redeemingtx if it watched a spent outpoint, in a block or in the mempool, and then what the outputs bring it |
| `Subscriptions.NotificationManager.NotifyTxsOfBlock` | node/rpcwebsocket.go:433-443 | every client's requests after the block are the in-order fold over its transactions, its notifications exactly those of the transactions in block order, echoes included |
| `Subscriptions.NotificationManager.HandleBlockConnected` | node/rpcwebsocket.go:433-450 | complete effect of a connected block on requests, filters and notifications of every client, those not registered for blocks included; skipping an unwatched block changes nothing |
| `Subscriptions.NotificationManager.ConnectedNtfnsAreOwn` | node/rpcwebsocket.go:433-450 | but for the echoes of mempool spends, what a client gets for a block follows from its own requests and addresses alone, in whatever order clients are served |
| `Subscriptions.NotificationManager.HandleBlockDisconnected` | node/rpcwebsocket.go:452-460 | block listeners get both disconnect notifications |
| `Subscriptions.NotificationManager.HandleMempoolTx` | node/rpcwebsocket.go:462-467 | complete effect of a mempool transaction: it adds watched outputs and gives up none; each client gets exactly the announcement, the redeemingtx if it watches a spent outpoint, what the outputs bring it and the filtered announcement; filters of listed clients learn and no others change |
| `Subscriptions.NotificationManager.NotifyRelevantTxAccepted` | node/rpcwebsocket.go:965-980 | exactly the listed clients whose filters the transaction hits are told, and only listed clients' filters learn |
| `Subscriptions.NotificationManager.HandleUnregisterClient` | node/rpcwebsocket.go:481-494 | the client is in none of the handler's maps, its request sets are empty, both indexes still agree |
| `Subscriptions.NotificationManager.LoadFilter` | node/rpcwebsocket.go:1787-1826 | a client that loads or extends its filter keeps all filters separate and disturbs no other client's |
| `Subscriptions.NotificationManager.Handle` | node/rpcwebsocket.go:403-526 | every message keeps: an outpoint or address is requested by a client exactly when the client is listed under it, and no list is empty; complete effect of every message on the three lists, on every client's requests, addresses and filter, and on what each client is sent, but for the echoes of mempool spends |
| `Subscriptions.NotificationManager.HandleRegistration` | node/rpcwebsocket.go:469-514 | a registration adds its client to one list and to no other, an unregistration takes it out of that one |
| `Subscriptions.NotificationManager.Run` | node/rpcwebsocket.go:403-526 | over every sequence of messages, with filters loaded and the mempool changing in between, each state of lists, requests, addresses, filters, mempool and notifications is what the message makes of the one before; echoes aside, the last is the in-order fold of all messages; right after an unregister the client is absent |
| `Delivery.ReadersEmptyTheQueue` | node/rpcwebsocket.go:175-184 | a reader that stays ready empties the backlog one value at a time |
| `Delivery.QueueHandler.Shift` | node/rpcwebsocket.go:176-178 | the in-place shift moves every value one down and drops the first |
| `Delivery.QueueHandler.Receive` | node/rpcwebsocket.go:157-173 | a value goes straight out exactly if the queue is empty and somebody reads, otherwise to its end |
| `Delivery.QueueHandler.Deliver` | node/rpcwebsocket.go:175-184 | the oldest value goes out; nothing is offered while the queue is empty |
| `Delivery.QueueHandler.Run` | node/rpcwebsocket.go:148-190 | in every run, what went out followed by what waits equals what came in before the stop, and the backlog is exactly as long as counted |
| `Delivery.NtfnSender.TakeNtfn` | node/rpcwebsocket.go:1533-1539 | a notification is handed on if none is outstanding and queued otherwise |
| `Delivery.NtfnSender.TakeToken` | node/rpcwebsocket.go:1543-1555 | a returned token releases the oldest pending notification |
| `Delivery.NtfnSender.LookAndSend` | node/rpcwebsocket.go:1628-1638 | on a closed connection the token comes back at once, into an empty channel |
| `Delivery.NtfnSender.FailWrite` | node/rpcwebsocket.go:1587-1600 | a failed write ends the connection and keeps the token |
| `Delivery.NtfnSender.Refuse` | node/rpcwebsocket.go:1590-1618 | draining returns the token of each awaited message, into an empty channel |
| `Delivery.NtfnSender.Run` | node/rpcwebsocket.go:1506-1618 | every interleaving keeps the invariant behind the four lemmas below, and every state follows from the one before by its step |
| `Delivery.NotificationIsWritten` | node/rpcwebsocket.go:1506-1618 | in a run in which a notification takes all steps of its way it is written and both goroutines are at rest again |
| `Delivery.NotificationIsDrained` | node/rpcwebsocket.go:1557-1618 | in one in which the client disconnects with a notification in the channel it is drained unwritten, its token returned, and both goroutines end |
| `Delivery.NtfnSender.WrittenInOrder` | node/rpcwebsocket.go:1506-1618 | in every state what was written is an initial part of what was received: none skipped, doubled or reordered |
| `Delivery.NtfnSender.NothingLostWhileConnected` | node/rpcwebsocket.go:1506-1638 | while connected, written, in flight (at most one) and pending make up exactly what was received |
| `Delivery.NtfnSender.AtRestAllIsWritten` | node/rpcwebsocket.go:1506-1638 | a connected client at rest has been sent everything |
| `Delivery.NtfnSender.TokensNeverBlock` | node/rpcwebsocket.go:1513 | whoever is about to send on the channel of capacity one finds it empty |
| `BatchSpends.SkippingChangesNothingIff` | spv/batch_spend_reporter.go:115-139 | leaving a block without new requests out of a batch changes no delivery, final reports included, if and only if it spends no outpoint somebody waits for when it comes |
| `BatchSpends.SettledStep` | spv/batch_spend_reporter.go:115-139 | one block step carries "answered like its own scan, or still waiting" from every request to itself |
| `BatchSpends.UnspentReportIsOwnIff` | spv/batch_spend_reporter.go:60-77 | the shared unspent report is the request's own if and only if nobody asked for the outpoint later, or neither block created it |
| `BatchSpends.LaterRequestHidesTheOutput` | spv/batch_spend_reporter.go:144-161 | a run in which a later request makes an existing output look absent to both callers |
| `BatchSpends.SearchBlock` | spv/batch_spend_reporter.go:169-246 | the one-pass search finds for every requested outpoint what the block's first transaction of that hash holds |
| `BatchSpends.Reporter.AddNewRequests` | spv/batch_spend_reporter.go:144-161 | each request joins the end of its outpoint's list |
| `BatchSpends.Reporter.NotifySpends` | spv/batch_spend_reporter.go:251-287 | exactly the watched outpoints the block spends are answered, in the block's order, with the first spending input, and forgotten in all three maps |
| `BatchSpends.Reporter.ProcessBlock` | spv/batch_spend_reporter.go:115-139 | keeps: maps have the same keys, the watchlist is the values of outpoints with multiplicity, every arrival is answered or waiting, and every answer equals a one-request scan from the request's own block; a block without new requests that spends nothing waited for changes nothing |
| `BatchSpends.Reporter.NotifyUnspentAndUnfound` | spv/batch_spend_reporter.go:60-77 | afterwards every request of the batch was answered exactly as often as it arrived, those that still waited with the shared unspent report |
| `BatchSpends.Reporter.FailRemaining` | spv/batch_spend_reporter.go:82-90 | the same, with a failure for everybody who still waited |
| `BatchSpends.Batch` | spv/batch_spend_reporter.go:40-139 | how often each delivery is made in a whole batch is a function of its blocks and requests; map order does not matter |
| `BatchSpends.BatchWithAndWithout` | spv/batch_spend_reporter.go:115-139 | two reporters, one given the block and one not, deliver the same multiset if and only if nobody waits for an outpoint the block spends |
| `PeerTable.SameTableIff` | node/server.go:1964-1972 | removal looks in the table insertion used if and only if the peer is not both inbound and persistent |
| `PeerTable.Server.HandleAddPeerMsg` | node/server.go:1860-1931 | a peer is added if and only if it is connected, wanted and there is room; otherwise it is disconnected; tables, counters and NewPeer calls follow |
| `PeerTable.Server.HandleDonePeerMsg` | node/server.go:1964-2012 | the peer leaves its table with its group's count, and DonePeer is called if the flag is set |
| `PeerTable.Server.SendAdd` | node/server.go:2405-2410 | the goroutine's announcement keeps every peer's stage in step with its events |
| `PeerTable.Server.SendDone` | node/server.go:2417-2423 | so does its final event, which comes after the disconnect and after any announcement |
| `PeerTable.Server.GoroutineStep` | node/server.go:2402-2424 | complete effect of every step: a peerAdd is sent exactly after verack, its flag set after it, a peerDone exactly after the disconnect, and what cannot happen changes nothing |
| `PeerTable.Server.HandleAdd` | node/server.go:2465-2468 | taking a peerAdd from the channel finds its slot free and keeps the whole invariant |
| `PeerTable.Server.HandleDone` | node/server.go:2465-2471 | taking a peerDone removes the peer for good; DonePeer is called exactly if the peer's peerAdd was handled |
| `PeerTable.Server.HandleEvent` | node/server.go:2465-2471 | of the event at the head of the channel: an announced peer enters its table and NewPeer is called exactly if it is connected, wanted and there is room, and it is disconnected otherwise; a peer that is done leaves, and DonePeer is called exactly if its peerAdd was handled |
| `PeerTable.Server.RemoveNode` | node/server.go:2197-2208 | one matching persistent peer goes, with its count, or none matches |
| `PeerTable.Server.DisconnectNode` | node/server.go:2224-2278 | one matching inbound peer, or else, by a loop that ends, exactly all matching outbound peers |
| `PeerTable.Server.Run` | node/server.go:2402-2471 | every schedule of network, goroutines and handler keeps the invariant, and every state follows from the one before by its step; what was handled or told stays so |
| `PeerTable.HandlerSteps` | node/server.go:2457-2502 | in such a run a connected, wanted peer finds its place if there is room, one that is done is reported gone, and peers to be disconnected leave their table |
| `PeerTable.VisitorComesAndGoes` | node/server.go:2402-2471 | a peer that connects, shakes hands, is announced and disconnects is in its own table after the announcement, in none after the end, and NewPeer and DonePeer are called for it |
| `PeerTable.Server.RunsAreSafe` | node/server.go:1860-2012 | in every reachable state a peer that is done is in no table; NewPeer came for exactly the peers whose peerAdd was handled and that were not turned away, DonePeer for exactly the finished peers whose peerAdd was handled, without NewPeer exactly if they were turned away; each came once and in order; every group counter equals the number of its peers, the limit holds |
| `PeerTable.Server.NothingIsLeftBehind` | node/server.go:2402-2424 | when all goroutines have finished and the channel is empty, all tables and counters are empty and every NewPeer was matched |
| `PeerTable.TurnedAwayPeerIsReportedGone` | node/server.go:1996-2002 | a run in which DonePeer is called for a peer that was never announced |
| `SpvPeers.KeptCounts` | spv/neutrino.go:1412-1435 | compaction keeps each subscriber as often as it was, unless it cancelled, and then not at all |
| `SpvPeers.SubscriberList.NotifyAll` | spv/neutrino.go:1412-1435 | the in-place compaction leaves exactly the kept subscribers in order, and notifies each of them once |
| `SpvPeers.SubscriberList.Subscribe` | spv/notifications.go:101-104 | a subscriber joins at the end, in place or in a larger array |
| `SpvPeers.ChainService.HandleAddPeerMsg` | spv/neutrino.go:1340-1438 | a peer is added if and only if it is connected, wanted and there is room; subscribers are told only then |
| `SpvPeers.ChainService.HandleDonePeerMsg` | spv/neutrino.go:1457-1471 | the peer leaves its table with its group's count; a peer in neither changes nothing |
| `SpvPeers.ChainService.TakeNewPeer` | spv/neutrino.go:1222-1227 | a peer enters its table exactly if it is connected, wanted and there is room; an add message that comes after its peer's done message was handled never lets the peer in |
| `SpvPeers.ChainService.TakeDonePeer` | spv/neutrino.go:1229-1231 | a done message removes its peer whenever it comes |
| `SpvPeers.ChainService.ReportDone` | spv/neutrino.go:1604-1612 | a peer is reported done only once it is disconnected |
| `SpvPeers.ChainService.GoroutineStep` | spv/neutrino.go:1157-1164 | complete effect of every step: a peer is put on the channel of new peers once, on the channel of done peers only after its disconnect and once, and nothing else is sent |
| `SpvPeers.ChainService.DisconnectNode` | spv/notifications.go:171-192 | exactly all matching outbound peers go, by a loop that ends |
| `SpvPeers.ChainService.Run` | spv/neutrino.go:1222-1248 | every interleaving of the two channels keeps the invariant, and every state, and whom each step tells of a new peer, follows from the state before |
| `SpvPeers.EarlyVisitorComesAndGoes` | spv/neutrino.go:1222-1231 | a peer whose messages come in order is in its table after the first, announced to the subscriber, and in none after the second |
| `SpvPeers.LateVisitorStaysOut` | spv/neutrino.go:1222-1231 | one whose done message comes first is never let in |
| `SpvPeers.ChainService.RunsAreSafe` | spv/neutrino.go:1222-1248 | in every reachable state a peer whose done message was handled is in neither table, counters match the tables, the limit holds |
| `SpvPeers.ChainService.NothingIsLeftBehind` | spv/neutrino.go:1457-1486 | once every peer's done message was handled the tables are empty, in whatever order the messages came |
| `LongPoll.RemainingWaits` | node/rpcserver.go:1411-1453 | after a notification exactly those wait that wait for the latest block with a template not older, on the channel they had |
| `LongPoll.GbtWorkState.TemplateUpdateChan` | node/rpcserver.go:1497-1516 | an equal registration returns the channel it finds; a new one a fresh open channel under that hash and time only |
| `LongPoll.GbtWorkState.NotifyLongPollers` | node/rpcserver.go:1411-1453 | a poll stays registered, on the channel it had, if and only if it waits for the latest block and for a second not before that of the last template; every other channel is closed, and none twice |
| `LongPoll.GbtWorkState.Run` | node/rpcserver.go:1411-1516 | in every run a poll is registered at the end if and only if it came, or waited at the start, and every notification since was for its block and for no later second; it listens on its own open channel, all other channels ever issued are closed, and no inner map is empty |
| `LongPoll.GbtWorkState.SharedUntilClosed` | node/rpcserver.go:1497-1516 | two equal polls share a channel, whatever comes between, unless the first was closed |
| `Paging.PageOfTwo` | node/rpcserver.go:3329-3396 | a page of two joined sequences is a page of the first and a page of the second with what is left of skip and count |
| `Paging.FetchMempoolTxns` | node/rpcserver.go:3212-3228 | returns the page and the number skipped; panics if and only if the start is inside the pool and the end does not fit 32 bits |
| `Paging.LoadLevels` | node/blockchain/indexers/addrindex.go:241-265 | whole levels are loaded, newest first, exactly until there are enough or none are left, all of them when counting from the oldest; what is loaded is a suffix of all entries, oldest first |
| `Paging.OffsetIsRightIff` | node/blockchain/indexers/addrindex.go:291-298 | a byte offset is right if and only if it fits 32 bits |
| `Paging.FetchIndexEntries` | node/blockchain/indexers/addrindex.go:241-320 | returns the page from either end if and only if skip and count do not wrap around below the loaded entries |
| `Paging.SearchRawTransactions` | node/rpcserver.go:3248-3404 | the answer, errors included, is the page of both sources joined, for the low 32 bits of the skip; entry by entry: counting from the oldest the index comes first and then the pool, in reverse the pool and then the index from its end |
| `Paging.NoPanicWhenItFits` | node/rpcserver.go:3212-3228 | no panic while pool size and largest count fit 32 bits together |
| `Paging.RightIffSkipFits` | node/rpcserver.go:3329-3396 | the command is right on all data if and only if the number to skip is below 2^32 |
| `Seeder.Ratings` | dnsseeder/seeder.go:255-273 | reported-good and confirmed nodes have rating 0 or 25, was-good ones 50, 65, 80 or 95 |
| `Seeder.SixthFailureIsFatal` | dnsseeder/seeder.go:265-273 | a confirmed node is confirmed after at most one failure in a row, was-good after two to five, no good from the sixth on, full list or not |
| `Seeder.ReportedNodesFailTheSameUnlessFull` | dnsseeder/seeder.go:256-273 | a reported node is no good after n failures if and only if n is at least six or the list was full at its first or second |
| `Seeder.Node.Fail` | dnsseeder/seeder.go:248-273 | one failure moves status, rating and counter as the standing says |
| `Seeder.Node.Classify` | dnsseeder/seeder.go:371-400 | the node's class and fake address are those of its address and port, its key does not change, and a port of its own can be read back from the fake address |
| `Seeder.SameKeyIff` | dnsseeder/seeder.go:355 | two addresses are filed as one if and only if their ports agree and so do the addresses, however an IPv4 address is held |
| `Seeder.FilledIsBounded` | dnsseeder/seeder.go:308-322 | taking addresses in never exceeds the list's size by more than one, nor the room of one result |
| `Seeder.FilledTakes` | dnsseeder/seeder.go:308-322 | the addresses taken are those of a first part of the result that can be used and are new: all of it, or as far as the room or the size goes |
| `Seeder.DnsSeeder.AddNa` | dnsseeder/seeder.go:348-407 | an address is added if and only if there is room, it is new, its port is valid and it was seen within a day; it is filed under its own key, with the class and the fake address that its address and port give it |
| `Seeder.DnsSeeder.ProcessResult` | dnsseeder/seeder.go:230-340 | complete effect on status, rating and failure counter of every node, of which nothing else changes here, and on the list: which addresses join, each as a new node: in order, up to a third of the size and one more or until the list is longer than its size; a result for an unknown node changes nothing |
| `Seeder.DnsSeeder.AuditNodes` | dnsseeder/seeder.go:442-520 | keeps every RG and WG node, keeps an NG node exactly if it failed at most 58 times and the list is not full, and leaves as many CG nodes as there are, up to three quarters of what can be crawled in a delay, in any iteration order |
| `Seeder.DnsSeeder.Run` | dnsseeder/seeder.go:134-520 | every run keeps the list within one of its size and every rating in step; its history names the events in order, and says of each whether the list was full as it then stood; each node, for as long as it stays listed, stands as its own results since it was listed say, and after a success as its failures since then say, whatever happens to others |
| `Seeder.StandingTellsFailures` | dnsseeder/seeder.go:230-283 | in any history a listed node's standing is that of its failures since its last success, or since it was listed |
| `Seeder.FailuresInARow` | dnsseeder/seeder.go:230-283 | in any history a node that was ever confirmed is confirmed after at most one failure since its last success, was-good after two to five, no good exactly from the sixth on |
| `Crc16.FeedIsTurn` | dnsseeder/seeder.go:433-437 | one turn of the fast loop equals eight shifts of the register, for every register and byte |
| `Crc16.Crc16` | dnsseeder/seeder.go:429-440 | the loop computes the bit-by-bit register with polynomial 0x1021 and initial value 0xFFFF |
| `Crc16.OneByteShows` | dnsseeder/seeder.go:429-440 | strings of equal length that differ in exactly one byte have different checksums |
| `Crc16.TwoBytesShow` | dnsseeder/seeder.go:429-440 | so have strings that differ within two neighbouring bytes only |
| `Crc16.BurstsShow` | dnsseeder/seeder.go:429-440 | so have strings that differ within any sixteen bits in a row, also across three bytes |
| `Crc16.To4Iff` | dnsseeder/seeder.go:412-415 | an address counts as IPv4 if and only if it is held as four bytes or as these after ten zeros and two bytes 0xFF |
| `Crc16.GetNonStdIP` | dnsseeder/seeder.go:412-426 | the fake address holds the checksum of the IPv4 address, or 0xFFFF if there is none, and the port |
| `Crc16.FakesAgreeIff` | dnsseeder/seeder.go:409-426 | two fake addresses are equal if and only if the ports and the checksums are |
| `Crc16.NeighboursHaveTheirOwnFakes` | dnsseeder/seeder.go:409-426 | IPv4 addresses that share their first two bytes share a fake address on a port only if they are the same |
| `Crc16.NetworksShareFakes` | dnsseeder/seeder.go:409-426 | two IPv4 addresses of different networks with the same fake address on every port |
| `Crc16.Ipv6AddressesShareAFake` | dnsseeder/seeder.go:409-426 | an IPv6 address shares its fake address with all others on its port, and with an IPv4 address if and only if that one's checksum is 0xFFFF |
| `Crc16.TwoIpv6Addresses` | dnsseeder/seeder.go:409-426 | two different IPv6 addresses with the same fake address |

## Left out

- Sockets, TLS, JSON and hex text, logging, clocks and tickers: times are arguments, a transaction stands for its text, marshalling always succeeds.
- Scripts, signatures, filters' internals, the UTXO scanner, the sync and block managers, address and connection managers: values or arguments.
- `CheckpointCache`: the checks of filter type and of being current come before the modelled part; the lock's critical section is one step; no interval hash is the zero hash, which `CheckpointsAreNotZero` derives from the block index.
- `WsClients.WsClient.QueueNotification`: `ntfns` logs what is handed over, refused or not; a client refuses everything from some moment on.
- `Subscriptions.NotificationManager.LoadFilter`: addresses are taken as parsed; loading a filter is one step between two messages.
- `Subscriptions.NotificationManager.Handle`: that every watched client is connected is not claimed; a registration may arrive after an unregister, and then both indexes agree on it.
- `Subscriptions.NotificationManager.AddSpentRequests`: the mempool's spend index is a map that changes between messages, not while one is handled.
- `Rescan.RescanBlock`: an output pays the addresses listed with it, and an input the address recomputed from its script; how they are extracted is not modelled.
- `RescanChunks.Scanner.ScanBlockChunks`: ends at the end of the schedule if the chain keeps changing; termination is claimed on a fixed chain only.
- `Delivery.NtfnSender.Run`: liveness of the sender after the out handler has exited with a full buffer is not claimed; the handlers' last drains are single steps.
- `BatchSpends.Reporter.ProcessBlock`: which filters match a block, and so which blocks are skipped, is decided outside; progress callbacks are left out.
- `PeerTable.Server.Run`: the lifecycle channel is not bounded, which only adds runs; shutdown and bans are part of `unwanted`; the connection manager's requests are left out; a version is known before verack.
- `SpvPeers.ChainService.Run`: verack is seen once by each peer; the block manager's DonePeer is called by the peer's own goroutine with no order against NewPeer, and no order is claimed; the limit is a parameter.
- `LongPoll.GbtWorkState.Run`: building templates and answering polls; the state is locked, so each call is one step.
- `Paging.SearchRawTransactions`: address decoding, missing indexes and the verbose reply; the pool is one snapshot in the order of its map iteration, so pages of different calls need not fit together. An index of at most 2^32 bytes for each address is assumed, and a pool below 2^32 entries.
- `Seeder.DnsSeeder.AuditNodes`: one step, although the list's length is read before the lock; results and audits are handled by one goroutine (dnsseeder/seeder.go:134-170), so nothing comes in between.
- `Seeder.DnsSeeder.ProcessResult`: version, services, times of contact and the crawl flag of a node; starting crawls and the DNS records.
- `Crc16.GetNonStdIP`: the four bytes of the fake address, without the IPv6 prefix Go puts before them.
