// The two implementations of transaction filtering: broadcasting a connected
// block to every client, and rescanning a block for a single client
// (node/rpcwebsocket.go, subscribedClients, notifyFilteredBlockConnected and
// rescanBlockFilter).

module FilterScan {
  import opened Common
  import opened Wire
  import opened WsClients

  // ---------------------------------------------------------------------------
  // What each implementation reports, as values.

  predicate SpendsOneOf(unspent: set<OutPoint>, tx: Tx) {
    exists i :: 0 <= i < |tx.ins| && tx.ins[i].prev in unspent
  }

  /** The filter's outpoints after a run of transactions: it learns every output
      that pays one of its addresses and never forgets. */
  function Learned(addrs: set<Address>, unspent: set<OutPoint>, txs: seq<Tx>): set<OutPoint> {
    if txs == [] then unspent
    else Learned(addrs, unspent, txs[..|txs| - 1]) + PaidOuts(addrs, txs[|txs| - 1])
  }

  predicate BroadcastHit(addrs: set<Address>, unspent: set<OutPoint>, tx: Tx) {
    SpendsOneOf(unspent, tx) || PaidOuts(addrs, tx) != {}
  }

  /** A rescan does not look at the input of a coinbase. */
  predicate RescanHit(addrs: set<Address>, unspent: set<OutPoint>, tx: Tx) {
    (!IsCoinBase(tx) && SpendsOneOf(unspent, tx)) || PaidOuts(addrs, tx) != {}
  }

  function Broadcast(addrs: set<Address>, unspent: set<OutPoint>, txs: seq<Tx>): seq<Tx> {
    if txs == [] then []
    else
      var before, tx := txs[..|txs| - 1], txs[|txs| - 1];
      Broadcast(addrs, unspent, before) + if BroadcastHit(addrs, Learned(addrs, unspent, before), tx) then [tx] else []
  }

  function Rescanned(addrs: set<Address>, unspent: set<OutPoint>, txs: seq<Tx>): seq<Tx> {
    if txs == [] then []
    else
      var before, tx := txs[..|txs| - 1], txs[|txs| - 1];
      Rescanned(addrs, unspent, before) + if RescanHit(addrs, Learned(addrs, unspent, before), tx) then [tx] else []
  }

  // ---------------------------------------------------------------------------
  // Which transactions are listed.

  /** The filter knows an outpoint when it comes to the t-th transaction: it was loaded, or is
      an output of an earlier transaction that pays one of the addresses. */
  ghost predicate Knows(addrs: set<Address>, unspent: set<OutPoint>, txs: seq<Tx>, t: nat, op: OutPoint)
    requires t <= |txs|
  {
    op in unspent || exists s :: 0 <= s < t && OutputPays(addrs, txs[s], op)
  }

  ghost predicate SpendsKnown(addrs: set<Address>, unspent: set<OutPoint>, txs: seq<Tx>, t: nat)
    requires t < |txs|
  {
    exists txIn :: txIn in txs[t].ins && Knows(addrs, unspent, txs, t, txIn.prev)
  }

  /** A transaction of a block, at a place where it pays the client or spends what the filter
      knows; a rescan does not look at what a coinbase spends. */
  ghost predicate ConcernsAt(addrs: set<Address>, unspent: set<OutPoint>, txs: seq<Tx>, tx: Tx, t: nat, rescan: bool)
    requires t < |txs|
  {
    && txs[t] == tx
    && (|| PaysOne(addrs, tx)
        || (SpendsKnown(addrs, unspent, txs, t) && !(rescan && |tx.ins| == 1 && tx.ins[0].prev == NULL_OUTPOINT)))
  }

  lemma {:induction false} LearnedIsKnown(addrs: set<Address>, unspent: set<OutPoint>, txs: seq<Tx>, t: nat)
    requires t <= |txs|
    ensures forall op :: op in Learned(addrs, unspent, txs[..t]) <==> Knows(addrs, unspent, txs, t, op)
  {
    if t > 0 {
      assert txs[..t][..t - 1] == txs[..t - 1];
      LearnedIsKnown(addrs, unspent, txs, t - 1);
      PaidOutsArePaying(addrs, txs[t - 1]);
    }
  }

  lemma KnownBefore(addrs: set<Address>, unspent: set<OutPoint>, txs: seq<Tx>, tx: Tx, t: nat, rescan: bool)
    requires t + 1 < |txs|
    ensures ConcernsAt(addrs, unspent, txs, tx, t, rescan)
      <==> ConcernsAt(addrs, unspent, txs[..|txs| - 1], tx, t, rescan)
  {
    var before := txs[..|txs| - 1];
    forall op
      ensures Knows(addrs, unspent, txs, t, op) <==> Knows(addrs, unspent, before, t, op)
    {
      assert forall s | 0 <= s < t :: before[s] == txs[s];
    }
  }

  lemma HitsAre(addrs: set<Address>, unspent: set<OutPoint>, txs: seq<Tx>, t: nat)
    requires t < |txs|
    ensures var known := Learned(addrs, unspent, txs[..t]);
      && (BroadcastHit(addrs, known, txs[t]) <==> ConcernsAt(addrs, unspent, txs, txs[t], t, false))
      && (RescanHit(addrs, known, txs[t]) <==> ConcernsAt(addrs, unspent, txs, txs[t], t, true))
  {
    LearnedIsKnown(addrs, unspent, txs, t);
    PaidOutsArePaying(addrs, txs[t]);
  }

  /** The transactions at the given places of a block, in block order. */
  ghost predicate ListsPlaces(list: seq<Tx>, txs: seq<Tx>, places: seq<nat>) {
    && |list| == |places|
    && (forall i | 0 <= i < |places| :: places[i] < |txs| && list[i] == txs[places[i]])
    && (forall i, j | 0 <= i < j < |places| :: places[i] < places[j])
  }

  function List(addrs: set<Address>, unspent: set<OutPoint>, txs: seq<Tx>, rescan: bool): seq<Tx> {
    if rescan then Rescanned(addrs, unspent, txs) else Broadcast(addrs, unspent, txs)
  }

  lemma ListStep(addrs: set<Address>, unspent: set<OutPoint>, txs: seq<Tx>, rescan: bool)
    requires txs != []
    ensures var n := |txs| - 1;
      List(addrs, unspent, txs, rescan)
      == List(addrs, unspent, txs[..n], rescan)
         + if ConcernsAt(addrs, unspent, txs, txs[n], n, rescan) then [txs[n]] else []
  {
    HitsAre(addrs, unspent, txs, |txs| - 1);
  }

  lemma ListsOneMore(list: seq<Tx>, txs: seq<Tx>, places: seq<nat>)
    requires txs != [] && ListsPlaces(list, txs[..|txs| - 1], places)
    ensures ListsPlaces(list, txs, places)
    ensures ListsPlaces(list + [txs[|txs| - 1]], txs, places + [|txs| - 1])
    ensures forall t :: t in places ==> t < |txs| - 1
  {
  }

  /** The places are those of the transactions that concern the client. */
  ghost predicate PlacesConcern(places: seq<nat>, addrs: set<Address>, unspent: set<OutPoint>, txs: seq<Tx>,
                                rescan: bool) {
    forall t | 0 <= t < |txs| :: ConcernsAt(addrs, unspent, txs, txs[t], t, rescan) <==> t in places
  }

  lemma PlacesOneMore(fewer: seq<nat>, places: seq<nat>, addrs: set<Address>, unspent: set<OutPoint>, txs: seq<Tx>,
                      rescan: bool)
    requires txs != [] && PlacesConcern(fewer, addrs, unspent, txs[..|txs| - 1], rescan)
    requires forall t :: t in fewer ==> t < |txs| - 1
    requires var n := |txs| - 1;
      places == if ConcernsAt(addrs, unspent, txs, txs[n], n, rescan) then fewer + [n] else fewer
    ensures PlacesConcern(places, addrs, unspent, txs, rescan)
  {
    var n := |txs| - 1;
    var before := txs[..n];
    forall t | 0 <= t < |txs|
      ensures ConcernsAt(addrs, unspent, txs, txs[t], t, rescan) <==> t in places
    {
      if t < n {
        KnownBefore(addrs, unspent, txs, txs[t], t, rescan);
        assert before[t] == txs[t];
      }
    }
  }

  /** Both lists have exactly the transactions that concern the client, in block order. */
  lemma {:induction false} ListedInOrder(addrs: set<Address>, unspent: set<OutPoint>, txs: seq<Tx>, rescan: bool)
    returns (places: seq<nat>)
    ensures ListsPlaces(List(addrs, unspent, txs, rescan), txs, places)
    ensures PlacesConcern(places, addrs, unspent, txs, rescan)
  {
    places := [];
    if txs != [] {
      var n := |txs| - 1;
      var fewer := ListedInOrder(addrs, unspent, txs[..n], rescan);
      ListStep(addrs, unspent, txs, rescan);
      ListsOneMore(List(addrs, unspent, txs[..n], rescan), txs, fewer);
      places := if ConcernsAt(addrs, unspent, txs, txs[n], n, rescan) then fewer + [n] else fewer;
      PlacesOneMore(fewer, places, addrs, unspent, txs, rescan);
    }
  }

  // ---------------------------------------------------------------------------
  // Agreement.

  ghost predicate RealHashes(txs: seq<Tx>) {
    forall tx | tx in txs :: tx.hash != ZERO_HASH
  }

  /** On one block the two lists are equal exactly when the filter does not hold
      the null outpoint, or every coinbase is relevant for its outputs anyway. */
  lemma {:induction false} BroadcastEqualsRescanIff(addrs: set<Address>, unspent: set<OutPoint>, txs: seq<Tx>)
    requires RealHashes(txs)
    ensures NULL_OUTPOINT in Learned(addrs, unspent, txs) <==> NULL_OUTPOINT in unspent
    ensures |Rescanned(addrs, unspent, txs)| <= |Broadcast(addrs, unspent, txs)|
    ensures Broadcast(addrs, unspent, txs) == Rescanned(addrs, unspent, txs)
            <==> |Broadcast(addrs, unspent, txs)| == |Rescanned(addrs, unspent, txs)|
    ensures Broadcast(addrs, unspent, txs) == Rescanned(addrs, unspent, txs)
            <==> NULL_OUTPOINT !in unspent || forall tx | tx in txs && IsCoinBase(tx) :: PaidOuts(addrs, tx) != {}
  {
    if txs != [] {
      var before, tx := txs[..|txs| - 1], txs[|txs| - 1];
      assert txs == before + [tx];
      BroadcastEqualsRescanIff(addrs, unspent, before);
      assert forall t :: t in txs <==> t in before || t == tx;
      var known := Learned(addrs, unspent, before);
      if IsCoinBase(tx) {
        assert SpendsOneOf(known, tx) <==> NULL_OUTPOINT in known;
      }
    }
  }

  /** Over all blocks: broadcasting and rescanning are interchangeable for a client
      exactly when its filter does not hold the null outpoint. */
  lemma BroadcastEqualsRescanOnAllBlocksIff(addrs: set<Address>, unspent: set<OutPoint>)
    ensures (forall txs | RealHashes(txs) :: Broadcast(addrs, unspent, txs) == Rescanned(addrs, unspent, txs))
            <==> NULL_OUTPOINT !in unspent
  {
    forall txs | RealHashes(txs)
      ensures NULL_OUTPOINT !in unspent ==> Broadcast(addrs, unspent, txs) == Rescanned(addrs, unspent, txs)
    {
      BroadcastEqualsRescanIff(addrs, unspent, txs);
    }
    var coinbase := Tx(1, [TxIn(NULL_OUTPOINT, None)], []);
    BroadcastEqualsRescanIff(addrs, unspent, [coinbase]);
    assert coinbase in [coinbase] && IsCoinBase(coinbase) && PaidOuts(addrs, coinbase) == {};
  }

  // ---------------------------------------------------------------------------
  // Scanning in place.

  /** Adds one output to the filter if it pays a watched address. */
  method LearnOutput(filter: TxFilter, tx: Tx, i: nat) returns (hit: bool)
    requires i < |tx.outs|
    modifies filter`unspent
    ensures hit == Pays(filter.addrs, tx.outs[i])
    ensures filter.unspent == old(filter.unspent) + if hit then {OutPoint(tx.hash, i)} else {}
  {
    hit := false;
    var addrs := tx.outs[i].addrs;
    for k := 0 to |addrs|
      invariant hit <==> exists j :: 0 <= j < k && addrs[j] in filter.addrs
      invariant filter.unspent == old(filter.unspent) + if hit then {OutPoint(tx.hash, i)} else {}
    {
      if addrs[k] in filter.addrs {
        filter.unspent := filter.unspent + {OutPoint(tx.hash, i)};
        hit := true;
      }
    }
  }

  /** rescanBlockFilter. */
  method RescanBlockFilter(filter: TxFilter, block: Block) returns (transactions: seq<Tx>)
    modifies filter`unspent
    ensures transactions == Rescanned(filter.addrs, old(filter.unspent), block.txs)
    ensures filter.unspent == Learned(filter.addrs, old(filter.unspent), block.txs)
  {
    transactions := [];
    ghost var start := filter.unspent;
    for t := 0 to |block.txs|
      invariant transactions == Rescanned(filter.addrs, start, block.txs[..t])
      invariant filter.unspent == Learned(filter.addrs, start, block.txs[..t])
    {
      var tx := block.txs[t];
      ghost var known := filter.unspent;
      assert block.txs[..t + 1][..t] == block.txs[..t];
      var added := false;
      if !IsCoinBase(tx) {
        for i := 0 to |tx.ins|
          invariant added <==> exists j :: 0 <= j < i && tx.ins[j].prev in known
        {
          if tx.ins[i].prev in filter.unspent {
            added := true;
          }
        }
      }
      for i := 0 to |tx.outs|
        invariant filter.unspent == known + PaidBefore(filter.addrs, tx, i)
        invariant added <==> (!IsCoinBase(tx) && SpendsOneOf(known, tx)) || PaidBefore(filter.addrs, tx, i) != {}
      {
        var hit := LearnOutput(filter, tx, i);
        PaidBeforeStep(filter.addrs, tx, i);
        added := added || hit;
      }
      PaidBeforeAll(filter.addrs, tx);
      if added {
        transactions := transactions + [tx];
      }
    }
    assert block.txs[..|block.txs|] == block.txs;
  }

  lemma ScanStep(addrs: set<Address>, unspent: set<OutPoint>, txs: seq<Tx>, t: nat)
    requires t < |txs|
    ensures Learned(addrs, unspent, txs[..t + 1]) == Learned(addrs, unspent, txs[..t]) + PaidOuts(addrs, txs[t])
    ensures Broadcast(addrs, unspent, txs[..t + 1])
            == Broadcast(addrs, unspent, txs[..t])
               + if BroadcastHit(addrs, Learned(addrs, unspent, txs[..t]), txs[t]) then [txs[t]] else []
  {
    assert txs[..t + 1][..t] == txs[..t];
  }

  ghost predicate SeparateFilters(clients: set<WsClient>)
    reads clients
  {
    forall c, d | c in clients && d in clients && c != d && c.filterData != null :: c.filterData != d.filterData
  }

  /** The clients that have loaded a filter. */
  ghost function Filtered(clients: set<WsClient>): set<WsClient>
    reads clients
  {
    set c | c in clients && c.filterData != null
  }

  ghost function Filters(clients: set<WsClient>): set<TxFilter>
    reads clients
  {
    set c | c in clients && c.filterData != null :: c.filterData
  }

  /** Clients that hold a filter with one of the spent outpoints. */
  method SpendSubscribers(tx: Tx, clients: set<WsClient>) returns (subscribed: set<WsClient>)
    ensures subscribed <= Filtered(clients)
    ensures forall c | c in Filtered(clients) :: c in subscribed <==> SpendsOneOf(c.filterData.unspent, tx)
  {
    subscribed := {};
    for i := 0 to |tx.ins|
      invariant subscribed == set c | c in clients && c.filterData != null
                                      && exists j :: 0 <= j < i && tx.ins[j].prev in c.filterData.unspent
    {
      subscribed := subscribed + set c | c in clients && c.filterData != null && tx.ins[i].prev in c.filterData.unspent;
    }
  }

  /** Shows one output to every client's filter. */
  method PaySubscribers(tx: Tx, i: nat, clients: set<WsClient>) returns (subscribed: set<WsClient>)
    requires SeparateFilters(clients) && i < |tx.outs|
    modifies Filters(clients)`unspent
    ensures subscribed <= Filtered(clients)
    ensures forall c | c in Filtered(clients) :: c in subscribed <==> Pays(c.filterData.addrs, tx.outs[i])
    ensures forall c | c in Filtered(clients) ::
              c.filterData.unspent == old(c.filterData.unspent)
                                      + if Pays(c.filterData.addrs, tx.outs[i]) then {OutPoint(tx.hash, i)} else {}
  {
    subscribed := {};
    ghost var start := map c | c in Filtered(clients) :: c.filterData.unspent;
    var todo := clients;
    while todo != {}
      modifies Filters(clients)`unspent
      invariant todo <= clients && Paying(clients, start, todo, subscribed, tx, i)
      decreases |todo|
    {
      var wsc :| wsc in todo;
      subscribed := PayNext(wsc, tx, i, clients, start, todo, subscribed);
      todo := todo - {wsc};
    }
    assert Looking(true);
  }

  /** A filter before and after an output was shown to it. */
  ghost predicate Shown(hit: bool, op: OutPoint, before: set<OutPoint>, after: set<OutPoint>) {
    after == before + if hit then {op} else {}
  }

  /** All clients but those in `todo` have had their turn. */
  ghost predicate Paying(clients: set<WsClient>, start: map<WsClient, set<OutPoint>>, todo: set<WsClient>,
                         subscribed: set<WsClient>, tx: Tx, i: nat)
    requires i < |tx.outs|
    reads clients, Filters(clients)
  {
    forall g | Looking(g) ::
      && subscribed <= Filtered(clients) && start.Keys == Filtered(clients)
      && forall c | c in Filtered(clients) ::
           && (c in subscribed <==> c !in todo && Pays(c.filterData.addrs, tx.outs[i]))
           && Shown(c in subscribed, OutPoint(tx.hash, i), start[c], c.filterData.unspent)
  }

  /** One client's turn, if it has a filter. */
  method PayNext(wsc: WsClient, tx: Tx, i: nat, clients: set<WsClient>, ghost start: map<WsClient, set<OutPoint>>,
                 ghost todo: set<WsClient>, subscribed: set<WsClient>)
    returns (more: set<WsClient>)
    requires SeparateFilters(clients) && i < |tx.outs| && wsc in todo && todo <= clients
    requires Paying(clients, start, todo, subscribed, tx, i)
    modifies Filters(clients)`unspent
    ensures Paying(clients, start, todo - {wsc}, more, tx, i)
  {
    assert Looking(true);
    more := subscribed;
    if wsc.filterData != null {
      var hit := PayOne(wsc, tx, i, clients);
      if hit {
        more := more + {wsc};
      }
    }
  }

  /** Shows one output to the filter of one client. */
  method PayOne(wsc: WsClient, tx: Tx, i: nat, clients: set<WsClient>) returns (hit: bool)
    requires SeparateFilters(clients) && i < |tx.outs| && wsc in clients && wsc.filterData != null
    modifies wsc.filterData`unspent
    ensures hit == Pays(wsc.filterData.addrs, tx.outs[i])
    ensures Shown(hit, OutPoint(tx.hash, i), old(wsc.filterData.unspent), wsc.filterData.unspent)
    ensures forall c | c in Filtered(clients) && c != wsc :: c.filterData.unspent == old(c.filterData.unspent)
  {
    hit := LearnOutput(wsc.filterData, tx, i);
  }

  /** subscribedClients: who is interested in `tx`; interested filters learn from it. */
  method SubscribedClients(tx: Tx, clients: set<WsClient>) returns (subscribed: set<WsClient>)
    requires SeparateFilters(clients)
    modifies Filters(clients)`unspent
    ensures subscribed <= Filtered(clients)
    ensures forall c | c in Filtered(clients) ::
              c in subscribed <==> old(BroadcastHit(c.filterData.addrs, c.filterData.unspent, tx))
    ensures forall c | c in Filtered(clients) ::
              c.filterData.unspent == old(c.filterData.unspent) + PaidOuts(c.filterData.addrs, tx)
  {
    subscribed := SpendSubscribers(tx, clients);
    for i := 0 to |tx.outs|
      invariant subscribed <= Filtered(clients)
      invariant forall c | c in Filtered(clients) ::
                  c.filterData.unspent == old(c.filterData.unspent) + PaidBefore(c.filterData.addrs, tx, i)
      invariant forall c | c in Filtered(clients) ::
                  c in subscribed <==> old(SpendsOneOf(c.filterData.unspent, tx))
                                       || PaidBefore(c.filterData.addrs, tx, i) != {}
    {
      forall c | c in Filtered(clients)
        ensures PaidBefore(c.filterData.addrs, tx, i + 1)
                == PaidBefore(c.filterData.addrs, tx, i)
                   + if Pays(c.filterData.addrs, tx.outs[i]) then {OutPoint(tx.hash, i)} else {}
      {
        PaidBeforeStep(c.filterData.addrs, tx, i);
      }
      var payees := PaySubscribers(tx, i, clients);
      subscribed := subscribed + payees;
    }
    forall c | c in Filtered(clients)
      ensures PaidBefore(c.filterData.addrs, tx, |tx.outs|) == PaidOuts(c.filterData.addrs, tx)
    {
      PaidBeforeAll(c.filterData.addrs, tx);
    }
  }

  /** What the broadcast of `block` tells a client with the given filter. */
  ghost function Told(filter: TxFilter?, block: Block): seq<Tx>
    reads filter
  {
    if filter == null then [] else Broadcast(filter.addrs, filter.unspent, block.txs)
  }

  /** Appends `tx` to the list of every subscribed client. */
  function AddTo(lists: map<WsClient, seq<Tx>>, subscribed: set<WsClient>, tx: Tx): (r: map<WsClient, seq<Tx>>)
    ensures r.Keys == lists.Keys
    ensures forall c | c in lists :: r[c] == lists[c] + if c in subscribed then [tx] else []
  {
    map c | c in lists :: lists[c] + if c in subscribed then [tx] else []
  }

  /** The first t transactions have been broadcast to filters that began with `start`. */
  ghost predicate BroadcastUpTo(clients: set<WsClient>, start: map<WsClient, set<OutPoint>>,
                                lists: map<WsClient, seq<Tx>>, txs: seq<Tx>, t: nat)
    requires t <= |txs|
    reads clients, Filters(clients)
  {
    && lists.Keys == clients && start.Keys == Filtered(clients)
    && forall c | c in clients ::
         if c.filterData == null then lists[c] == []
         else
           && c.filterData.unspent == Learned(c.filterData.addrs, start[c], txs[..t])
           && lists[c] == Broadcast(c.filterData.addrs, start[c], txs[..t])
  }

  method BroadcastTx(clients: set<WsClient>, txs: seq<Tx>, t: nat, lists: map<WsClient, seq<Tx>>,
                     ghost start: map<WsClient, set<OutPoint>>)
    returns (extended: map<WsClient, seq<Tx>>)
    requires SeparateFilters(clients) && t < |txs| && BroadcastUpTo(clients, start, lists, txs, t)
    modifies Filters(clients)`unspent
    ensures BroadcastUpTo(clients, start, extended, txs, t + 1)
  {
    var subscribed := SubscribedClients(txs[t], clients);
    extended := AddTo(lists, subscribed, txs[t]);
    forall c | c in Filtered(clients) {
      ScanStep(c.filterData.addrs, start[c], txs, t);
    }
  }

  /** The relevant transactions of a block for every client, in block order. */
  method CollectSubscribedTxs(clients: set<WsClient>, block: Block) returns (subscribedTxs: map<WsClient, seq<Tx>>)
    requires SeparateFilters(clients)
    modifies Filters(clients)`unspent
    ensures subscribedTxs.Keys == clients
    ensures forall c | c in clients :: subscribedTxs[c] == old(Told(c.filterData, block))
    ensures forall c | c in Filtered(clients) ::
              c.filterData.unspent == Learned(c.filterData.addrs, old(c.filterData.unspent), block.txs)
  {
    subscribedTxs := map c | c in clients :: [];
    ghost var start := map c | c in Filtered(clients) :: c.filterData.unspent;
    for t := 0 to |block.txs|
      invariant BroadcastUpTo(clients, start, subscribedTxs, block.txs, t)
    {
      subscribedTxs := BroadcastTx(clients, block.txs, t, subscribedTxs, start);
    }
    assert block.txs[..|block.txs|] == block.txs;
  }

  /** Sends every client the block with its own list. */
  method SendFilteredBlock(clients: set<WsClient>, block: Block, subscribedTxs: map<WsClient, seq<Tx>>)
    requires subscribedTxs.Keys == clients
    modifies clients`ntfns
    ensures forall c | c in clients :: c.ntfns == old(c.ntfns) + [FilteredBlockConnected(block, subscribedTxs[c])]
  {
    var todo := clients;
    while todo != {}
      invariant todo <= clients
      invariant forall c | c in clients ::
                  c.ntfns == old(c.ntfns) + if c in todo then [] else [FilteredBlockConnected(block, subscribedTxs[c])]
      decreases |todo|
    {
      var wsc :| wsc in todo;
      todo := todo - {wsc};
      var _ := wsc.QueueNotification(FilteredBlockConnected(block, subscribedTxs[wsc]));
    }
  }

  /** notifyFilteredBlockConnected. */
  method NotifyFilteredBlockConnected(clients: set<WsClient>, block: Block)
    requires SeparateFilters(clients)
    modifies clients`ntfns, Filters(clients)`unspent
    ensures forall c | c in clients ::
              c.ntfns == old(c.ntfns) + [FilteredBlockConnected(block, old(Told(c.filterData, block)))]
    ensures forall c | c in Filtered(clients) ::
              c.filterData.unspent == Learned(c.filterData.addrs, old(c.filterData.unspent), block.txs)
  {
    var subscribedTxs := CollectSubscribedTxs(clients, block);
    SendFilteredBlock(clients, block, subscribedTxs);
  }

  /** The two implementations side by side: a block is broadcast to all clients and rescanned
      with a filter equal to that of one of them.  The filters learn the same, and the client
      is sent the rescan's list exactly if its filter does not hold the null outpoint or every
      coinbase pays it. */
  method BroadcastAndRescan(clients: set<WsClient>, wsc: WsClient, filter: TxFilter, block: Block)
    returns (rescanned: seq<Tx>)
    requires SeparateFilters(clients) && wsc in Filtered(clients) && filter !in Filters(clients)
    requires filter.addrs == wsc.filterData.addrs && filter.unspent == wsc.filterData.unspent
    requires RealHashes(block.txs)
    modifies clients`ntfns, Filters(clients)`unspent, filter`unspent
    ensures filter.unspent == wsc.filterData.unspent
    ensures wsc.ntfns == old(wsc.ntfns) + [FilteredBlockConnected(block, rescanned)]
      <==> || NULL_OUTPOINT !in old(filter.unspent)
           || forall tx | tx in block.txs && IsCoinBase(tx) :: PaidOuts(filter.addrs, tx) != {}
  {
    ghost var sent := Told(wsc.filterData, block);
    BroadcastEqualsRescanIff(filter.addrs, filter.unspent, block.txs);
    NotifyFilteredBlockConnected(clients, block);
    rescanned := RescanBlockFilter(filter, block);
    assert wsc.ntfns[|wsc.ntfns| - 1] == FilteredBlockConnected(block, sent);
  }
}
