// The notification handler and its two-way subscription indexes
// (node/rpcwebsocket.go).
//
// Every watched outpoint or address maps to the clients watching it, and every
// client keeps its own request sets.  A dozen control messages and notification
// itself update both sides.

module Subscriptions {
  import opened Common
  import opened Wire
  import opened WsClients
  import opened FilterScan

  // ---------------------------------------------------------------------------
  // What one client gets, as values.

  /** A report that a transaction already in the mempool spends a newly watched
      outpoint.  It carries no block and may interleave with anything. */
  predicate IsMempoolEcho(ntfn: Ntfn) {
    ntfn.RedeemingTx? && ntfn.block.None?
  }

  function DropEchoes(ntfns: seq<Ntfn>): seq<Ntfn> {
    if ntfns == [] then []
    else DropEchoes(ntfns[..|ntfns| - 1]) + if IsMempoolEcho(ntfns[|ntfns| - 1]) then [] else [ntfns[|ntfns| - 1]]
  }

  /** A connected transaction, as a client with the given requests hears of it. */
  function ConnectedTxNtfns(addrs: set<Address>, watched: set<OutPoint>, tx: Tx, blk: Block): seq<Ntfn> {
    (if SpendsOneOf(watched, tx) then [RedeemingTx(tx, Some(blk))] else [])
    + (if PaidOuts(addrs, tx) != {} then [RecvTx(tx, Some(blk))] else [])
  }

  function ConnectedNtfns(addrs: set<Address>, watched: set<OutPoint>, txs: seq<Tx>, blk: Block): seq<Ntfn> {
    if txs == [] then []
    else
      var before, tx := txs[..|txs| - 1], txs[|txs| - 1];
      ConnectedNtfns(addrs, watched, before, blk) + ConnectedTxNtfns(addrs, WatchAfter(addrs, watched, before), tx, blk)
  }

  lemma {:induction false} OwnRedeemedOnce(addrs: set<Address>, watched: set<OutPoint>, txs: seq<Tx>, blk: Block,
                                           t: nat)
    requires t < |txs| && forall i, j | 0 <= i < j < |txs| :: txs[i] != txs[j]
    ensures Count(ConnectedNtfns(addrs, watched, txs, blk), RedeemingTx(txs[t], Some(blk)))
            == if SpendsOneOf(WatchAfter(addrs, watched, txs[..t]), txs[t]) then 1 else 0
  {
    var before, last := txs[..|txs| - 1], txs[|txs| - 1];
    var ntfn := RedeemingTx(txs[t], Some(blk));
    var known := WatchAfter(addrs, watched, before);
    CountAppend(ConnectedNtfns(addrs, watched, before, blk), ConnectedTxNtfns(addrs, known, last, blk), ntfn);
    RedeemedByTx(addrs, known, last, blk, txs[t]);
    if t < |before| {
      OwnRedeemedOnce(addrs, watched, before, blk, t);
      assert before[..t] == txs[..t];
    } else {
      NothingForOtherTxs(addrs, watched, before, blk, last);
      CountAbsent(ConnectedNtfns(addrs, watched, before, blk), ntfn);
      assert txs[..t] == before;
    }
  }

  lemma RedeemedByTx(addrs: set<Address>, watched: set<OutPoint>, tx: Tx, blk: Block, other: Tx)
    ensures Count(ConnectedTxNtfns(addrs, watched, tx, blk), RedeemingTx(other, Some(blk)))
            == if other == tx && SpendsOneOf(watched, tx) then 1 else 0
  {
    var redeemed := if SpendsOneOf(watched, tx) then [RedeemingTx(tx, Some(blk))] else [];
    var received := if PaidOuts(addrs, tx) != {} then [RecvTx(tx, Some(blk))] else [];
    CountAppend(redeemed, received, RedeemingTx(other, Some(blk)));
  }

  lemma {:induction false} NothingForOtherTxs(addrs: set<Address>, watched: set<OutPoint>, txs: seq<Tx>, blk: Block,
                                              tx: Tx)
    requires tx !in txs
    ensures RedeemingTx(tx, Some(blk)) !in ConnectedNtfns(addrs, watched, txs, blk)
  {
    if txs != [] {
      NothingForOtherTxs(addrs, watched, txs[..|txs| - 1], blk, tx);
    }
  }

  lemma {:induction false} DropEchoesAppend(xs: seq<Ntfn>, ys: seq<Ntfn>)
    ensures DropEchoes(xs + ys) == DropEchoes(xs) + DropEchoes(ys)
  {
    if ys == [] {
      assert xs + ys == xs;
    } else {
      var n := |ys| - 1;
      WithoutLast(xs, ys);
      DropEchoesAppend(xs, ys[..n]);
      Rejoined(DropEchoes(xs), DropEchoes(ys[..n]), if IsMempoolEcho(ys[n]) then [] else [ys[n]]);
    }
  }

  lemma DropEchoesStep(xs: seq<Ntfn>, ntfn: Ntfn)
    ensures DropEchoes(xs + [ntfn]) == DropEchoes(xs) + if IsMempoolEcho(ntfn) then [] else [ntfn]
  {
    assert (xs + [ntfn])[..|xs|] == xs;
  }

  lemma {:induction false} NoEchoesToDrop(ntfns: seq<Ntfn>)
    requires forall n | n in ntfns :: !IsMempoolEcho(n)
    ensures DropEchoes(ntfns) == ntfns
  {
    if ntfns != [] {
      var before, last := ntfns[..|ntfns| - 1], ntfns[|ntfns| - 1];
      NoEchoesToDrop(before);
      DropEchoesStep(before, last);
      assert before + [last] == ntfns;
    }
  }

  lemma DropEchoesOfThree(before: seq<Ntfn>, own: seq<Ntfn>, more: seq<Ntfn>)
    requires forall n | n in more :: !IsMempoolEcho(n)
    ensures DropEchoes(before + own + more) == DropEchoes(before) + DropEchoes(own) + more
    ensures DropEchoes(before + own + more) == DropEchoes(before) + (DropEchoes(own) + more)
  {
    DropEchoesAppend(before + own, more);
    DropEchoesAppend(before, own);
    NoEchoesToDrop(more);
    Rejoined(DropEchoes(before), DropEchoes(own), more);
  }

  lemma DropEchoesOfFour(before: seq<Ntfn>, first: seq<Ntfn>, own: seq<Ntfn>, more: seq<Ntfn>)
    requires forall n | n in first || n in more :: !IsMempoolEcho(n)
    ensures DropEchoes(before + first + own + more) == DropEchoes(before) + (first + DropEchoes(own) + more)
  {
    DropEchoesOfThree(before + first, own, more);
    DropEchoesAppend(before, first);
    NoEchoesToDrop(first);
    Rejoined(DropEchoes(before), first, DropEchoes(own));
    Rejoined(DropEchoes(before), first + DropEchoes(own), more);
  }

  lemma NewsOfTx(before: seq<Ntfn>, first: seq<Ntfn>, own: seq<Ntfn>, more: seq<Ntfn>, now: seq<Ntfn>, ntfn: Ntfn)
    requires now == before + first + own + more && forall n | n in first || n in more :: !IsMempoolEcho(n)
    ensures before <= now && DropEchoes(now) == DropEchoes(before) + (first + DropEchoes(own) + more)
    ensures ntfn in own ==> ntfn in now[|before|..]
  {
    DropEchoesOfFour(before, first, own, more);
    if ntfn in own {
      OneOfThem(before, first, own, more, ntfn);
    }
  }

  lemma OneOfThem(before: seq<Ntfn>, first: seq<Ntfn>, own: seq<Ntfn>, more: seq<Ntfn>, ntfn: Ntfn)
    requires ntfn in own
    ensures ntfn in (before + first + own + more)[|before|..]
  {
    var k :| 0 <= k < |own| && own[k] == ntfn;
    var now := before + first + own + more;
    assert now[|before| + |first| + k] == ntfn;
    assert now[|before|..][|first| + k] == ntfn;
  }

  /** The mempool spends a client with the given requests is told about. */
  function Echoes(spends: set<Tx>, watched: set<OutPoint>): set<Ntfn> {
    set s | s in spends && SpendsOneOf(watched, s) :: RedeemingTx(s, None)
  }

  // ---------------------------------------------------------------------------
  // Turns.  A transaction is shown to its payees one after the other, in an order that
  // is the runtime's; given that order, everything every client gets is determined.

  /** `wsc` is registered for an output that pays it. */
  datatype Turn = Turn(wsc: WsClient, op: OutPoint)

  /** What a registration for `op` brings a client with the given requests: the report of
      a mempool transaction that already spends it, if the client watches any of its
      inputs. */
  function EchoFor(op: OutPoint, watched: set<OutPoint>, mempool: map<OutPoint, Tx>): seq<Ntfn> {
    if op in mempool && SpendsOneOf(watched, mempool[op]) then [RedeemingTx(mempool[op], None)] else []
  }

  function TurnNtfns(turn: Turn, c: WsClient, watched: set<OutPoint>, told: bool, tx: Tx, block: Option<Block>,
                     mempool: map<OutPoint, Tx>): seq<Ntfn>
  {
    EchoFor(turn.op, watched, mempool) + if turn.wsc == c && !told then [RecvTx(tx, block)] else []
  }

  function WatchedAfter(turns: seq<Turn>, c: WsClient, watched: set<OutPoint>): set<OutPoint> {
    if turns == [] then watched
    else
      var last := turns[|turns| - 1];
      WatchedAfter(turns[..|turns| - 1], c, watched) + if last.wsc == c then {last.op} else {}
  }

  predicate ToldIn(turns: seq<Turn>, c: WsClient) {
    exists k :: 0 <= k < |turns| && turns[k].wsc == c
  }

  /** Everything a client gets over the turns of one transaction, in order. */
  function TurnsNtfns(turns: seq<Turn>, c: WsClient, watched: set<OutPoint>, tx: Tx, block: Option<Block>,
                      mempool: map<OutPoint, Tx>): seq<Ntfn>
  {
    if turns == [] then []
    else
      var before := turns[..|turns| - 1];
      TurnsNtfns(before, c, watched, tx, block, mempool)
      + TurnNtfns(turns[|turns| - 1], c, WatchedAfter(turns, c, watched), ToldIn(before, c), tx, block, mempool)
  }

  /** Everything a client gets for one transaction. */
  function TxNtfns(turns: seq<Turn>, c: WsClient, watched: set<OutPoint>, tx: Tx, block: Option<Block>,
                   mempool: map<OutPoint, Tx>): seq<Ntfn>
  {
    (if SpendsOneOf(watched, tx) then [RedeemingTx(tx, block)] else [])
    + TurnsNtfns(turns, c, watched - (if block.Some? then Prevs(tx) else {}), tx, block, mempool)
  }

  /** Everything a client gets for the transactions of a block. */
  function BlockNtfns(turns: seq<seq<Turn>>, c: WsClient, addrs: set<Address>, watched: set<OutPoint>, txs: seq<Tx>,
                      blk: Block, mempool: map<OutPoint, Tx>): seq<Ntfn>
    requires |turns| == |txs|
  {
    if txs == [] then []
    else
      var n := |txs| - 1;
      BlockNtfns(turns[..n], c, addrs, watched, txs[..n], blk, mempool)
      + TxNtfns(turns[n], c, WatchAfter(addrs, watched, txs[..n]), txs[n], Some(blk), mempool)
  }

  /** How many of the addresses are mine. */
  function Mine(mine: set<Address>, addrs: seq<Address>): nat {
    if addrs == [] then 0 else Mine(mine, addrs[..|addrs| - 1]) + if addrs[|addrs| - 1] in mine then 1 else 0
  }

  /** A client has its turn once for every one of its addresses in every output. */
  ghost predicate OwnTurns(turns: seq<Turn>, c: WsClient, mine: set<Address>, tx: Tx, n: nat)
    requires n <= |tx.outs|
  {
    forall op: OutPoint ::
      Count(turns, Turn(c, op)) == if op.hash == tx.hash && op.index < n then Mine(mine, tx.outs[op.index].addrs) else 0
  }

  /** Outputs are looked at in order. */
  ghost predicate InOrder(turns: seq<Turn>) {
    forall j, k | 0 <= j < k < |turns| :: turns[j].op.index <= turns[k].op.index
  }

  datatype Message =
    | BlockConnectedMsg(block: Block)
    | BlockDisconnectedMsg(block: Block)
    | TxAcceptedByMempool(tx: Tx, isNew: bool)
    | MempoolChanges(mempool: map<OutPoint, Tx>)
    | RegisterBlocks(wsc: WsClient)
    | UnregisterBlocks(wsc: WsClient)
    | RegisterClient(wsc: WsClient)
    | UnregisterClient(wsc: WsClient)
    | RegisterSpent(wsc: WsClient, ops: seq<OutPoint>)
    | UnregisterSpent(wsc: WsClient, op: OutPoint)
    | RegisterAddr(wsc: WsClient, addrs: seq<Address>)
    | UnregisterAddr(wsc: WsClient, addr: Address)
    | RegisterNewMempoolTxs(wsc: WsClient)
    | UnregisterNewMempoolTxs(wsc: WsClient)
    | LoadTxFilter(wsc: WsClient, addrs: seq<Address>, ops: seq<OutPoint>, reload: bool)

  predicate IsNamed(msg: Message, c: WsClient) {
    !msg.BlockConnectedMsg? && !msg.BlockDisconnectedMsg? && !msg.TxAcceptedByMempool? && !msg.MempoolChanges?
    && msg.wsc == c
  }

  /** A list of clients after a message that registers or unregisters the client it names. */
  function Listed(list: set<WsClient>, msg: Message, joins: bool, leaves: bool): set<WsClient>
    requires joins || leaves ==>
      !msg.BlockConnectedMsg? && !msg.BlockDisconnectedMsg? && !msg.TxAcceptedByMempool? && !msg.MempoolChanges?
  {
    if joins then list + {msg.wsc} else if leaves then list - {msg.wsc} else list
  }

  /** A client's requests for outpoints after a message. */
  function SpentAfter(msg: Message, c: WsClient, addrs: set<Address>, watched: set<OutPoint>): set<OutPoint> {
    match msg
    case BlockConnectedMsg(block) => WatchAfter(addrs, watched, block.txs)
    case TxAcceptedByMempool(tx, _) => watched + PaidOuts(addrs, tx)
    case RegisterSpent(wsc, ops) => if c == wsc then watched + (set op | op in ops) else watched
    case UnregisterSpent(wsc, op) => if c == wsc then watched - {op} else watched
    case UnregisterClient(wsc) => if c == wsc then {} else watched
    case _ => watched
  }

  /** And for addresses. */
  function AddrsAfter(msg: Message, c: WsClient, addrs: set<Address>): set<Address> {
    match msg
    case RegisterAddr(wsc, more) => if c == wsc then addrs + (set a | a in more) else addrs
    case UnregisterAddr(wsc, addr) => if c == wsc then addrs - {addr} else addrs
    case UnregisterClient(wsc) => if c == wsc then {} else addrs
    case _ => addrs
  }

  /** What a filter holds after a block or a transaction; `listed` if its client is on the list
      of those who hear of it. */
  function FilterAfter(msg: Message, listed: bool, addrs: set<Address>, unspent: set<OutPoint>): set<OutPoint> {
    if !listed then unspent
    else
      match msg
      case BlockConnectedMsg(block) => Learned(addrs, unspent, block.txs)
      case TxAcceptedByMempool(tx, _) => unspent + PaidOuts(addrs, tx)
      case _ => unspent
  }

  /** What loading a filter makes of what a client's filter held. */
  function Loaded<T>(msg: Message, c: WsClient, held: set<T>, added: seq<T>): set<T>
    requires msg.LoadTxFilter?
  {
    if c != msg.wsc then held else (if msg.reload then {} else held) + set x | x in added
  }

  /** A client's filter after a message; `listed` if it is on the list of those who hear of it. */
  function FilterNow(msg: Message, c: WsClient, listed: bool, filter: Option<(set<Address>, set<OutPoint>)>)
    : Option<(set<Address>, set<OutPoint>)>
  {
    if msg.LoadTxFilter? then
      if c != msg.wsc then filter
      else
        var held := if filter.None? then ({}, {}) else filter.value;
        Some((Loaded(msg, c, held.0, msg.addrs), Loaded(msg, c, held.1, msg.ops)))
    else if filter.None? then None
    else Some((filter.value.0, FilterAfter(msg, listed, filter.value.0, filter.value.1)))
  }

  // ---------------------------------------------------------------------------
  // The state of the handler and of its clients, and what a message makes of it.

  /** A client: its requests, its filter, and what it has been sent. */
  datatype ClientState = ClientState(spent: set<OutPoint>, addrs: set<Address>,
                                     filter: Option<(set<Address>, set<OutPoint>)>, ntfns: seq<Ntfn>)

  datatype State = State(clients: set<WsClient>, blocks: set<WsClient>, txs: set<WsClient>,
                         mempool: map<OutPoint, Tx>, each: map<WsClient, ClientState>)

  /** What the broadcast of a block tells a client. */
  function Relevant(filter: Option<(set<Address>, set<OutPoint>)>, block: Block): seq<Tx> {
    if filter.None? then [] else Broadcast(filter.value.0, filter.value.1, block.txs)
  }

  predicate Hit(filter: Option<(set<Address>, set<OutPoint>)>, tx: Tx) {
    filter.Some? && BroadcastHit(filter.value.0, filter.value.1, tx)
  }

  /** What a message brings a client, echoes aside. */
  function News(s: State, msg: Message, c: WsClient, was: ClientState): seq<Ntfn> {
    match msg
    case BlockConnectedMsg(block) =>
      BlockNews(block, c in s.blocks, was.addrs, was.spent, Relevant(was.filter, block))
    case BlockDisconnectedMsg(block) =>
      if c in s.blocks then [BlockDisconnected(block), FilteredBlockDisconnected(block)] else []
    case TxAcceptedByMempool(tx, isNew) =>
      TxNews(tx, isNew && c in s.txs, was.addrs, c in s.clients && Hit(was.filter, tx))
    case _ => []
  }

  /** Those whose filters follow a message. */
  function FollowersOf(s: State, msg: Message): set<WsClient> {
    if msg.BlockConnectedMsg? then s.blocks else if msg.TxAcceptedByMempool? then s.clients else {}
  }

  /** And of the client; the notifications of `now` are those it had, with the news. */
  function ClientAfter(s: State, msg: Message, c: WsClient, was: ClientState): ClientState {
    ClientState(SpentAfter(msg, c, was.addrs, was.spent), AddrsAfter(msg, c, was.addrs),
                FilterNow(msg, c, c in FollowersOf(s, msg), was.filter), was.ntfns + News(s, msg, c, was))
  }

  ghost function After(s: State, msg: Message): State {
    State(Listed(s.clients, msg, msg.RegisterClient?, msg.UnregisterClient?),
          Listed(s.blocks, msg, msg.RegisterBlocks?, msg.UnregisterBlocks? || msg.UnregisterClient?),
          Listed(s.txs, msg, msg.RegisterNewMempoolTxs?, msg.UnregisterNewMempoolTxs? || msg.UnregisterClient?),
          if msg.MempoolChanges? then msg.mempool else s.mempool,
          map c | c in s.each :: ClientAfter(s, msg, c, s.each[c]))
  }

  /** All messages, in order. */
  ghost function AfterAll(s: State, msgs: seq<Message>): State {
    if msgs == [] then s else After(AfterAll(s, msgs[..|msgs| - 1]), msgs[|msgs| - 1])
  }

  /** The state without the echoes of mempool spends. */
  ghost function Hushed(s: State): State {
    s.(each := map c | c in s.each :: HushedClient(s.each[c]))
  }

  function HushedClient(c: ClientState): ClientState {
    c.(ntfns := DropEchoes(c.ntfns))
  }

  function SpendsIn(mempool: map<OutPoint, Tx>, ops: seq<OutPoint>): set<Tx> {
    set op | op in ops && op in mempool :: mempool[op]
  }

  /** What a client hears besides the news: the redeemingtx of a mempool transaction that
      spends what it watches, and for every request of an outpoint the echoes. */
  ghost predicate HearsOn(msg: Message, mempool: map<OutPoint, Tx>, spent0: set<OutPoint>, ntfns0: seq<Ntfn>,
                          spent: set<OutPoint>, ntfns: seq<Ntfn>) {
    && ntfns0 <= ntfns
    && (msg.TxAcceptedByMempool? && SpendsOneOf(spent0, msg.tx) ==> RedeemingTx(msg.tx, None) in ntfns[|ntfns0|..])
    && (msg.RegisterSpent? ==> Echoed(ntfns0, SpendsIn(mempool, msg.ops), spent, ntfns))
  }

  /** One message: echoes aside, the state becomes what the message makes of it. */
  ghost predicate Passed(s: State, msg: Message, t: State) {
    && Hushed(t) == After(Hushed(s), msg) && t.each.Keys == s.each.Keys
    && forall c | c in s.each ::
         HearsOn(msg, s.mempool, s.each[c].spent, s.each[c].ntfns, t.each[c].spent, t.each[c].ntfns)
  }

  lemma ClientFollows(s: State, msg: Message, c: WsClient, was: ClientState, now: ClientState)
    requires now.spent == SpentAfter(msg, c, was.addrs, was.spent) && now.addrs == AddrsAfter(msg, c, was.addrs)
    requires now.filter == FilterNow(msg, c, c in FollowersOf(s, msg), was.filter)
    requires DropEchoes(now.ntfns) == DropEchoes(was.ntfns) + News(s, msg, c, HushedClient(was))
    ensures HushedClient(now) == ClientAfter(s, msg, c, HushedClient(was))
  {
  }

  lemma AllFollow(s: State, msg: Message, t: State)
    requires t.each.Keys == s.each.Keys && t.mempool == After(Hushed(s), msg).mempool
    requires t.clients == After(Hushed(s), msg).clients && t.blocks == After(Hushed(s), msg).blocks
    requires t.txs == After(Hushed(s), msg).txs
    requires forall c | c in s.each ::
      HushedClient(t.each[c]) == ClientAfter(Hushed(s), msg, c, HushedClient(s.each[c]))
    ensures Hushed(t) == After(Hushed(s), msg)
  {
    assert Hushed(t).each == After(Hushed(s), msg).each;
  }

  /** The states before every message and after the last. */
  ghost predicate Trace(states: seq<State>, msgs: seq<Message>) {
    |states| == |msgs| + 1 && forall i | 0 <= i < |msgs| :: PassedAt(states, msgs, i)
  }

  ghost predicate PassedAt(states: seq<State>, msgs: seq<Message>, i: nat)
    requires i < |msgs| && i + 1 < |states|
  {
    Passed(states[i], msgs[i], states[i + 1])
  }

  lemma TraceOn(states: seq<State>, msgs: seq<Message>, i: nat, next: State)
    requires i < |msgs| && Trace(states, msgs[..i]) && Passed(states[i], msgs[i], next)
    ensures Trace(states + [next], msgs[..i + 1])
  {
    var more, longer := states + [next], msgs[..i + 1];
    forall j | 0 <= j < |longer|
      ensures PassedAt(more, longer, j)
    {
      if j < i {
        assert PassedAt(states, msgs[..i], j);
      }
    }
  }

  /** A trace leads, echoes aside, to the messages' in-order fold. */
  lemma {:induction false} TraceIsFold(states: seq<State>, msgs: seq<Message>)
    requires Trace(states, msgs)
    ensures Hushed(states[|msgs|]) == AfterAll(Hushed(states[0]), msgs)
  {
    if msgs != [] {
      var n := |msgs| - 1;
      var fewer, before := states[..n + 1], msgs[..n];
      forall j | 0 <= j < |before|
        ensures PassedAt(fewer, before, j)
      {
        assert PassedAt(states, msgs, j);
      }
      TraceIsFold(fewer, before);
      assert PassedAt(states, msgs, n);
    }
  }

  // ---------------------------------------------------------------------------
  // The handler.

  class NotificationManager {
    var clients: set<WsClient>
    var blockNotifications: set<WsClient>
    var txNotifications: set<WsClient>
    var watchedOutPoints: map<OutPoint, set<WsClient>>
    var watchedAddrs: map<Address, set<WsClient>>

    // The mempool's spend index (CheckSpend).  It changes between two messages only.
    var mempool: map<OutPoint, Tx>

    // Every client that a message may name.
    ghost const universe: set<WsClient>

    ghost function Watchers(op: OutPoint): set<WsClient>
      reads this`watchedOutPoints
    {
      if op in watchedOutPoints then watchedOutPoints[op] else {}
    }

    ghost function AddrWatchers(addr: Address): set<WsClient>
      reads this`watchedAddrs
    {
      if addr in watchedAddrs then watchedAddrs[addr] else {}
    }

    /** An outpoint is among a client's requests exactly when the client is listed
        at that outpoint, and nothing is listed without clients. */
    ghost predicate SpentIndexOk()
      reads this`watchedOutPoints, universe`spentRequests
    {
      && (forall op | op in watchedOutPoints :: watchedOutPoints[op] != {} && watchedOutPoints[op] <= universe)
      && (forall c, op | c in universe :: op in c.spentRequests <==> c in Watchers(op))
    }

    /** The same for addresses. */
    ghost predicate AddrIndexOk()
      reads this`watchedAddrs, universe`addrRequests
    {
      && (forall addr | addr in watchedAddrs :: watchedAddrs[addr] != {} && watchedAddrs[addr] <= universe)
      && (forall c, addr | c in universe :: addr in c.addrRequests <==> c in AddrWatchers(addr))
    }

    ghost predicate Valid()
      reads this, universe
    {
      && SpentIndexOk() && AddrIndexOk() && SeparateFilters(universe)
      && clients <= universe && blockNotifications <= universe && txNotifications <= universe
    }

    constructor (ghost universe: set<WsClient>, mempool: map<OutPoint, Tx>)
      requires forall c | c in universe :: c.spentRequests == {} && c.addrRequests == {}
      requires SeparateFilters(universe)
      ensures Valid() && this.universe == universe && clients == {}
    {
      this.universe, this.mempool := universe, mempool;
      clients, blockNotifications, txNotifications := {}, {}, {};
      watchedOutPoints, watchedAddrs := map[], map[];
    }

    // ----- spent requests

    method AddSpentRequest(wsc: WsClient, op: OutPoint)
      requires SpentIndexOk() && wsc in universe
      modifies this`watchedOutPoints, wsc`spentRequests
      ensures SpentIndexOk()
      ensures wsc.spentRequests == old(wsc.spentRequests) + {op}
    {
      wsc.spentRequests := wsc.spentRequests + {op};
      var cmap := if op in watchedOutPoints then watchedOutPoints[op] else {};
      watchedOutPoints := watchedOutPoints[op := cmap + {wsc}];
      assert forall o :: Watchers(o) == old(Watchers(o)) + if o == op then {wsc} else {};
    }

    method RemoveSpentRequest(wsc: WsClient, op: OutPoint)
      requires SpentIndexOk() && wsc in universe
      modifies this`watchedOutPoints, wsc`spentRequests
      ensures SpentIndexOk()
      ensures wsc.spentRequests == old(wsc.spentRequests) - {op}
    {
      wsc.spentRequests := wsc.spentRequests - {op};
      if op !in watchedOutPoints {
        return;
      }
      var notifyMap := watchedOutPoints[op] - {wsc};
      watchedOutPoints := if notifyMap == {} then Without(watchedOutPoints, op) else watchedOutPoints[op := notifyMap];
      assert forall o :: Watchers(o) == old(Watchers(o)) - if o == op then {wsc} else {};
    }

    /** Tells everyone watching one spent outpoint, unless already told. */
    method NotifySpenders(op: OutPoint, tx: Tx, block: Option<Block>, notified: set<WsClient>)
      returns (notified': set<WsClient>)
      requires SpentIndexOk()
      modifies this`watchedOutPoints, universe`spentRequests, universe`ntfns
      ensures SpentIndexOk()
      ensures notified' == notified + old(Watchers(op))
      ensures forall c | c in universe :: c.spentRequests == old(c.spentRequests) - if block.Some? then {op} else {}
      ensures forall c | c in universe ::
                c.ntfns == old(c.ntfns) + if c in notified' - notified then [RedeemingTx(tx, block)] else []
    {
      notified' := notified;
      ghost var watchers := Watchers(op);
      ghost var start := map c | c in universe :: (c.spentRequests, c.ntfns);
      var todo := if op in watchedOutPoints then watchedOutPoints[op] else {};
      while todo != {}
        invariant SpentIndexOk() && todo <= watchers <= universe
        invariant Telling(start, op, tx, block, watchers, todo, notified, notified')
        decreases todo
      {
        var wsc :| wsc in todo;
        notified' := TellSpender(wsc, op, tx, block, start, watchers, todo, notified, notified');
        todo := todo - {wsc};
      }
      assert Looking(true);
    }

    /** All watchers of a spent outpoint but those in `todo` have been told, unless they were
        before. */
    ghost predicate Telling(start: map<WsClient, (set<OutPoint>, seq<Ntfn>)>, op: OutPoint, tx: Tx,
                            block: Option<Block>,
                            watchers: set<WsClient>, todo: set<WsClient>, before: set<WsClient>, told: set<WsClient>)
      reads universe`spentRequests, universe`ntfns
    {
      forall g | Looking(g) ::
        && start.Keys == universe && told == before + (watchers - todo)
        && forall c | c in universe ::
             && c.spentRequests == start[c].0 - (if block.Some? && c !in todo then {op} else {})
             && c.ntfns == start[c].1 + if c in told - before then [RedeemingTx(tx, block)] else []
    }

    method TellSpender(wsc: WsClient, op: OutPoint, tx: Tx, block: Option<Block>,
                       ghost start: map<WsClient, (set<OutPoint>, seq<Ntfn>)>, ghost watchers: set<WsClient>,
                       ghost todo: set<WsClient>, ghost before: set<WsClient>, notified: set<WsClient>)
      returns (notified': set<WsClient>)
      requires SpentIndexOk() && wsc in todo && todo <= watchers && watchers <= universe
      requires Telling(start, op, tx, block, watchers, todo, before, notified)
      modifies this`watchedOutPoints, wsc`spentRequests, wsc`ntfns
      ensures SpentIndexOk() && Telling(start, op, tx, block, watchers, todo - {wsc}, before, notified')
    {
      assert Looking(true);
      notified' := notified;
      if block.Some? {
        RemoveSpentRequest(wsc, op);
      }
      if wsc !in notified {
        notified' := notified + {wsc};
        var _ := wsc.QueueNotification(RedeemingTx(tx, block));
      }
    }

    /** notifyForTxIns: one redeemingtx per interested client, however many of its
        outpoints the transaction spends.  In a block the matched requests end. */
    method NotifyForTxIns(tx: Tx, block: Option<Block>)
      requires SpentIndexOk()
      modifies this`watchedOutPoints, universe`spentRequests, universe`ntfns
      ensures SpentIndexOk()
      ensures forall c | c in universe ::
                c.spentRequests == old(c.spentRequests) - if block.Some? then Prevs(tx) else {}
      ensures forall c | c in universe ::
                c.ntfns == old(c.ntfns) + if old(SpendsOneOf(c.spentRequests, tx)) then [RedeemingTx(tx, block)] else []
    {
      if watchedOutPoints == map[] {
        forall c | c in universe
          ensures c.spentRequests == {}
        {
          forall op
            ensures op !in c.spentRequests
          {
            assert c !in Watchers(op);
          }
        }
        return;
      }
      var notified: set<WsClient> := {};
      for i := 0 to |tx.ins|
        invariant SpentIndexOk() && notified <= universe
        invariant forall c | c in universe ::
                    c.spentRequests == old(c.spentRequests) - if block.Some? then PrevsBefore(tx, i) else {}
        invariant forall c | c in universe ::
                    c in notified <==> exists j :: 0 <= j < i && tx.ins[j].prev in old(c.spentRequests)
        invariant forall c | c in universe ::
                    c.ntfns == old(c.ntfns) + if c in notified then [RedeemingTx(tx, block)] else []
      {
        notified := NotifySpenders(tx.ins[i].prev, tx, block, notified);
      }
    }

    /** addSpentRequests: the new requests, and at once an echo of every mempool
        transaction that already spends one of them, to everyone watching. */
    method AddSpentRequests(wsc: WsClient, ops: seq<OutPoint>)
      requires SpentIndexOk() && wsc in universe
      modifies this`watchedOutPoints, universe`spentRequests, universe`ntfns
      ensures SpentIndexOk()
      ensures forall c | c in universe ::
                c.spentRequests == old(c.spentRequests) + if c == wsc then (set op | op in ops) else {}
      ensures forall c | c in universe :: Echoed(old(c.ntfns), MempoolSpends(ops), c.spentRequests, c.ntfns)
    {
      for i := 0 to |ops|
        invariant SpentIndexOk()
        invariant forall c | c in universe ::
                    c.spentRequests == old(c.spentRequests) + if c == wsc then (set op | op in ops[..i]) else {}
        invariant forall c | c in universe :: c.ntfns == old(c.ntfns)
      {
        AddSpentRequest(wsc, ops[i]);
      }
      assert ops[..|ops|] == ops;
      var spends := MempoolSpends(ops);
      EchoSpends(spends);
    }

    function MempoolSpends(ops: seq<OutPoint>): set<Tx>
      reads this`mempool
    {
      SpendsIn(mempool, ops)
    }

    method EchoSpends(spends: set<Tx>)
      requires SpentIndexOk()
      modifies this`watchedOutPoints, universe`spentRequests, universe`ntfns
      ensures SpentIndexOk()
      ensures forall c | c in universe :: c.spentRequests == old(c.spentRequests)
      ensures forall c | c in universe :: Echoed(old(c.ntfns), spends, c.spentRequests, c.ntfns)
    {
      var todo, done: set<Tx> := spends, {};
      while todo != {}
        invariant SpentIndexOk() && todo + done == spends && todo !! done
        invariant forall c | c in universe :: c.spentRequests == old(c.spentRequests)
        invariant forall c | c in universe :: Echoed(old(c.ntfns), done, c.spentRequests, c.ntfns)
        decreases todo
      {
        var spend :| spend in todo;
        label before:
        NotifyForTxIns(spend, None);
        forall c | c in universe
          ensures Echoed(old(c.ntfns), done + {spend}, c.spentRequests, c.ntfns)
        {
          EchoedStep(old(c.ntfns), done, c.spentRequests, old@before(c.ntfns), spend);
        }
        assert (todo - {spend}) + (done + {spend}) == spends;
        todo, done := todo - {spend}, done + {spend};
      }
    }

    // ----- address requests

    method AddAddrRequests(wsc: WsClient, addrs: seq<Address>)
      requires AddrIndexOk() && wsc in universe
      modifies this`watchedAddrs, wsc`addrRequests
      ensures AddrIndexOk()
      ensures wsc.addrRequests == old(wsc.addrRequests) + set a | a in addrs
    {
      for i := 0 to |addrs|
        invariant AddrIndexOk()
        invariant wsc.addrRequests == old(wsc.addrRequests) + set a | a in addrs[..i]
      {
        var addr := addrs[i];
        label before:
        wsc.addrRequests := wsc.addrRequests + {addr};
        var cmap := if addr in watchedAddrs then watchedAddrs[addr] else {};
        watchedAddrs := watchedAddrs[addr := cmap + {wsc}];
        assert forall a :: AddrWatchers(a) == old@before(AddrWatchers(a)) + if a == addr then {wsc} else {};
      }
      assert addrs[..|addrs|] == addrs;
    }

    method RemoveAddrRequest(wsc: WsClient, addr: Address)
      requires AddrIndexOk() && wsc in universe
      modifies this`watchedAddrs, wsc`addrRequests
      ensures AddrIndexOk()
      ensures wsc.addrRequests == old(wsc.addrRequests) - {addr}
    {
      wsc.addrRequests := wsc.addrRequests - {addr};
      if addr !in watchedAddrs {
        return;
      }
      var cmap := watchedAddrs[addr] - {wsc};
      watchedAddrs := if cmap == {} then Without(watchedAddrs, addr) else watchedAddrs[addr := cmap];
      assert forall a :: AddrWatchers(a) == old(AddrWatchers(a)) - if a == addr then {wsc} else {};
    }

    /** Every client of the run, seen from where it was when the transaction came up. */
    ghost predicate Going(turns: seq<Turn>, start: map<WsClient, (set<OutPoint>, seq<Ntfn>)>, tx: Tx,
                          block: Option<Block>)
      reads this`mempool, universe`spentRequests, universe`ntfns
    {
      forall c | c in universe ::
        c in start && AfterTurns(turns, c, start[c].0, start[c].1, tx, block, mempool, c.spentRequests, c.ntfns)
    }

    /** Registers one paid output for one client, and tells it unless already told. */
    method NotifyPayee(wsc: WsClient, op: OutPoint, tx: Tx, block: Option<Block>, tell: bool, ghost turns: seq<Turn>)
      requires SpentIndexOk() && wsc in universe && (tell <==> !ToldIn(turns, wsc))
      modifies this`watchedOutPoints, universe`spentRequests, universe`ntfns
      ensures SpentIndexOk()
      ensures forall c | c in universe :: c.spentRequests == old(c.spentRequests) + if c == wsc then {op} else {}
      ensures forall c | c in universe ::
                c.ntfns == old(c.ntfns)
                  + TurnNtfns(Turn(wsc, op), c, c.spentRequests, ToldIn(turns, c), tx, block, mempool)
    {
      AddOneRequest(wsc, op);
      label echoed:
      if tell {
        var _ := wsc.QueueNotification(RecvTx(tx, block));
      }
      forall c | c in universe
        ensures c.ntfns
          == old(c.ntfns) + TurnNtfns(Turn(wsc, op), c, c.spentRequests, ToldIn(turns, c), tx, block, mempool)
      {
        assert c.ntfns == old@echoed(c.ntfns) + if c == wsc && !ToldIn(turns, c) then [RecvTx(tx, block)] else [];
        Rejoined(old(c.ntfns), EchoFor(op, c.spentRequests, mempool),
               if c == wsc && !ToldIn(turns, c) then [RecvTx(tx, block)] else []);
      }
    }

    /** addSpentRequests for a single outpoint. */
    method AddOneRequest(wsc: WsClient, op: OutPoint)
      requires SpentIndexOk() && wsc in universe
      modifies this`watchedOutPoints, universe`spentRequests, universe`ntfns
      ensures SpentIndexOk()
      ensures forall c | c in universe :: c.spentRequests == old(c.spentRequests) + if c == wsc then {op} else {}
      ensures forall c | c in universe :: c.ntfns == old(c.ntfns) + EchoFor(op, c.spentRequests, mempool)
    {
      AddSpentRequests(wsc, [op]);
      assert (set o | o in [op]) == {op};
      forall c | c in universe
        ensures c.ntfns == old(c.ntfns) + EchoFor(op, c.spentRequests, mempool)
      {
        EchoedOne(old(c.ntfns), op, mempool, MempoolSpends([op]), c.spentRequests, c.ntfns);
      }
    }

    /** One turn, seen from where every client was when the transaction came up. */
    method TakeTurn(wsc: WsClient, op: OutPoint, tx: Tx, block: Option<Block>, tell: bool, ghost turns: seq<Turn>,
                    ghost start: map<WsClient, (set<OutPoint>, seq<Ntfn>)>)
      requires SpentIndexOk() && wsc in universe && (tell <==> !ToldIn(turns, wsc)) && Going(turns, start, tx, block)
      modifies this`watchedOutPoints, universe`spentRequests, universe`ntfns
      ensures SpentIndexOk() && Going(turns + [Turn(wsc, op)], start, tx, block)
    {
      NotifyPayee(wsc, op, tx, block, tell, turns);
      forall c | c in universe
        ensures AfterTurns(turns + [Turn(wsc, op)], c, start[c].0, start[c].1, tx, block, mempool,
                           c.spentRequests, c.ntfns)
      {
        AfterTurn(turns, Turn(wsc, op), c, start[c].0, start[c].1, tx, block, mempool,
                  old(c.spentRequests), old(c.ntfns), c.spentRequests, c.ntfns);
      }
    }

    /** The same for everyone watching one address. */
    method NotifyPayees(op: OutPoint, addr: Address, tx: Tx, block: Option<Block>, notified: set<WsClient>,
                        ghost turns: seq<Turn>, ghost start: map<WsClient, (set<OutPoint>, seq<Ntfn>)>)
      returns (notified': set<WsClient>, ghost turns': seq<Turn>)
      requires SpentIndexOk() && AddrIndexOk() && Going(turns, start, tx, block)
      requires Notified(notified, turns, universe)
      requires UpTo(turns, op.index, universe)
      modifies this`watchedOutPoints, universe`spentRequests, universe`ntfns
      ensures SpentIndexOk() && Going(turns', start, tx, block)
      ensures Notified(notified', turns', universe)
      ensures UpTo(turns', op.index, universe) && MoreTurns(turns, turns', op, AddrWatchers(addr), universe)
    {
      notified', turns' := notified, turns;
      var todo := if addr in watchedAddrs then watchedAddrs[addr] else {};
      ghost var cmap, done := todo, {};
      while todo != {}
        invariant SpentIndexOk() && cmap <= universe && done !! todo && done + todo == cmap
        invariant Going(turns', start, tx, block) && Notified(notified', turns', universe)
        invariant UpTo(turns', op.index, universe) && MoreTurns(turns, turns', op, done, universe)
        decreases todo
      {
        var wsc :| wsc in todo;
        todo := todo - {wsc};
        OneMoreTurn(turns, turns', op, done, wsc, notified', universe);
        TakeTurn(wsc, op, tx, block, wsc !in notified', turns', start);
        notified', turns', done := notified' + {wsc}, turns' + [Turn(wsc, op)], done + {wsc};
      }
    }

    /** One output: everyone with one of its addresses watches it from now on. */
    method NotifyOutput(tx: Tx, i: nat, block: Option<Block>, notified: set<WsClient>,
                        ghost turns: seq<Turn>, ghost start: map<WsClient, (set<OutPoint>, seq<Ntfn>)>)
      returns (notified': set<WsClient>, ghost turns': seq<Turn>)
      requires SpentIndexOk() && AddrIndexOk() && i < |tx.outs| && Going(turns, start, tx, block)
      requires Notified(notified, turns, universe)
      requires UpTo(turns, i, universe) && forall c | c in universe :: OwnTurns(turns, c, c.addrRequests, tx, i)
      modifies this`watchedOutPoints, universe`spentRequests, universe`ntfns
      ensures SpentIndexOk() && Going(turns', start, tx, block)
      ensures Notified(notified', turns', universe)
      ensures UpTo(turns', i, universe) && forall c | c in universe :: OwnTurns(turns', c, c.addrRequests, tx, i + 1)
    {
      notified', turns' := notified, turns;
      var addrs := tx.outs[i].addrs;
      for k := 0 to |addrs|
        invariant SpentIndexOk() && Going(turns', start, tx, block)
        invariant Notified(notified', turns', universe)
        invariant UpTo(turns', i, universe)
        invariant forall c | c in universe :: OwnTurnsSoFar(turns', c, c.addrRequests, tx, i, k)
      {
        label before:
        ghost var turns1 := turns';
        notified', turns' := NotifyPayees(OutPoint(tx.hash, i), addrs[k], tx, block, notified', turns1, start);
        forall c | c in universe
          ensures OwnTurnsSoFar(turns', c, c.addrRequests, tx, i, k + 1)
        {
          assert c in AddrWatchers(addrs[k]) <==> addrs[k] in c.addrRequests;
          OwnTurnsStep(turns1, turns', c, c.addrRequests, tx, i, k, AddrWatchers(addrs[k]), universe);
        }
      }
      assert addrs[..|addrs|] == addrs;
    }

    /** The turns of one transaction: those of every client, and nobody else's. */
    ghost predicate TurnsOf(turns: seq<Turn>, tx: Tx)
      reads universe`addrRequests
    {
      && InOrder(turns) && (forall turn | turn in turns :: turn.wsc in universe)
      && forall c | c in universe :: OwnTurns(turns, c, c.addrRequests, tx, |tx.outs|)
    }

    method NotifyOutputs(tx: Tx, block: Option<Block>, ghost start: map<WsClient, (set<OutPoint>, seq<Ntfn>)>)
      returns (ghost turns: seq<Turn>)
      requires SpentIndexOk() && AddrIndexOk() && Going([], start, tx, block)
      modifies this`watchedOutPoints, universe`spentRequests, universe`ntfns
      ensures SpentIndexOk() && Going(turns, start, tx, block) && TurnsOf(turns, tx)
    {
      var notified: set<WsClient> := {};
      turns := [];
      for i := 0 to |tx.outs|
        invariant SpentIndexOk() && Going(turns, start, tx, block)
        invariant Notified(notified, turns, universe)
        invariant UpTo(turns, i, universe) && forall c | c in universe :: OwnTurns(turns, c, c.addrRequests, tx, i)
      {
        notified, turns := NotifyOutput(tx, i, block, notified, turns, start);
      }
    }

    /** notifyForTxOuts: one recvtx per interested client, and the echoes of the mempool
        spends of what it watches. */
    method NotifyForTxOuts(tx: Tx, block: Option<Block>) returns (ghost turns: seq<Turn>)
      requires SpentIndexOk() && AddrIndexOk()
      modifies this`watchedOutPoints, universe`spentRequests, universe`ntfns
      ensures SpentIndexOk() && TurnsOf(turns, tx)
      ensures forall c | c in universe :: c.spentRequests == old(c.spentRequests) + PaidOuts(c.addrRequests, tx)
      ensures forall c | c in universe ::
                c.ntfns == old(c.ntfns) + TurnsNtfns(turns, c, old(c.spentRequests), tx, block, mempool)
    {
      if watchedAddrs == map[] {
        turns := [];
        NobodyIsPaid(tx);
        return;
      }
      ghost var start := map c | c in universe :: (c.spentRequests, c.ntfns);
      turns := NotifyOutputs(tx, block, start);
      forall c | c in universe
        ensures c.spentRequests == old(c.spentRequests) + PaidOuts(c.addrRequests, tx)
      {
        TurnsWatch(turns, c, c.addrRequests, old(c.spentRequests), tx);
      }
    }

    lemma NobodyIsPaid(tx: Tx)
      requires AddrIndexOk() && watchedAddrs == map[]
      ensures TurnsOf([], tx) && forall c | c in universe :: PaidOuts(c.addrRequests, tx) == {}
    {
      forall c | c in universe
        ensures c.addrRequests == {}
      {
        forall a
          ensures a !in c.addrRequests
        {
          assert c !in AddrWatchers(a);
        }
      }
      forall c | c in universe
        ensures OwnTurns([], c, c.addrRequests, tx, |tx.outs|)
      {
        forall i | 0 <= i < |tx.outs|
          ensures Mine(c.addrRequests, tx.outs[i].addrs) == 0
        {
          NothingMine(tx.outs[i].addrs);
        }
      }
    }

    /** notifyForTx. */
    method NotifyForTx(tx: Tx, block: Option<Block>) returns (ghost turns: seq<Turn>)
      requires SpentIndexOk() && AddrIndexOk()
      modifies this`watchedOutPoints, universe`spentRequests, universe`ntfns
      ensures SpentIndexOk() && TurnsOf(turns, tx)
      ensures forall c | c in universe ::
                c.spentRequests
                  == (old(c.spentRequests) - if block.Some? then Prevs(tx) else {}) + PaidOuts(c.addrRequests, tx)
      ensures forall c | c in universe ::
                c.ntfns == old(c.ntfns) + TxNtfns(turns, c, old(c.spentRequests), tx, block, mempool)
      ensures forall c, op | c in universe ::
                op in c.spentRequests <==>
                  || OutputPays(c.addrRequests, tx, op)
                  || (op in old(c.spentRequests) && (block.Some? ==> !exists txIn :: txIn in tx.ins && txIn.prev == op))
      ensures forall c, txIn | c in universe && txIn in tx.ins && txIn.prev in old(c.spentRequests) ::
                [RedeemingTx(tx, block)] <= c.ntfns[|old(c.ntfns)|..]
    {
      NotifyForTxIns(tx, block);
      turns := NotifyForTxOuts(tx, block);
      PrevsAreSpent(tx);
      forall c | c in universe
        ensures forall op :: op in PaidOuts(c.addrRequests, tx) <==> OutputPays(c.addrRequests, tx, op)
      {
        PaidOutsArePaying(c.addrRequests, tx);
      }
      forall c | c in universe
        ensures c.ntfns == old(c.ntfns) + TxNtfns(turns, c, old(c.spentRequests), tx, block, mempool)
      {
        Rejoined(old(c.ntfns), if old(SpendsOneOf(c.spentRequests, tx)) then [RedeemingTx(tx, block)] else [],
               TurnsNtfns(turns, c, old(c.spentRequests) - if block.Some? then Prevs(tx) else {}, tx, block, mempool));
      }
    }

    /** The transactions of a connected block.  Every client ends up with the in-order
        fold of "remove what is spent, add what pays me" over its requests, and with
        the matching notifications in block order. */
    method NotifyTxsOfBlock(block: Block) returns (ghost turns: seq<seq<Turn>>)
      requires SpentIndexOk() && AddrIndexOk()
      modifies this`watchedOutPoints, universe`spentRequests, universe`ntfns
      ensures SpentIndexOk() && BlockTurns(turns, block.txs)
      ensures forall c | c in universe ::
                Followed(turns, c, c.addrRequests, old(c.spentRequests), old(c.ntfns), block, mempool,
                         c.spentRequests, c.ntfns)
    {
      turns := [];
      ghost var start := map c | c in universe :: (c.spentRequests, c.ntfns);
      for t := 0 to |block.txs|
        invariant SpentIndexOk() && |turns| == t && BlockTurns(turns, block.txs[..t]) && Following(turns, start, block)
      {
        ghost var more := FollowTx(block, t, turns, start);
        BlockTurnsMore(turns, more, block.txs, t);
        turns := turns + [more];
      }
      assert block.txs[..|block.txs|] == block.txs;
    }

    lemma BlockTurnsMore(turns: seq<seq<Turn>>, more: seq<Turn>, txs: seq<Tx>, t: nat)
      requires t < |txs| && BlockTurns(turns, txs[..t]) && TurnsOf(more, txs[t])
      ensures BlockTurns(turns + [more], txs[..t + 1])
    {
    }

    /** Every client of the run, seen from where it was when the block came up. */
    ghost predicate Following(turns: seq<seq<Turn>>, start: map<WsClient, (set<OutPoint>, seq<Ntfn>)>, block: Block)
      requires |turns| <= |block.txs|
      reads this`mempool, universe`spentRequests, universe`ntfns, universe`addrRequests
    {
      forall c | c in universe ::
        c in start && Followed(turns, c, c.addrRequests, start[c].0, start[c].1, block, mempool,
                               c.spentRequests, c.ntfns)
    }

    method FollowTx(block: Block, t: nat, ghost turns: seq<seq<Turn>>,
                    ghost start: map<WsClient, (set<OutPoint>, seq<Ntfn>)>)
      returns (ghost more: seq<Turn>)
      requires SpentIndexOk() && AddrIndexOk() && t == |turns| < |block.txs| && Following(turns, start, block)
      modifies this`watchedOutPoints, universe`spentRequests, universe`ntfns
      ensures SpentIndexOk() && TurnsOf(more, block.txs[t]) && Following(turns + [more], start, block)
    {
      more := NotifyForTx(block.txs[t], Some(block));
      forall c | c in universe
        ensures Followed(turns + [more], c, c.addrRequests, start[c].0, start[c].1, block, mempool,
                         c.spentRequests, c.ntfns)
      {
        FollowedStep(turns, more, c, c.addrRequests, start[c].0, start[c].1, block, mempool,
                     old(c.spentRequests), old(c.ntfns), c.spentRequests, c.ntfns);
      }
    }

    ghost predicate BlockTurns(turns: seq<seq<Turn>>, txs: seq<Tx>)
      reads universe`addrRequests
    {
      |turns| == |txs| && forall t | 0 <= t < |txs| :: TurnsOf(turns[t], txs[t])
    }

    // ----- messages

    /** The same notification for every one of `targets`. */
    method QueueAll(targets: set<WsClient>, ntfn: Ntfn)
      modifies targets`ntfns
      ensures forall c | c in targets :: c.ntfns == old(c.ntfns) + [ntfn]
    {
      var todo := targets;
      while todo != {}
        invariant todo <= targets
        invariant forall c | c in targets :: c.ntfns == old(c.ntfns) + if c in todo then [] else [ntfn]
        decreases todo
      {
        var wsc :| wsc in todo;
        todo := todo - {wsc};
        var _ := wsc.QueueNotification(ntfn);
      }
    }

    /** The transactions of a block, unless nobody watches anything. */
    method NotifySubscriptions(block: Block) returns (ghost turns: seq<seq<Turn>>)
      requires SpentIndexOk() && AddrIndexOk()
      modifies this`watchedOutPoints, universe`spentRequests, universe`ntfns
      ensures SpentIndexOk() && BlockTurns(turns, block.txs)
      ensures forall c | c in universe ::
                Followed(turns, c, c.addrRequests, old(c.spentRequests), old(c.ntfns), block, mempool,
                         c.spentRequests, c.ntfns)
    {
      if watchedOutPoints != map[] || watchedAddrs != map[] {
        turns := NotifyTxsOfBlock(block);
      } else {
        turns := seq(|block.txs|, _ => []);
        NobodyWatches(block, turns);
      }
    }

    /** The block and filtered block notifications. */
    method NotifyBlockListeners(block: Block)
      requires SeparateFilters(universe) && blockNotifications <= universe
      modifies universe`ntfns, Filters(universe)`unspent
      ensures forall c | c in universe ::
                c.ntfns == old(c.ntfns) + if c in blockNotifications
                  then [BlockConnected(block), FilteredBlockConnected(block, old(Told(c.filterData, block)))] else []
      ensures forall c | c in Filtered(blockNotifications) ::
                c.filterData.unspent == Learned(c.filterData.addrs, old(c.filterData.unspent), block.txs)
      ensures forall c | c in Filtered(universe) && c !in blockNotifications ::
                c.filterData.unspent == old(c.filterData.unspent)
    {
      assert Filters(blockNotifications) <= Filters(universe);
      if blockNotifications != {} {
        QueueAll(blockNotifications, BlockConnected(block));
        NotifyFilteredBlockConnected(blockNotifications, block);
      }
    }

    /** A connected block: first the subscriptions, then the block and filtered block
        notifications for those who registered for blocks. */
    method HandleBlockConnected(block: Block) returns (ghost turns: seq<seq<Turn>>)
      requires Valid()
      modifies this`watchedOutPoints, universe`spentRequests, universe`ntfns, Filters(universe)`unspent
      ensures Valid() && BlockTurns(turns, block.txs)
      ensures forall c | c in universe ::
                c.spentRequests == WatchAfter(c.addrRequests, old(c.spentRequests), block.txs)
      ensures forall c | c in universe ::
                c.ntfns == old(c.ntfns)
                  + BlockNtfns(turns, c, c.addrRequests, old(c.spentRequests), block.txs, block, mempool)
                  + (if c in blockNotifications
                     then [BlockConnected(block), FilteredBlockConnected(block, old(Told(c.filterData, block)))]
                     else [])
      ensures forall c | c in Filtered(blockNotifications) ::
                c.filterData.unspent == Learned(c.filterData.addrs, old(c.filterData.unspent), block.txs)
      ensures forall c | c in Filtered(universe) && c !in blockNotifications ::
                c.filterData.unspent == old(c.filterData.unspent)
    {
      turns := NotifySubscriptions(block);
      assert block.txs[..|block.txs|] == block.txs;
      NotifyBlockListeners(block);
    }

    /** Apart from echoes, what a client gets is what its own requests and addresses ask
        for, whatever the order of turns. */
    lemma ConnectedNtfnsAreOwn(turns: seq<seq<Turn>>, block: Block, c: WsClient, watched: set<OutPoint>)
      requires BlockTurns(turns, block.txs) && c in universe
      ensures DropEchoes(BlockNtfns(turns, c, c.addrRequests, watched, block.txs, block, mempool))
           == ConnectedNtfns(c.addrRequests, watched, block.txs, block)
    {
      BlockDrops(turns, c, c.addrRequests, watched, block.txs, block, mempool);
    }

    lemma NobodyWatches(block: Block, turns: seq<seq<Turn>>)
      requires SpentIndexOk() && AddrIndexOk() && watchedOutPoints == map[] && watchedAddrs == map[]
      requires |turns| == |block.txs| && forall t | 0 <= t < |turns| :: turns[t] == []
      ensures BlockTurns(turns, block.txs)
      ensures forall c | c in universe ::
                Followed(turns, c, c.addrRequests, c.spentRequests, c.ntfns, block, mempool,
                         c.spentRequests, c.ntfns)
    {
      forall t | 0 <= t < |block.txs|
        ensures TurnsOf(turns[t], block.txs[t])
      {
        NobodyIsPaid(block.txs[t]);
      }
      forall c | c in universe
        ensures Followed(turns, c, c.addrRequests, c.spentRequests, c.ntfns, block, mempool,
                         c.spentRequests, c.ntfns)
      {
        forall op
          ensures op !in c.spentRequests
        {
          assert c !in Watchers(op);
        }
        forall a
          ensures a !in c.addrRequests
        {
          assert c !in AddrWatchers(a);
        }
        assert c.addrRequests == {} && c.spentRequests == {};
        NothingWatched(turns, c, block.txs, block, mempool);
        assert block.txs[..|block.txs|] == block.txs;
      }
    }

    method HandleBlockDisconnected(block: Block)
      requires Valid()
      modifies universe`ntfns
      ensures Valid()
      ensures forall c | c in universe ::
                c.ntfns == old(c.ntfns)
                  + if c in blockNotifications then [BlockDisconnected(block), FilteredBlockDisconnected(block)] else []
    {
      if blockNotifications != {} {
        QueueAll(blockNotifications, BlockDisconnected(block));
        QueueAll(blockNotifications, FilteredBlockDisconnected(block));
      }
    }

    /** A transaction accepted by the mempool.  Everyone who watches one of its inputs is
        told; outputs that pay a watched address are watched from now on; nothing watched
        is given up. */
    method HandleMempoolTx(tx: Tx, isNew: bool) returns (ghost turns: seq<Turn>)
      requires Valid()
      modifies this`watchedOutPoints, universe`spentRequests, universe`ntfns, Filters(universe)`unspent
      ensures Valid() && TurnsOf(turns, tx)
      ensures forall c | c in universe :: c.spentRequests == old(c.spentRequests) + PaidOuts(c.addrRequests, tx)
      ensures forall c | c in universe ::
                c.ntfns == old(c.ntfns)
                  + (if isNew && c in txNotifications then [TxAccepted(tx)] else [])
                  + TxNtfns(turns, c, old(c.spentRequests), tx, None, mempool)
                  + (if && c in clients && c.filterData != null
                        && old(BroadcastHit(c.filterData.addrs, c.filterData.unspent, tx))
                     then [RelevantTxAccepted(tx)] else [])
      ensures forall c | c in Filtered(clients) ::
                c.filterData.unspent == old(c.filterData.unspent) + PaidOuts(c.filterData.addrs, tx)
      ensures forall c | c in Filtered(universe) && c !in clients :: c.filterData.unspent == old(c.filterData.unspent)
    {
      AnnounceTx(tx, isNew);
      turns := NotifyMempoolSpends(tx);
    }

    method NotifyMempoolSpends(tx: Tx) returns (ghost turns: seq<Turn>)
      requires Valid()
      modifies this`watchedOutPoints, universe`spentRequests, universe`ntfns, Filters(universe)`unspent
      ensures Valid() && TurnsOf(turns, tx)
      ensures forall c | c in universe :: c.spentRequests == old(c.spentRequests) + PaidOuts(c.addrRequests, tx)
      ensures forall c | c in universe ::
                c.ntfns == old(c.ntfns)
                  + TxNtfns(turns, c, old(c.spentRequests), tx, None, mempool)
                  + (if && c in clients && c.filterData != null
                        && old(BroadcastHit(c.filterData.addrs, c.filterData.unspent, tx))
                     then [RelevantTxAccepted(tx)] else [])
      ensures forall c | c in Filtered(clients) ::
                c.filterData.unspent == old(c.filterData.unspent) + PaidOuts(c.filterData.addrs, tx)
      ensures forall c | c in Filtered(universe) && c !in clients :: c.filterData.unspent == old(c.filterData.unspent)
    {
      turns := NotifyForTx(tx, None);
      NotifyRelevantTxAccepted(tx);
    }

    method AnnounceTx(tx: Tx, isNew: bool)
      requires txNotifications <= universe
      modifies universe`ntfns
      ensures forall c | c in universe ::
                c.ntfns == old(c.ntfns) + if isNew && c in txNotifications then [TxAccepted(tx)] else []
    {
      if isNew && txNotifications != {} {
        QueueAll(txNotifications, TxAccepted(tx));
      }
    }

    /** notifyRelevantTxAccepted. */
    method NotifyRelevantTxAccepted(tx: Tx)
      requires SeparateFilters(universe) && clients <= universe
      modifies universe`ntfns, Filters(universe)`unspent
      ensures forall c | c in universe ::
                c.ntfns == old(c.ntfns)
                  + if && c in clients && c.filterData != null
                       && old(BroadcastHit(c.filterData.addrs, c.filterData.unspent, tx))
                    then [RelevantTxAccepted(tx)] else []
      ensures forall c | c in Filtered(clients) ::
                c.filterData.unspent == old(c.filterData.unspent) + PaidOuts(c.filterData.addrs, tx)
      ensures forall c | c in Filtered(universe) && c !in clients :: c.filterData.unspent == old(c.filterData.unspent)
    {
      assert Filters(clients) <= Filters(universe);
      var relevant := SubscribedClients(tx, clients);
      QueueAll(relevant, RelevantTxAccepted(tx));
    }

    /** The client is in none of the handler's indexes. */
    ghost predicate Absent(wsc: WsClient)
      reads this, wsc
    {
      && wsc !in clients && wsc !in blockNotifications && wsc !in txNotifications
      && wsc.spentRequests == {} && wsc.addrRequests == {}
      && (forall op | op in watchedOutPoints :: wsc !in watchedOutPoints[op])
      && (forall addr | addr in watchedAddrs :: wsc !in watchedAddrs[addr])
    }

    /** An unregistered client leaves every index; nobody else's requests change. */
    method HandleUnregisterClient(wsc: WsClient)
      requires Valid() && wsc in universe
      modifies this, wsc`spentRequests, wsc`addrRequests
      ensures Valid() && Absent(wsc)
      ensures clients == old(clients) - {wsc} && blockNotifications == old(blockNotifications) - {wsc}
      ensures txNotifications == old(txNotifications) - {wsc} && mempool == old(mempool)
    {
      blockNotifications := blockNotifications - {wsc};
      txNotifications := txNotifications - {wsc};
      while wsc.spentRequests != {}
        invariant Valid()
        invariant blockNotifications == old(blockNotifications) - {wsc}
        invariant txNotifications == old(txNotifications) - {wsc}
        invariant clients == old(clients) && mempool == old(mempool)
        decreases wsc.spentRequests
      {
        var op :| op in wsc.spentRequests;
        RemoveSpentRequest(wsc, op);
      }
      while wsc.addrRequests != {}
        invariant Valid() && wsc.spentRequests == {}
        invariant blockNotifications == old(blockNotifications) - {wsc}
        invariant txNotifications == old(txNotifications) - {wsc}
        invariant clients == old(clients) && mempool == old(mempool)
        decreases wsc.addrRequests
      {
        var addr :| addr in wsc.addrRequests;
        RemoveAddrRequest(wsc, addr);
      }
      clients := clients - {wsc};
      forall op | op in watchedOutPoints
        ensures wsc !in watchedOutPoints[op]
      {
        assert op in wsc.spentRequests <==> wsc in Watchers(op);
      }
      forall addr | addr in watchedAddrs
        ensures wsc !in watchedAddrs[addr]
      {
        assert addr in wsc.addrRequests <==> wsc in AddrWatchers(addr);
      }
    }

    ghost predicate Names(msg: Message) {
      match msg
      case BlockConnectedMsg(_) => true
      case BlockDisconnectedMsg(_) => true
      case TxAcceptedByMempool(_, _) => true
      case MempoolChanges(_) => true
      case _ => msg.wsc in universe
    }

    /** The client's own goroutine loads its filter between two messages. */
    method LoadFilter(wsc: WsClient, addrs: seq<Address>, ops: seq<OutPoint>, reload: bool)
      requires Valid() && wsc in universe
      modifies wsc`filterData, if wsc.filterData == null then {} else {wsc.filterData}
      ensures Valid() && wsc.filterData != null && (wsc.filterData == old(wsc.filterData) || fresh(wsc.filterData))
      ensures wsc.filterData.addrs
           == (if reload || old(wsc.filterData) == null then {} else old(wsc.filterData.addrs)) + (set a | a in addrs)
      ensures wsc.filterData.unspent
           == (if reload || old(wsc.filterData) == null then {} else old(wsc.filterData.unspent)) + (set op | op in ops)
      ensures forall c | c in universe && c != wsc && c.filterData != null ::
                c.filterData.addrs == old(c.filterData.addrs) && c.filterData.unspent == old(c.filterData.unspent)
    {
      wsc.LoadTxFilter((set a | a in addrs), (set op | op in ops), reload);
    }

    /** What a message brings a client, echoes aside. */
    ghost function NewsFor(msg: Message, c: WsClient): seq<Ntfn>
      reads this`blockNotifications, this`txNotifications, this`clients, c, c.filterData
    {
      match msg
      case BlockConnectedMsg(block) =>
        BlockNews(block, c in blockNotifications, c.addrRequests, c.spentRequests, Told(c.filterData, block))
      case BlockDisconnectedMsg(block) =>
        if c in blockNotifications then [BlockDisconnected(block), FilteredBlockDisconnected(block)] else []
      case TxAcceptedByMempool(tx, isNew) =>
        TxNews(tx, isNew && c in txNotifications, c.addrRequests,
               && c in clients && c.filterData != null
               && BroadcastHit(c.filterData.addrs, c.filterData.unspent, tx))
      case _ => []
    }

    /** The list of those whose filters follow the message. */
    ghost function Followers(msg: Message): set<WsClient>
      reads this`blockNotifications, this`clients
    {
      if msg.BlockConnectedMsg? then blockNotifications else if msg.TxAcceptedByMempool? then clients else {}
    }

    /** Blocks and transactions. */
    method HandleNews(msg: Message)
      requires Valid() && (msg.BlockConnectedMsg? || msg.BlockDisconnectedMsg? || msg.TxAcceptedByMempool?)
      modifies this`watchedOutPoints, universe`spentRequests, universe`ntfns, Filters(universe)`unspent
      ensures Valid() && forall c | c in universe :: old(c.ntfns) <= c.ntfns
      ensures forall c | c in universe ::
                && c.spentRequests == SpentAfter(msg, c, old(c.addrRequests), old(c.spentRequests))
                && c.addrRequests == AddrsAfter(msg, c, old(c.addrRequests))
      ensures forall c | c in Filtered(universe) ::
                c.filterData.unspent
                == FilterAfter(msg, c in Followers(msg), c.filterData.addrs, old(c.filterData.unspent))
      ensures forall c | c in universe :: DropEchoes(c.ntfns) == DropEchoes(old(c.ntfns)) + old(NewsFor(msg, c))
      ensures forall c | c in universe ::
                HearsOn(msg, old(mempool), old(c.spentRequests), old(c.ntfns), c.spentRequests, c.ntfns)
      ensures forall c | c in universe :: c.Filter() == FilterNow(msg, c, c in old(Followers(msg)), old(c.Filter()))
    {
      match msg
      case BlockConnectedMsg(block) => HandleConnected(msg, block);
      case BlockDisconnectedMsg(block) => HandleDisconnected(msg, block);
      case TxAcceptedByMempool(tx, isNew) => HandleAccepted(msg, tx, isNew);
    }

    /** A connected block, without the order in which clients were served. */
    method HandleConnected(msg: Message, block: Block)
      requires Valid() && msg == BlockConnectedMsg(block)
      modifies this`watchedOutPoints, universe`spentRequests, universe`ntfns, Filters(universe)`unspent
      ensures Valid() && forall c | c in universe :: old(c.ntfns) <= c.ntfns
      ensures forall c | c in universe ::
                c.spentRequests == WatchAfter(c.addrRequests, old(c.spentRequests), block.txs)
      ensures forall c | c in Filtered(universe) ::
                c.filterData.unspent == if c in blockNotifications
                  then Learned(c.filterData.addrs, old(c.filterData.unspent), block.txs) else old(c.filterData.unspent)
      ensures forall c | c in universe :: DropEchoes(c.ntfns) == DropEchoes(old(c.ntfns)) + old(NewsFor(msg, c))
      ensures forall c | c in universe :: c.Filter() == FilterNow(msg, c, c in Followers(msg), old(c.Filter()))
    {
      ghost var turns := HandleBlockConnected(block);
      forall c | c in universe
        ensures DropEchoes(c.ntfns) == DropEchoes(old(c.ntfns)) + old(NewsFor(msg, c))
      {
        BlockNewsIs(turns, c, c.addrRequests, old(c.spentRequests), block, c in blockNotifications,
                    old(Told(c.filterData, block)), mempool, old(c.ntfns), c.ntfns);
      }
    }

    method HandleDisconnected(msg: Message, block: Block)
      requires Valid() && msg == BlockDisconnectedMsg(block)
      modifies universe`ntfns
      ensures Valid() && forall c | c in universe :: old(c.ntfns) <= c.ntfns
      ensures forall c | c in universe :: DropEchoes(c.ntfns) == DropEchoes(old(c.ntfns)) + old(NewsFor(msg, c))
      ensures forall c | c in universe :: c.Filter() == FilterNow(msg, c, c in Followers(msg), old(c.Filter()))
    {
      HandleBlockDisconnected(block);
      forall c | c in universe
        ensures DropEchoes(c.ntfns) == DropEchoes(old(c.ntfns)) + old(NewsFor(msg, c))
      {
        DropEchoesAppend(old(c.ntfns), old(NewsFor(msg, c)));
        NoEchoesToDrop(old(NewsFor(msg, c)));
      }
    }

    /** The same for a mempool transaction. */
    method HandleAccepted(msg: Message, tx: Tx, isNew: bool)
      requires Valid() && msg == TxAcceptedByMempool(tx, isNew)
      modifies this`watchedOutPoints, universe`spentRequests, universe`ntfns, Filters(universe)`unspent
      ensures Valid() && forall c | c in universe :: old(c.ntfns) <= c.ntfns
      ensures forall c | c in universe :: c.spentRequests == old(c.spentRequests) + PaidOuts(c.addrRequests, tx)
      ensures forall c | c in Filtered(universe) ::
                c.filterData.unspent
                == old(c.filterData.unspent) + if c in clients then PaidOuts(c.filterData.addrs, tx) else {}
      ensures forall c | c in universe :: DropEchoes(c.ntfns) == DropEchoes(old(c.ntfns)) + old(NewsFor(msg, c))
      ensures forall c | c in universe :: c.Filter() == FilterNow(msg, c, c in Followers(msg), old(c.Filter()))
      ensures forall c | c in universe && old(SpendsOneOf(c.spentRequests, tx)) ::
                RedeemingTx(tx, None) in c.ntfns[|old(c.ntfns)|..]
    {
      HearAccepted(msg, tx, isNew);
      forall c | c in Filtered(universe)
        ensures c.filterData.unspent
             == FilterAfter(msg, c in clients, c.filterData.addrs, old(c.filterData.unspent))
      {
        assert old(c.filterData.unspent) + {} == old(c.filterData.unspent);
      }
    }

    method HearAccepted(msg: Message, tx: Tx, isNew: bool)
      requires Valid() && msg == TxAcceptedByMempool(tx, isNew)
      modifies this`watchedOutPoints, universe`spentRequests, universe`ntfns, Filters(universe)`unspent
      ensures Valid() && forall c | c in universe :: old(c.ntfns) <= c.ntfns
      ensures forall c | c in universe :: c.spentRequests == old(c.spentRequests) + PaidOuts(c.addrRequests, tx)
      ensures forall c | c in Filtered(universe) ::
                c.filterData.unspent
                == old(c.filterData.unspent) + if c in clients then PaidOuts(c.filterData.addrs, tx) else {}
      ensures forall c | c in universe :: DropEchoes(c.ntfns) == DropEchoes(old(c.ntfns)) + old(NewsFor(msg, c))
      ensures forall c | c in universe && old(SpendsOneOf(c.spentRequests, tx)) ::
                RedeemingTx(tx, None) in c.ntfns[|old(c.ntfns)|..]
    {
      ghost var turns := HandleMempoolTx(tx, isNew);
      forall c | c in universe
        ensures old(c.ntfns) <= c.ntfns && DropEchoes(c.ntfns) == DropEchoes(old(c.ntfns)) + old(NewsFor(msg, c))
        ensures old(SpendsOneOf(c.spentRequests, tx)) ==> RedeemingTx(tx, None) in c.ntfns[|old(c.ntfns)|..]
      {
        TxNewsIs(turns, c, c.addrRequests, old(c.spentRequests), tx, isNew && c in txNotifications,
                 old(&& c in clients && c.filterData != null
                     && BroadcastHit(c.filterData.addrs, c.filterData.unspent, tx)),
                 mempool, old(c.ntfns), c.ntfns);
      }
    }

    /** A registration, a filter or a change of the mempool. */
    method HandleOther(msg: Message)
      requires Valid() && Names(msg)
      requires !msg.BlockConnectedMsg? && !msg.BlockDisconnectedMsg? && !msg.TxAcceptedByMempool?
      requires !msg.RegisterSpent? && !msg.UnregisterSpent? && !msg.RegisterAddr? && !msg.UnregisterAddr?
      modifies this, universe`spentRequests, universe`addrRequests, universe`filterData, Filters(universe)
      ensures Valid()
      ensures forall c | c in universe && c.filterData != null ::
                c.filterData == old(c.filterData) || fresh(c.filterData)
      ensures clients == Listed(old(clients), msg, msg.RegisterClient?, msg.UnregisterClient?)
      ensures blockNotifications
           == Listed(old(blockNotifications), msg, msg.RegisterBlocks?, msg.UnregisterBlocks? || msg.UnregisterClient?)
      ensures txNotifications
           == Listed(old(txNotifications), msg, msg.RegisterNewMempoolTxs?,
                     msg.UnregisterNewMempoolTxs? || msg.UnregisterClient?)
      ensures mempool == if msg.MempoolChanges? then msg.mempool else old(mempool)
      ensures msg.UnregisterClient? ==> Absent(msg.wsc)
      ensures forall c | c in universe ::
                && c.spentRequests == SpentAfter(msg, c, old(c.addrRequests), old(c.spentRequests))
                && c.addrRequests == AddrsAfter(msg, c, old(c.addrRequests))
      ensures forall c | c in universe ::
                c.Filter() == FilterNow(msg, c, c in old(Followers(msg)), old(c.Filter()))
      ensures forall c | c in universe ::
                HearsOn(msg, old(mempool), old(c.spentRequests), old(c.ntfns), c.spentRequests, c.ntfns)
      ensures forall c | c in universe :: DropEchoes(c.ntfns) == DropEchoes(old(c.ntfns)) + old(NewsFor(msg, c))
    {
      if msg.MempoolChanges? {
        mempool := msg.mempool;
      } else if msg.UnregisterClient? {
        HandleUnregisterClient(msg.wsc);
      } else if msg.LoadTxFilter? {
        LoadFilter(msg.wsc, msg.addrs, msg.ops, msg.reload);
      } else {
        HandleRegistration(msg);
      }
    }

    ghost function StateOf(c: WsClient): ClientState
      reads c, c.filterData
    {
      ClientState(c.spentRequests, c.addrRequests, c.Filter(), c.ntfns)
    }

    ghost function Snapshot(): State
      reads this, universe, Filters(universe)
    {
      State(clients, blockNotifications, txNotifications, mempool, map c | c in universe :: StateOf(c))
    }

    /** One message.  The two sides of both indexes agree after every one, every client's
        requests and filter are what the message makes of them, and every client hears what
        concerns it; only echoes of mempool spends may come between. */
    method Handle(msg: Message)
      requires Valid() && Names(msg)
      modifies this, universe`ntfns, universe`spentRequests, universe`addrRequests, universe`filterData,
               Filters(universe)
      ensures Valid()
      ensures forall c | c in universe && c.filterData != null ::
                c.filterData == old(c.filterData) || fresh(c.filterData)
      ensures clients == Listed(old(clients), msg, msg.RegisterClient?, msg.UnregisterClient?)
      ensures blockNotifications
           == Listed(old(blockNotifications), msg, msg.RegisterBlocks?, msg.UnregisterBlocks? || msg.UnregisterClient?)
      ensures txNotifications
           == Listed(old(txNotifications), msg, msg.RegisterNewMempoolTxs?,
                     msg.UnregisterNewMempoolTxs? || msg.UnregisterClient?)
      ensures mempool == if msg.MempoolChanges? then msg.mempool else old(mempool)
      ensures msg.UnregisterClient? ==> Absent(msg.wsc)
      ensures forall c | c in universe ::
                && c.spentRequests == SpentAfter(msg, c, old(c.addrRequests), old(c.spentRequests))
                && c.addrRequests == AddrsAfter(msg, c, old(c.addrRequests))
      ensures forall c | c in universe :: DropEchoes(c.ntfns) == DropEchoes(old(c.ntfns)) + old(NewsFor(msg, c))
      ensures forall c | c in universe ::
                HearsOn(msg, old(mempool), old(c.spentRequests), old(c.ntfns), c.spentRequests, c.ntfns)
      ensures forall c | c in universe ::
                c.Filter() == FilterNow(msg, c, c in old(Followers(msg)), old(c.Filter()))
    {
      if msg.BlockConnectedMsg? || msg.BlockDisconnectedMsg? || msg.TxAcceptedByMempool? {
        HandleNews(msg);
      } else if msg.RegisterSpent? || msg.UnregisterSpent? || msg.RegisterAddr? || msg.UnregisterAddr? {
        HandleRequest(msg);
      } else {
        HandleOther(msg);
      }
    }

    /** A client's requests for outpoints or addresses. */
    method HandleRequest(msg: Message)
      requires Valid() && Names(msg)
      requires msg.RegisterSpent? || msg.UnregisterSpent? || msg.RegisterAddr? || msg.UnregisterAddr?
      modifies this`watchedOutPoints, this`watchedAddrs, universe`ntfns, universe`spentRequests, universe`addrRequests
      ensures Valid()
      ensures forall c | c in universe ::
                && c.spentRequests == SpentAfter(msg, c, old(c.addrRequests), old(c.spentRequests))
                && c.addrRequests == AddrsAfter(msg, c, old(c.addrRequests))
      ensures forall c | c in universe :: DropEchoes(c.ntfns) == DropEchoes(old(c.ntfns)) + old(NewsFor(msg, c))
      ensures forall c | c in universe ::
                c.Filter() == FilterNow(msg, c, c in old(Followers(msg)), old(c.Filter()))
      ensures msg.RegisterSpent? ==>
                && msg.wsc.spentRequests == old(msg.wsc.spentRequests) + (set op | op in msg.ops)
                && forall c | c in universe ::
                     Echoed(old(c.ntfns), MempoolSpends(msg.ops), c.spentRequests, c.ntfns)
      ensures forall c | c in universe ::
                HearsOn(msg, old(mempool), old(c.spentRequests), old(c.ntfns), c.spentRequests, c.ntfns)
      ensures msg.UnregisterSpent? ==> msg.wsc.spentRequests == old(msg.wsc.spentRequests) - {msg.op}
      ensures msg.RegisterAddr? ==> msg.wsc.addrRequests == old(msg.wsc.addrRequests) + (set a | a in msg.addrs)
      ensures msg.UnregisterAddr? ==> msg.wsc.addrRequests == old(msg.wsc.addrRequests) - {msg.addr}
    {
      EnterRequest(msg);
      forall c | c in universe
        ensures c.Filter() == old(c.Filter()) == FilterNow(msg, c, false, old(c.Filter()))
      {
      }
    }

    method EnterRequest(msg: Message)
      requires Valid() && Names(msg)
      requires msg.RegisterSpent? || msg.UnregisterSpent? || msg.RegisterAddr? || msg.UnregisterAddr?
      modifies this`watchedOutPoints, this`watchedAddrs, universe`ntfns, universe`spentRequests, universe`addrRequests
      ensures Valid()
      ensures forall c | c in universe ::
                && c.spentRequests == SpentAfter(msg, c, old(c.addrRequests), old(c.spentRequests))
                && c.addrRequests == AddrsAfter(msg, c, old(c.addrRequests))
      ensures forall c | c in universe :: DropEchoes(c.ntfns) == DropEchoes(old(c.ntfns))
      ensures msg.RegisterSpent? ==>
                && msg.wsc.spentRequests == old(msg.wsc.spentRequests) + (set op | op in msg.ops)
                && forall c | c in universe ::
                     Echoed(old(c.ntfns), MempoolSpends(msg.ops), c.spentRequests, c.ntfns)
      ensures forall c | c in universe ::
                HearsOn(msg, old(mempool), old(c.spentRequests), old(c.ntfns), c.spentRequests, c.ntfns)
      ensures msg.UnregisterSpent? ==> msg.wsc.spentRequests == old(msg.wsc.spentRequests) - {msg.op}
      ensures msg.RegisterAddr? ==> msg.wsc.addrRequests == old(msg.wsc.addrRequests) + (set a | a in msg.addrs)
      ensures msg.UnregisterAddr? ==> msg.wsc.addrRequests == old(msg.wsc.addrRequests) - {msg.addr}
    {
      match msg
      case RegisterSpent(wsc, ops) =>
        AddSpentRequests(wsc, ops);
        forall c | c in universe
          ensures DropEchoes(c.ntfns) == DropEchoes(old(c.ntfns))
        {
          OnlyEchoes(old(c.ntfns), MempoolSpends(ops), c.spentRequests, c.ntfns);
        }
      case UnregisterSpent(wsc, op) => RemoveSpentRequest(wsc, op);
      case RegisterAddr(wsc, addrs) => AddAddrRequests(wsc, addrs);
      case UnregisterAddr(wsc, addr) => RemoveAddrRequest(wsc, addr);
    }

    /** A client joins or leaves one of the handler's three lists. */
    method HandleRegistration(msg: Message)
      requires Valid() && Names(msg)
      modifies this`clients, this`blockNotifications, this`txNotifications
      ensures Valid()
      ensures clients == Listed(old(clients), msg, msg.RegisterClient?, false)
      ensures blockNotifications == Listed(old(blockNotifications), msg, msg.RegisterBlocks?, msg.UnregisterBlocks?)
      ensures txNotifications
        == Listed(old(txNotifications), msg, msg.RegisterNewMempoolTxs?, msg.UnregisterNewMempoolTxs?)
      ensures msg.RegisterBlocks? ==> msg.wsc in blockNotifications
      ensures msg.UnregisterBlocks? ==> msg.wsc !in blockNotifications
      ensures msg.RegisterClient? ==> msg.wsc in clients
      ensures msg.RegisterNewMempoolTxs? ==> msg.wsc in txNotifications
      ensures msg.UnregisterNewMempoolTxs? ==> msg.wsc !in txNotifications
      ensures forall c | c in universe && !IsNamed(msg, c) ::
                && (c in clients <==> c in old(clients))
                && (c in blockNotifications <==> c in old(blockNotifications))
                && (c in txNotifications <==> c in old(txNotifications))
    {
      match msg
      case RegisterBlocks(wsc) => blockNotifications := blockNotifications + {wsc};
      case UnregisterBlocks(wsc) => blockNotifications := blockNotifications - {wsc};
      case RegisterClient(wsc) => clients := clients + {wsc};
      case RegisterNewMempoolTxs(wsc) => txNotifications := txNotifications + {wsc};
      case UnregisterNewMempoolTxs(wsc) => txNotifications := txNotifications - {wsc};
      case _ =>
    }

    lemma NewsIs(s: State, msg: Message, c: WsClient)
      requires c in universe && s == Hushed(Snapshot())
      ensures NewsFor(msg, c) == News(s, msg, c, HushedClient(StateOf(c)))
    {
    }

    /** One message, in terms of the state before and after it. */
    method HandleNext(msg: Message, ghost before: State) returns (ghost after: State)
      requires Valid() && Names(msg) && before == Snapshot()
      modifies this, universe`ntfns, universe`spentRequests, universe`addrRequests, universe`filterData,
               Filters(universe)
      ensures Valid() && after == Snapshot() && Passed(before, msg, after)
      ensures forall c | c in universe && c.filterData != null ::
                c.filterData == old(c.filterData) || fresh(c.filterData)
      ensures msg.UnregisterClient? ==> Absent(msg.wsc)
    {
      ghost var s := Hushed(before);
      forall c | c in universe
        ensures NewsFor(msg, c) == News(s, msg, c, HushedClient(before.each[c]))
      {
        NewsIs(s, msg, c);
      }
      Handle(msg);
      after := Snapshot();
      forall c | c in universe
        ensures HushedClient(StateOf(c)) == ClientAfter(s, msg, c, HushedClient(before.each[c]))
      {
        ClientFollows(s, msg, c, before.each[c], StateOf(c));
      }
      AllFollow(before, msg, after);
    }

    /** Any run of the handler.  Message by message the state becomes what each makes of it,
        so at the end, echoes aside, it is that of all messages in order. */
    method Run(msgs: seq<Message>) returns (ghost states: seq<State>)
      requires Valid() && forall msg | msg in msgs :: Names(msg)
      modifies this, universe`ntfns, universe`spentRequests, universe`addrRequests, universe`filterData,
               Filters(universe)
      ensures Valid() && Trace(states, msgs)
      ensures states[0] == old(Snapshot()) && states[|msgs|] == Snapshot()
      ensures Hushed(Snapshot()) == AfterAll(Hushed(old(Snapshot())), msgs)
      ensures msgs != [] && msgs[|msgs| - 1].UnregisterClient? ==> Absent(msgs[|msgs| - 1].wsc)
    {
      states := [Snapshot()];
      for i := 0 to |msgs|
        invariant Valid() && Trace(states, msgs[..i]) && states[0] == old(Snapshot()) && states[i] == Snapshot()
        invariant forall c | c in universe && c.filterData != null ::
                  c.filterData == old(c.filterData) || fresh(c.filterData)
        invariant i > 0 && msgs[i - 1].UnregisterClient? ==> Absent(msgs[i - 1].wsc)
      {
        ghost var after := HandleNext(msgs[i], states[i]);
        TraceOn(states, msgs, i, after);
        states := states + [after];
      }
      assert msgs[..|msgs|] == msgs;
      TraceIsFold(states, msgs);
    }
  }

  /** `ntfns` continues `ntfns0` with one echo for every one of `spends` that concerns the
      client, in any order. */
  ghost predicate Echoed(ntfns0: seq<Ntfn>, spends: set<Tx>, watched: set<OutPoint>, ntfns: seq<Ntfn>) {
    ntfns0 <= ntfns && multiset(ntfns[|ntfns0|..]) == multiset(Echoes(spends, watched))
  }

  lemma OnlyEchoes(ntfns0: seq<Ntfn>, spends: set<Tx>, watched: set<OutPoint>, ntfns: seq<Ntfn>)
    requires Echoed(ntfns0, spends, watched, ntfns)
    ensures DropEchoes(ntfns) == DropEchoes(ntfns0)
  {
    var more := ntfns[|ntfns0|..];
    forall n | n in more
      ensures IsMempoolEcho(n)
    {
      assert n in multiset(more);
      assert n in Echoes(spends, watched);
    }
    AllDropped(more);
    DropEchoesAppend(ntfns0, more);
    assert ntfns0 + more == ntfns;
  }

  lemma {:induction false} AllDropped(ntfns: seq<Ntfn>)
    requires forall n | n in ntfns :: IsMempoolEcho(n)
    ensures DropEchoes(ntfns) == []
  {
    if ntfns != [] {
      AllDropped(ntfns[..|ntfns| - 1]);
    }
  }

  lemma EchoedStep(ntfns0: seq<Ntfn>, spends: set<Tx>, watched: set<OutPoint>, ntfns: seq<Ntfn>, spend: Tx)
    requires Echoed(ntfns0, spends, watched, ntfns) && spend !in spends
    ensures Echoed(ntfns0, spends + {spend}, watched,
                   ntfns + if SpendsOneOf(watched, spend) then [RedeemingTx(spend, None)] else [])
  {
    EchoesStep(spends, spend, watched);
    var more := if SpendsOneOf(watched, spend) then [RedeemingTx(spend, None)] else [];
    assert (ntfns + more)[|ntfns0|..] == ntfns[|ntfns0|..] + more;
  }

  /** Of a single outpoint there is at most one echo. */
  lemma EchoedOne(ntfns0: seq<Ntfn>, op: OutPoint, mempool: map<OutPoint, Tx>, spends: set<Tx>, watched: set<OutPoint>,
                  ntfns: seq<Ntfn>)
    requires spends == (if op in mempool then {mempool[op]} else {}) && Echoed(ntfns0, spends, watched, ntfns)
    ensures ntfns == ntfns0 + EchoFor(op, watched, mempool)
  {
    var more := ntfns[|ntfns0|..];
    assert ntfns == ntfns0 + more;
    if op in mempool && SpendsOneOf(watched, mempool[op]) {
      var echo := RedeemingTx(mempool[op], None);
      assert Echoes(spends, watched) == {echo};
      OneElement(more, echo);
    } else {
      assert Echoes(spends, watched) == {};
      NoElement(more);
    }
  }

  lemma OneElement(s: seq<Ntfn>, x: Ntfn)
    requires multiset(s) == multiset{x}
    ensures s == [x]
  {
    assert |s| == |multiset(s)| == 1;
    assert s[0] in multiset(s);
  }

  lemma NoElement(s: seq<Ntfn>)
    requires multiset(s) == multiset{}
    ensures s == []
  {
    assert |s| == |multiset(s)|;
  }

  /** The state of a client after some turns of a transaction. */
  ghost predicate AfterTurns(turns: seq<Turn>, c: WsClient, watched0: set<OutPoint>, ntfns0: seq<Ntfn>, tx: Tx,
                             block: Option<Block>, mempool: map<OutPoint, Tx>, watched: set<OutPoint>, ntfns: seq<Ntfn>)
  {
    && watched == WatchedAfter(turns, c, watched0)
    && ntfns == ntfns0 + TurnsNtfns(turns, c, watched0, tx, block, mempool)
  }

  lemma AfterTurn(turns: seq<Turn>, turn: Turn, c: WsClient, watched0: set<OutPoint>, ntfns0: seq<Ntfn>, tx: Tx,
                  block: Option<Block>, mempool: map<OutPoint, Tx>, watched1: set<OutPoint>, ntfns1: seq<Ntfn>,
                  watched: set<OutPoint>, ntfns: seq<Ntfn>)
    requires AfterTurns(turns, c, watched0, ntfns0, tx, block, mempool, watched1, ntfns1)
    requires watched == watched1 + if c == turn.wsc then {turn.op} else {}
    requires ntfns == ntfns1 + TurnNtfns(turn, c, watched, ToldIn(turns, c), tx, block, mempool)
    ensures AfterTurns(turns + [turn], c, watched0, ntfns0, tx, block, mempool, watched, ntfns)
  {
    assert (turns + [turn])[..|turns|] == turns;
    Rejoined(ntfns0, TurnsNtfns(turns, c, watched0, tx, block, mempool),
           TurnNtfns(turn, c, watched, ToldIn(turns, c), tx, block, mempool));
  }

  lemma ToldMore(turns: seq<Turn>, turn: Turn)
    ensures forall c :: ToldIn(turns + [turn], c) <==> ToldIn(turns, c) || turn.wsc == c
  {
    forall c
      ensures ToldIn(turns + [turn], c) <==> ToldIn(turns, c) || turn.wsc == c
    {
      assert (turns + [turn])[|turns|] == turn;
      if k :| 0 <= k < |turns| && turns[k].wsc == c {
        assert (turns + [turn])[k].wsc == c;
      }
    }
  }

  lemma ToldByLast(turns: seq<Turn>, c: WsClient)
    requires turns != []
    ensures ToldIn(turns, c) <==> ToldIn(turns[..|turns| - 1], c) || turns[|turns| - 1].wsc == c
  {
    ToldMore(turns[..|turns| - 1], turns[|turns| - 1]);
    assert turns == turns[..|turns| - 1] + [turns[|turns| - 1]];
  }

  /** The turns so far are of outputs up to the i-th, in order, and of known clients. */
  ghost predicate UpTo(turns: seq<Turn>, i: nat, universe: set<WsClient>) {
    && InOrder(turns)
    && forall turn | turn in turns :: turn.op.index <= i && turn.wsc in universe
  }

  /** Everyone in `done`, and nobody else, has had one more turn for `op`. */
  ghost predicate MoreTurns(turns: seq<Turn>, more: seq<Turn>, op: OutPoint, done: set<WsClient>,
                            universe: set<WsClient>)
  {
    forall c, o: OutPoint | c in universe ::
      Count(more, Turn(c, o)) == Count(turns, Turn(c, o)) + if o == op && c in done then 1 else 0
  }

  lemma UpToMore(turns: seq<Turn>, turn: Turn, universe: set<WsClient>)
    requires UpTo(turns, turn.op.index, universe) && turn.wsc in universe
    ensures UpTo(turns + [turn], turn.op.index, universe)
  {
  }

  lemma CountMore(turns: seq<Turn>, more: seq<Turn>, op: OutPoint, done: set<WsClient>, wsc: WsClient,
                  universe: set<WsClient>)
    requires MoreTurns(turns, more, op, done, universe) && wsc !in done
    ensures MoreTurns(turns, more + [Turn(wsc, op)], op, done + {wsc}, universe)
  {
    forall c, o: OutPoint | c in universe
      ensures Count(more + [Turn(wsc, op)], Turn(c, o))
           == Count(turns, Turn(c, o)) + if o == op && c in done + {wsc} then 1 else 0
    {
      assert (more + [Turn(wsc, op)])[..|more|] == more;
    }
  }

  /** The clients told so far are those who have had a turn. */
  ghost predicate Notified(notified: set<WsClient>, turns: seq<Turn>, universe: set<WsClient>) {
    forall c | c in universe :: c in notified <==> ToldIn(turns, c)
  }

  lemma OneMoreTurn(turns: seq<Turn>, more: seq<Turn>, op: OutPoint, done: set<WsClient>, wsc: WsClient,
                    notified: set<WsClient>, universe: set<WsClient>)
    requires UpTo(more, op.index, universe) && MoreTurns(turns, more, op, done, universe) && wsc !in done
    requires wsc in universe
    requires Notified(notified, more, universe)
    ensures wsc in notified <==> ToldIn(more, wsc)
    ensures UpTo(more + [Turn(wsc, op)], op.index, universe)
    ensures MoreTurns(turns, more + [Turn(wsc, op)], op, done + {wsc}, universe)
    ensures Notified(notified + {wsc}, more + [Turn(wsc, op)], universe)
  {
    ToldMore(more, Turn(wsc, op));
    UpToMore(more, Turn(wsc, op), universe);
    CountMore(turns, more, op, done, wsc, universe);
  }

  /** Turns up to the k-th address of the i-th output. */
  ghost predicate OwnTurnsSoFar(turns: seq<Turn>, c: WsClient, mine: set<Address>, tx: Tx, i: nat, k: nat)
    requires i < |tx.outs| && k <= |tx.outs[i].addrs|
  {
    forall op: OutPoint ::
      Count(turns, Turn(c, op)) ==
        if op == OutPoint(tx.hash, i) then Mine(mine, tx.outs[i].addrs[..k])
        else if op.hash == tx.hash && op.index < i then Mine(mine, tx.outs[op.index].addrs)
        else 0
  }

  lemma OwnTurnsStep(turns: seq<Turn>, more: seq<Turn>, c: WsClient, mine: set<Address>, tx: Tx, i: nat, k: nat,
                     watchers: set<WsClient>, universe: set<WsClient>)
    requires i < |tx.outs| && k < |tx.outs[i].addrs| && OwnTurnsSoFar(turns, c, mine, tx, i, k)
    requires MoreTurns(turns, more, OutPoint(tx.hash, i), watchers, universe) && c in universe
    requires c in watchers <==> tx.outs[i].addrs[k] in mine
    ensures OwnTurnsSoFar(more, c, mine, tx, i, k + 1)
  {
    assert tx.outs[i].addrs[..k + 1][..k] == tx.outs[i].addrs[..k];
  }

  lemma {:induction false} NothingMine(addrs: seq<Address>)
    ensures Mine({}, addrs) == 0
  {
    if addrs != [] {
      NothingMine(addrs[..|addrs| - 1]);
    }
  }

  /** The turns of a client are for exactly the outputs that pay it. */
  lemma TurnsWatch(turns: seq<Turn>, c: WsClient, mine: set<Address>, watched: set<OutPoint>, tx: Tx)
    requires OwnTurns(turns, c, mine, tx, |tx.outs|)
    ensures WatchedAfter(turns, c, watched) == watched + PaidOuts(mine, tx)
    ensures ToldIn(turns, c) <==> PaidOuts(mine, tx) != {}
  {
    WatchedByTurns(turns, c, watched);
    forall op: OutPoint
      ensures Turn(c, op) in turns <==> op in PaidOuts(mine, tx)
    {
      CountIsPositive(turns, Turn(c, op));
      if op.index < |tx.outs| {
        MineIfPays(mine, tx.outs[op.index].addrs);
      }
    }
    if k :| 0 <= k < |turns| && turns[k].wsc == c {
      assert Turn(c, turns[k].op) in turns;
    }
    if op :| op in PaidOuts(mine, tx) {
      var k :| 0 <= k < |turns| && turns[k] == Turn(c, op);
    }
  }

  lemma {:induction false} WatchedByTurns(turns: seq<Turn>, c: WsClient, watched: set<OutPoint>)
    ensures forall op :: op in WatchedAfter(turns, c, watched) <==> op in watched || Turn(c, op) in turns
  {
    if turns != [] {
      WatchedByTurns(turns[..|turns| - 1], c, watched);
      assert turns == turns[..|turns| - 1] + [turns[|turns| - 1]];
    }
  }

  lemma {:induction false} MineIfPays(mine: set<Address>, addrs: seq<Address>)
    ensures Mine(mine, addrs) > 0 <==> exists k :: 0 <= k < |addrs| && addrs[k] in mine
  {
    if addrs != [] {
      var before := addrs[..|addrs| - 1];
      MineIfPays(mine, before);
      if k :| 0 <= k < |before| && before[k] in mine {
        assert addrs[k] in mine;
      }
    }
  }

  /** The state of a client after the first t transactions of a block. */
  ghost predicate Followed(turns: seq<seq<Turn>>, c: WsClient, addrs: set<Address>, watched0: set<OutPoint>,
                           ntfns0: seq<Ntfn>, blk: Block, mempool: map<OutPoint, Tx>,
                           watched: set<OutPoint>, ntfns: seq<Ntfn>)
    requires |turns| <= |blk.txs|
  {
    && watched == WatchAfter(addrs, watched0, blk.txs[..|turns|])
    && ntfns == ntfns0 + BlockNtfns(turns, c, addrs, watched0, blk.txs[..|turns|], blk, mempool)
  }

  lemma FollowedStep(turns: seq<seq<Turn>>, more: seq<Turn>, c: WsClient, addrs: set<Address>, watched0: set<OutPoint>,
                     ntfns0: seq<Ntfn>, blk: Block, mempool: map<OutPoint, Tx>,
                     watched1: set<OutPoint>, ntfns1: seq<Ntfn>, watched2: set<OutPoint>, ntfns2: seq<Ntfn>)
    requires |turns| < |blk.txs| && Followed(turns, c, addrs, watched0, ntfns0, blk, mempool, watched1, ntfns1)
    requires watched2 == WatchAfterTx(addrs, watched1, blk.txs[|turns|])
    requires ntfns2 == ntfns1 + TxNtfns(more, c, watched1, blk.txs[|turns|], Some(blk), mempool)
    ensures Followed(turns + [more], c, addrs, watched0, ntfns0, blk, mempool, watched2, ntfns2)
  {
    var t := |turns|;
    assert blk.txs[..t + 1][..t] == blk.txs[..t] && (turns + [more])[..t] == turns;
    Rejoined(ntfns0, BlockNtfns(turns, c, addrs, watched0, blk.txs[..t], blk, mempool),
           TxNtfns(more, c, watched1, blk.txs[t], Some(blk), mempool));
  }

  lemma {:induction false} NothingWatched(turns: seq<seq<Turn>>, c: WsClient, txs: seq<Tx>, blk: Block,
                                          mempool: map<OutPoint, Tx>)
    requires |turns| == |txs| && forall t | 0 <= t < |turns| :: turns[t] == []
    ensures WatchAfter({}, {}, txs) == {} && BlockNtfns(turns, c, {}, {}, txs, blk, mempool) == []
  {
    if txs != [] {
      var n := |txs| - 1;
      NothingWatched(turns[..n], c, txs[..n], blk, mempool);
      assert PaidOuts({}, txs[n]) == {};
    }
  }

  /** Without the echoes, turns leave the one recvtx. */
  lemma {:induction false} TurnsDrop(turns: seq<Turn>, c: WsClient, watched: set<OutPoint>, tx: Tx,
                                     block: Option<Block>, mempool: map<OutPoint, Tx>)
    ensures DropEchoes(TurnsNtfns(turns, c, watched, tx, block, mempool)) == if ToldIn(turns, c)
      then [RecvTx(tx, block)] else []
  {
    if turns != [] {
      var before, last := turns[..|turns| - 1], turns[|turns| - 1];
      TurnsDrop(before, c, watched, tx, block, mempool);
      ToldByLast(turns, c);
      TurnDrops(last, c, WatchedAfter(turns, c, watched), ToldIn(before, c), tx, block, mempool);
      DropEchoesAppend(TurnsNtfns(before, c, watched, tx, block, mempool),
                       TurnNtfns(last, c, WatchedAfter(turns, c, watched), ToldIn(before, c), tx, block, mempool));
    }
  }

  lemma EchoDrops(op: OutPoint, watched: set<OutPoint>, mempool: map<OutPoint, Tx>)
    ensures DropEchoes(EchoFor(op, watched, mempool)) == []
  {
    if op in mempool {
      var echo := RedeemingTx(mempool[op], None);
      DropEchoesStep([], echo);
      assert [] + [echo] == [echo];
    }
  }

  lemma OneStays(ntfn: Ntfn)
    requires !IsMempoolEcho(ntfn)
    ensures DropEchoes([ntfn]) == [ntfn]
  {
    DropEchoesStep([], ntfn);
    assert [] + [ntfn] == [ntfn];
  }

  lemma TurnDrops(turn: Turn, c: WsClient, watched: set<OutPoint>, told: bool, tx: Tx, block: Option<Block>,
                  mempool: map<OutPoint, Tx>)
    ensures DropEchoes(TurnNtfns(turn, c, watched, told, tx, block, mempool))
         == if turn.wsc == c && !told then [RecvTx(tx, block)] else []
  {
    EchoDrops(turn.op, watched, mempool);
    OneStays(RecvTx(tx, block));
    DropEchoesAppend(EchoFor(turn.op, watched, mempool), if turn.wsc == c && !told then [RecvTx(tx, block)] else []);
  }

  lemma {:induction false} BlockDrops(turns: seq<seq<Turn>>, c: WsClient, addrs: set<Address>, watched: set<OutPoint>,
                                      txs: seq<Tx>, blk: Block, mempool: map<OutPoint, Tx>)
    requires |turns| == |txs| && forall t | 0 <= t < |txs| :: OwnTurns(turns[t], c, addrs, txs[t], |txs[t].outs|)
    ensures DropEchoes(BlockNtfns(turns, c, addrs, watched, txs, blk, mempool))
      == ConnectedNtfns(addrs, watched, txs, blk)
  {
    if txs != [] {
      var n := |txs| - 1;
      var known := WatchAfter(addrs, watched, txs[..n]);
      BlockDrops(turns[..n], c, addrs, watched, txs[..n], blk, mempool);
      TxDrops(turns[n], c, addrs, known, txs[n], blk, mempool);
      DropEchoesAppend(BlockNtfns(turns[..n], c, addrs, watched, txs[..n], blk, mempool),
                       TxNtfns(turns[n], c, known, txs[n], Some(blk), mempool));
    }
  }

  lemma TxDrops(turns: seq<Turn>, c: WsClient, addrs: set<Address>, watched: set<OutPoint>, tx: Tx, blk: Block,
                mempool: map<OutPoint, Tx>)
    requires OwnTurns(turns, c, addrs, tx, |tx.outs|)
    ensures DropEchoes(TxNtfns(turns, c, watched, tx, Some(blk), mempool)) == ConnectedTxNtfns(addrs, watched, tx, blk)
  {
    var redeeming := if SpendsOneOf(watched, tx) then [RedeemingTx(tx, Some(blk))] else [];
    TurnsDrop(turns, c, watched - Prevs(tx), tx, Some(blk), mempool);
    TurnsWatch(turns, c, addrs, watched, tx);
    OneStays(RedeemingTx(tx, Some(blk)));
    DropEchoesAppend(redeeming, TurnsNtfns(turns, c, watched - Prevs(tx), tx, Some(blk), mempool));
  }

  lemma {:induction false} DropEchoesKeepsCount(ntfns: seq<Ntfn>, ntfn: Ntfn)
    requires !IsMempoolEcho(ntfn)
    ensures Count(DropEchoes(ntfns), ntfn) == Count(ntfns, ntfn)
  {
    if ntfns != [] {
      var n := |ntfns| - 1;
      DropEchoesKeepsCount(ntfns[..n], ntfn);
      CountAppend(DropEchoes(ntfns[..n]), if IsMempoolEcho(ntfns[n]) then [] else [ntfns[n]], ntfn);
    }
  }

  /** Of everything sent to a client for a block without repeated transactions, exactly one
      is a redeemingtx for a transaction that spends an outpoint the client watched just
      before it, and none for any other. */
  lemma RedeemedExactlyOnce(turns: seq<seq<Turn>>, c: WsClient, addrs: set<Address>, watched: set<OutPoint>,
                            txs: seq<Tx>, blk: Block, mempool: map<OutPoint, Tx>, t: nat)
    requires |turns| == |txs| && forall k | 0 <= k < |txs| :: OwnTurns(turns[k], c, addrs, txs[k], |txs[k].outs|)
    requires t < |txs| && forall i, j | 0 <= i < j < |txs| :: txs[i] != txs[j]
    ensures Count(BlockNtfns(turns, c, addrs, watched, txs, blk, mempool), RedeemingTx(txs[t], Some(blk)))
            == if SpendsOneOf(WatchAfter(addrs, watched, txs[..t]), txs[t]) then 1 else 0
  {
    BlockDrops(turns, c, addrs, watched, txs, blk, mempool);
    DropEchoesKeepsCount(BlockNtfns(turns, c, addrs, watched, txs, blk, mempool), RedeemingTx(txs[t], Some(blk)));
    OwnRedeemedOnce(addrs, watched, txs, blk, t);
  }

  lemma {:induction false} OwnReceivedOnce(addrs: set<Address>, watched: set<OutPoint>, txs: seq<Tx>, blk: Block,
                                           tx: Tx)
    requires forall i, j | 0 <= i < j < |txs| :: txs[i] != txs[j]
    ensures Count(ConnectedNtfns(addrs, watched, txs, blk), RecvTx(tx, Some(blk)))
            == if tx in txs && PaysOne(addrs, tx) then 1 else 0
  {
    if txs != [] {
      var before, last := txs[..|txs| - 1], txs[|txs| - 1];
      var known := WatchAfter(addrs, watched, before);
      OwnReceivedOnce(addrs, watched, before, blk, tx);
      CountAppend(ConnectedNtfns(addrs, watched, before, blk), ConnectedTxNtfns(addrs, known, last, blk),
                  RecvTx(tx, Some(blk)));
      ReceivedByTx(addrs, known, last, blk, tx);
      assert txs == before + [last] && last !in before;
    }
  }

  lemma ReceivedByTx(addrs: set<Address>, watched: set<OutPoint>, tx: Tx, blk: Block, other: Tx)
    ensures Count(ConnectedTxNtfns(addrs, watched, tx, blk), RecvTx(other, Some(blk)))
            == if other == tx && PaysOne(addrs, tx) then 1 else 0
  {
    PaidOutsArePaying(addrs, tx);
    var redeemed := if SpendsOneOf(watched, tx) then [RedeemingTx(tx, Some(blk))] else [];
    var received := if PaidOuts(addrs, tx) != {} then [RecvTx(tx, Some(blk))] else [];
    CountAppend(redeemed, received, RecvTx(other, Some(blk)));
  }

  /** And exactly one is a recvtx for a transaction with an output that pays the client,
      however many there are, and none for any other. */
  lemma ReceivedExactlyOnce(turns: seq<seq<Turn>>, c: WsClient, addrs: set<Address>, watched: set<OutPoint>,
                            txs: seq<Tx>, blk: Block, mempool: map<OutPoint, Tx>, tx: Tx)
    requires |turns| == |txs| && forall k | 0 <= k < |txs| :: OwnTurns(turns[k], c, addrs, txs[k], |txs[k].outs|)
    requires forall i, j | 0 <= i < j < |txs| :: txs[i] != txs[j]
    ensures Count(BlockNtfns(turns, c, addrs, watched, txs, blk, mempool), RecvTx(tx, Some(blk)))
            == if tx in txs && PaysOne(addrs, tx) then 1 else 0
  {
    BlockDrops(turns, c, addrs, watched, txs, blk, mempool);
    DropEchoesKeepsCount(BlockNtfns(turns, c, addrs, watched, txs, blk, mempool), RecvTx(tx, Some(blk)));
    OwnReceivedOnce(addrs, watched, txs, blk, tx);
  }

  /** A mempool transaction brings its payees one recvtx, and who watches its inputs the
      redeemingtx first. */
  lemma TxDropsInMempool(turns: seq<Turn>, c: WsClient, addrs: set<Address>, watched: set<OutPoint>, tx: Tx,
                         mempool: map<OutPoint, Tx>)
    requires OwnTurns(turns, c, addrs, tx, |tx.outs|)
    ensures DropEchoes(TxNtfns(turns, c, watched, tx, None, mempool))
         == if PaidOuts(addrs, tx) != {} then [RecvTx(tx, None)] else []
    ensures SpendsOneOf(watched, tx) ==> RedeemingTx(tx, None) in TxNtfns(turns, c, watched, tx, None, mempool)
  {
    var redeeming := if SpendsOneOf(watched, tx) then [RedeemingTx(tx, None)] else [];
    assert watched - {} == watched;
    TurnsDrop(turns, c, watched, tx, None, mempool);
    TurnsWatch(turns, c, addrs, watched, tx);
    DropEchoesStep([], RedeemingTx(tx, None));
    assert [] + [RedeemingTx(tx, None)] == [RedeemingTx(tx, None)];
    DropEchoesAppend(redeeming, TurnsNtfns(turns, c, watched, tx, None, mempool));
    assert redeeming != [] ==> TxNtfns(turns, c, watched, tx, None, mempool)[0] == RedeemingTx(tx, None);
  }

  /** What a connected block brings a client, echoes aside. */
  function BlockNews(block: Block, listed: bool, addrs: set<Address>, watched: set<OutPoint>, told: seq<Tx>)
    : seq<Ntfn>
  {
    ConnectedNtfns(addrs, watched, block.txs, block)
    + (if listed then [BlockConnected(block), FilteredBlockConnected(block, told)] else [])
  }

  lemma BlockNewsIs(turns: seq<seq<Turn>>, c: WsClient, addrs: set<Address>, watched: set<OutPoint>, block: Block,
                    listed: bool, told: seq<Tx>, mempool: map<OutPoint, Tx>, before: seq<Ntfn>, now: seq<Ntfn>)
    requires |turns| == |block.txs|
    requires forall t | 0 <= t < |block.txs| :: OwnTurns(turns[t], c, addrs, block.txs[t], |block.txs[t].outs|)
    requires now == before + BlockNtfns(turns, c, addrs, watched, block.txs, block, mempool)
                    + (if listed then [BlockConnected(block), FilteredBlockConnected(block, told)] else [])
    ensures before <= now && DropEchoes(now) == DropEchoes(before) + BlockNews(block, listed, addrs, watched, told)
  {
    BlockDrops(turns, c, addrs, watched, block.txs, block, mempool);
    DropEchoesOfThree(before, BlockNtfns(turns, c, addrs, watched, block.txs, block, mempool),
                      if listed then [BlockConnected(block), FilteredBlockConnected(block, told)] else []);
  }

  /** What a mempool transaction brings a client, echoes aside. */
  function TxNews(tx: Tx, announced: bool, addrs: set<Address>, hit: bool): seq<Ntfn> {
    (if announced then [TxAccepted(tx)] else [])
    + (if PaidOuts(addrs, tx) != {} then [RecvTx(tx, None)] else [])
    + (if hit then [RelevantTxAccepted(tx)] else [])
  }

  lemma TxNewsIs(turns: seq<Turn>, c: WsClient, addrs: set<Address>, watched: set<OutPoint>, tx: Tx, announced: bool,
                 hit: bool, mempool: map<OutPoint, Tx>, before: seq<Ntfn>, now: seq<Ntfn>)
    requires OwnTurns(turns, c, addrs, tx, |tx.outs|)
    requires now == before + (if announced then [TxAccepted(tx)] else [])
                    + TxNtfns(turns, c, watched, tx, None, mempool)
                    + (if hit then [RelevantTxAccepted(tx)] else [])
    ensures before <= now && DropEchoes(now) == DropEchoes(before) + TxNews(tx, announced, addrs, hit)
    ensures SpendsOneOf(watched, tx) ==> RedeemingTx(tx, None) in now[|before|..]
  {
    TxDropsInMempool(turns, c, addrs, watched, tx, mempool);
    NewsOfTx(before, if announced then [TxAccepted(tx)] else [], TxNtfns(turns, c, watched, tx, None, mempool),
             if hit then [RelevantTxAccepted(tx)] else [], now, RedeemingTx(tx, None));
  }

  lemma EchoesStep(spends: set<Tx>, spend: Tx, watched: set<OutPoint>)
    requires spend !in spends
    ensures multiset(Echoes(spends + {spend}, watched))
            == multiset(Echoes(spends, watched)) + if SpendsOneOf(watched, spend)
              then multiset{RedeemingTx(spend, None)} else multiset{}
  {
    var more := if SpendsOneOf(watched, spend) then {RedeemingTx(spend, None)} else {};
    assert Echoes(spends + {spend}, watched) == Echoes(spends, watched) + more;
    assert Echoes(spends, watched) !! more;
  }
}
