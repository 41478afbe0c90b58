// Websocket clients and their transaction filters (node/rpcwebsocket.go).

module WsClients {
  import opened Common
  import opened Wire

  datatype Ntfn =
    | RecvTx(tx: Tx, block: Option<Block>)
    | RedeemingTx(tx: Tx, block: Option<Block>)
    | TxAccepted(tx: Tx)
    | RelevantTxAccepted(tx: Tx)
    | BlockConnected(block_: Block)
    | FilteredBlockConnected(block_: Block, subscribed: seq<Tx>)
    | BlockDisconnected(block_: Block)
    | FilteredBlockDisconnected(block_: Block)
    | RescanProgress(block_: Block)

  /** The address and outpoint filter a client loads with loadtxfilter. */
  class TxFilter {
    var addrs: set<Address>
    var unspent: set<OutPoint>

    constructor (addrs: set<Address>, unspent: set<OutPoint>)
      ensures this.addrs == addrs && this.unspent == unspent
    {
      this.addrs, this.unspent := addrs, unspent;
    }
  }

  /** One websocket connection.  The object itself stands for the quit channel
      that identifies the client. */
  class WsClient {
    // Everything handed to QueueNotification, oldest first.
    var ntfns: seq<Ntfn>

    // The number of notifications after which the client turns out to be
    // disconnected; later ones are refused.
    const quitAfter: Option<nat>

    // The client's own side of the subscription indexes.
    var spentRequests: set<OutPoint>
    var addrRequests: set<Address>

    var filterData: TxFilter?

    constructor (quitAfter: Option<nat>)
      ensures ntfns == [] && spentRequests == {} && addrRequests == {} && filterData == null
      ensures this.quitAfter == quitAfter
    {
      this.quitAfter := quitAfter;
      ntfns, spentRequests, addrRequests, filterData := [], {}, {}, null;
    }

    /** The addresses and the outpoints of the client's filter. */
    ghost function Filter(): Option<(set<Address>, set<OutPoint>)>
      reads this`filterData, filterData
    {
      if filterData == null then None else Some((filterData.addrs, filterData.unspent))
    }

    /** loadtxfilter: a new filter, or more for the one there is. */
    method LoadTxFilter(addrs: set<Address>, outPoints: set<OutPoint>, reload: bool)
      modifies this`filterData, if filterData == null then {} else {filterData}
      ensures filterData != null && (filterData == old(filterData) || fresh(filterData))
      ensures var added := reload || old(filterData) == null;
        && (added ==> fresh(filterData) && filterData.addrs == addrs && filterData.unspent == outPoints)
        && (!added ==> && filterData == old(filterData)
                       && filterData.addrs == old(filterData.addrs) + addrs
                       && filterData.unspent == old(filterData.unspent) + outPoints)
      ensures old(filterData) != null && reload ==> unchanged(old(filterData))
    {
      if reload || filterData == null {
        filterData := new TxFilter(addrs, outPoints);
      } else {
        filterData.addrs := filterData.addrs + addrs;
        filterData.unspent := filterData.unspent + outPoints;
      }
    }

    predicate Connected()
      reads this
    {
      quitAfter.None? || |ntfns| < quitAfter.value
    }

    /** Every notification so far was accepted. */
    predicate Unrefused()
      reads this
    {
      quitAfter.None? || |ntfns| <= quitAfter.value
    }

    /** False is ErrClientQuit. */
    method QueueNotification(ntfn: Ntfn) returns (ok: bool)
      modifies this`ntfns
      ensures ntfns == old(ntfns) + [ntfn]
      ensures ok == old(Connected()) == Unrefused()
    {
      ok := Connected();
      ntfns := ntfns + [ntfn];
    }
  }
}
