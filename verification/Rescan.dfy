// Rescanning single blocks for a websocket client (node/rpcwebsocket.go,
// rescanBlock), and the unspent set a whole range leaves behind.

module Rescan {
  import opened Common
  import opened Wire
  import opened WsClients

  class RescanKeys {
    const addrs: set<Address>
    var unspent: set<OutPoint>

    constructor (addrs: set<Address>, unspent: set<OutPoint>)
      ensures this.addrs == addrs && this.unspent == unspent
    {
      this.addrs, this.unspent := addrs, unspent;
    }
  }

  // ---------------------------------------------------------------------------
  // What a scan reports and leaves, as values.

  predicate Redeems(addrs: set<Address>, unspent: set<OutPoint>, txIn: TxIn) {
    txIn.prev in unspent || (txIn.payer.Some? && txIn.payer.value in addrs)
  }

  lemma SomeInputRedeems(addrs: set<Address>, unspent: set<OutPoint>, tx: Tx)
    ensures (exists i :: 0 <= i < |tx.ins| && Redeems(addrs, unspent, tx.ins[i]))
      <==> exists txIn :: txIn in tx.ins
             && (txIn.prev in unspent || (txIn.payer.Some? && txIn.payer.value in addrs))
  {
    forall txIn | txIn in tx.ins && (txIn.prev in unspent || (txIn.payer.Some? && txIn.payer.value in addrs))
      ensures exists i :: 0 <= i < |tx.ins| && Redeems(addrs, unspent, tx.ins[i])
    {
      var i :| 0 <= i < |tx.ins| && tx.ins[i] == txIn;
      assert Redeems(addrs, unspent, tx.ins[i]);
    }
  }

  /** At most one redeemingtx and at most one recvtx per transaction. */
  function TxNtfns(addrs: set<Address>, unspent: set<OutPoint>, tx: Tx, blk: Block): (ntfns: seq<Ntfn>)
    ensures |ntfns| <= 2
  {
    (if exists i :: 0 <= i < |tx.ins| && Redeems(addrs, unspent, tx.ins[i]) then [RedeemingTx(tx, Some(blk))] else [])
    + (if PaidOuts(addrs, tx) != {} then [RecvTx(tx, Some(blk))] else [])
  }

  function BlockNtfns(addrs: set<Address>, unspent: set<OutPoint>, txs: seq<Tx>, blk: Block): seq<Ntfn> {
    if txs == [] then []
    else
      var before, tx := txs[..|txs| - 1], txs[|txs| - 1];
      BlockNtfns(addrs, unspent, before, blk) + TxNtfns(addrs, WatchAfter(addrs, unspent, before), tx, blk)
  }

  function AllTxs(blocks: seq<Block>): seq<Tx> {
    if blocks == [] then [] else AllTxs(blocks[..|blocks| - 1]) + blocks[|blocks| - 1].txs
  }

  function RangeNtfns(addrs: set<Address>, unspent: set<OutPoint>, blocks: seq<Block>): seq<Ntfn> {
    if blocks == [] then []
    else
      var before, blk := blocks[..|blocks| - 1], blocks[|blocks| - 1];
      RangeNtfns(addrs, unspent, before) + BlockNtfns(addrs, WatchAfter(addrs, unspent, AllTxs(before)), blk.txs, blk)
  }

  // ---------------------------------------------------------------------------
  // The result set of a range.

  /** Transaction ids are unique, and an output of the range is only spent by a
      later transaction. */
  ghost predicate WellFormed(txs: seq<Tx>) {
    && (forall i, j | 0 <= i < |txs| && 0 <= j < |txs| && txs[i].hash == txs[j].hash :: i == j)
    && (forall i, j, op | 0 <= i < |txs| && 0 <= j < |txs| && op in Prevs(txs[i]) && op.hash == txs[j].hash :: j < i)
  }

  ghost function Created(addrs: set<Address>, txs: seq<Tx>): set<OutPoint> {
    set i, op | 0 <= i < |txs| && op in PaidOuts(addrs, txs[i]) :: op
  }

  ghost function SpentBy(txs: seq<Tx>): set<OutPoint> {
    set i, op | 0 <= i < |txs| && op in Prevs(txs[i]) :: op
  }

  lemma CreatedGrows(addrs: set<Address>, txs: seq<Tx>)
    requires txs != []
    ensures var n := |txs| - 1; Created(addrs, txs) == Created(addrs, txs[..n]) + PaidOuts(addrs, txs[n])
  {
    assert forall i | 0 <= i < |txs| - 1 :: txs[..|txs| - 1][i] == txs[i];
  }

  lemma SpentByGrows(txs: seq<Tx>)
    requires txs != []
    ensures var n := |txs| - 1; SpentBy(txs) == SpentBy(txs[..n]) + Prevs(txs[n])
  {
    assert forall i | 0 <= i < |txs| - 1 :: txs[..|txs| - 1][i] == txs[i];
  }

  lemma LastOutputsStay(addrs: set<Address>, txs: seq<Tx>)
    requires WellFormed(txs) && txs != []
    ensures PaidOuts(addrs, txs[|txs| - 1]) !! SpentBy(txs)
  {
  }

  /** Whatever the order of events inside it, a well-formed range leaves unspent
      exactly what was unspent or created, minus everything it spends. */
  lemma {:induction false} RangeResultSet(addrs: set<Address>, unspent: set<OutPoint>, txs: seq<Tx>)
    requires WellFormed(txs)
    ensures WatchAfter(addrs, unspent, txs) == (unspent + Created(addrs, txs)) - SpentBy(txs)
  {
    if txs == [] {
      assert Created(addrs, txs) == {} && SpentBy(txs) == {};
    } else {
      RangeResultSet(addrs, unspent, txs[..|txs| - 1]);
      CreatedGrows(addrs, txs);
      SpentByGrows(txs);
      LastOutputsStay(addrs, txs);
    }
  }

  // ---------------------------------------------------------------------------
  // Scanning in place.

  /** The inputs of one transaction.  Every spent outpoint leaves the unspent set;
      a single notification goes out. */
  method RescanInputs(wsc: WsClient, lookups: RescanKeys, tx: Tx, blk: Block) returns (ok: bool)
    modifies wsc`ntfns, lookups`unspent
    ensures ok ==> lookups.unspent == old(lookups.unspent) - Prevs(tx)
    ensures var hit := exists i :: 0 <= i < |tx.ins| && Redeems(lookups.addrs, old(lookups.unspent), tx.ins[i]);
            && wsc.ntfns == old(wsc.ntfns) + (if hit then [RedeemingTx(tx, Some(blk))] else [])
            && ok == (hit ==> wsc.Unrefused())
    ensures ok ==>
              forall op :: op in lookups.unspent <==>
                op in old(lookups.unspent) && !exists txIn :: txIn in tx.ins && txIn.prev == op
    ensures RedeemingTx(tx, Some(blk)) in wsc.ntfns[|old(wsc.ntfns)|..] <==>
              exists txIn :: txIn in tx.ins
                && (txIn.prev in old(lookups.unspent) || (txIn.payer.Some? && txIn.payer.value in lookups.addrs))
  {
    PrevsAreSpent(tx);
    SomeInputRedeems(lookups.addrs, lookups.unspent, tx);
    ghost var start := lookups.unspent;
    var spentNotified := false;
    for i := 0 to |tx.ins|
      invariant lookups.unspent == start - PrevsBefore(tx, i)
      invariant spentNotified <==> exists j :: 0 <= j < i && Redeems(lookups.addrs, start, tx.ins[j])
      invariant wsc.ntfns == old(wsc.ntfns) + (if spentNotified then [RedeemingTx(tx, Some(blk))] else [])
      invariant spentNotified ==> wsc.Unrefused()
    {
      var txIn := tx.ins[i];
      var watched := txIn.prev in lookups.unspent;
      if watched {
        lookups.unspent := lookups.unspent - {txIn.prev};
      }
      if txIn.prev in start && !watched {
        var j :| 0 <= j < i && tx.ins[j].prev == txIn.prev;
        assert Redeems(lookups.addrs, start, tx.ins[j]);
      }
      var payerWatched := txIn.payer.Some? && txIn.payer.value in lookups.addrs;
      if (watched || payerWatched) && !spentNotified {
        assert Redeems(lookups.addrs, start, tx.ins[i]);
        ok := wsc.QueueNotification(RedeemingTx(tx, Some(blk)));
        if !ok {
          return;
        }
        spentNotified := true;
      }
    }
    ok := true;
  }

  /** The outputs of one transaction. */
  method RescanOutputs(wsc: WsClient, lookups: RescanKeys, tx: Tx, blk: Block) returns (ok: bool)
    modifies wsc`ntfns, lookups`unspent
    ensures ok ==> lookups.unspent == old(lookups.unspent) + PaidOuts(lookups.addrs, tx)
    ensures var hit := PaidOuts(lookups.addrs, tx) != {};
            && wsc.ntfns == old(wsc.ntfns) + (if hit then [RecvTx(tx, Some(blk))] else [])
            && ok == (hit ==> wsc.Unrefused())
    ensures ok ==>
              forall op :: op in lookups.unspent <==> op in old(lookups.unspent) || OutputPays(lookups.addrs, tx, op)
    ensures RecvTx(tx, Some(blk)) in wsc.ntfns[|old(wsc.ntfns)|..] <==> PaysOne(lookups.addrs, tx)
  {
    PaidOutsArePaying(lookups.addrs, tx);
    var recvNotified := false;
    for i := 0 to |tx.outs|
      invariant lookups.unspent == old(lookups.unspent) + PaidBefore(lookups.addrs, tx, i)
      invariant recvNotified <==> PaidBefore(lookups.addrs, tx, i) != {}
      invariant wsc.ntfns == old(wsc.ntfns) + (if recvNotified then [RecvTx(tx, Some(blk))] else [])
      invariant recvNotified ==> wsc.Unrefused()
    {
      ghost var known := lookups.unspent;
      ghost var notified := recvNotified;
      var addrs := tx.outs[i].addrs;
      for k := 0 to |addrs|
        invariant lookups.unspent == known
                  + if exists j :: 0 <= j < k && addrs[j] in lookups.addrs then {OutPoint(tx.hash, i)} else {}
        invariant recvNotified <==> notified || exists j :: 0 <= j < k && addrs[j] in lookups.addrs
        invariant wsc.ntfns == old(wsc.ntfns) + (if recvNotified then [RecvTx(tx, Some(blk))] else [])
        invariant recvNotified ==> wsc.Unrefused()
      {
        if addrs[k] in lookups.addrs {
          lookups.unspent := lookups.unspent + {OutPoint(tx.hash, i)};
          if !recvNotified {
            assert Pays(lookups.addrs, tx.outs[i]);
            assert OutPoint(tx.hash, i) in PaidOuts(lookups.addrs, tx);
            ok := wsc.QueueNotification(RecvTx(tx, Some(blk)));
            if !ok {
              return;
            }
            recvNotified := true;
          }
        }
      }
      PaidBeforeStep(lookups.addrs, tx, i);
    }
    PaidBeforeAll(lookups.addrs, tx);
    ok := true;
  }

  method RescanTx(wsc: WsClient, lookups: RescanKeys, tx: Tx, blk: Block) returns (ok: bool)
    modifies wsc`ntfns, lookups`unspent
    ensures old(wsc.ntfns) <= wsc.ntfns <= old(wsc.ntfns) + TxNtfns(lookups.addrs, old(lookups.unspent), tx, blk)
    ensures ok ==> wsc.ntfns == old(wsc.ntfns) + TxNtfns(lookups.addrs, old(lookups.unspent), tx, blk)
    ensures ok ==> lookups.unspent == WatchAfterTx(lookups.addrs, old(lookups.unspent), tx)
    ensures !ok ==> !wsc.Unrefused()
    ensures ok ==>
              forall op :: op in lookups.unspent <==>
                || OutputPays(lookups.addrs, tx, op)
                || (op in old(lookups.unspent) && !exists txIn :: txIn in tx.ins && txIn.prev == op)
    ensures ok && (exists txIn :: txIn in tx.ins && txIn.prev in old(lookups.unspent)) && PaysOne(lookups.addrs, tx) ==>
              wsc.ntfns == old(wsc.ntfns) + [RedeemingTx(tx, Some(blk))] + [RecvTx(tx, Some(blk))]
  {
    SomeInputRedeems(lookups.addrs, lookups.unspent, tx);
    PaidOutsArePaying(lookups.addrs, tx);
    ok := RescanInputs(wsc, lookups, tx, blk);
    if ok {
      ok := RescanOutputs(wsc, lookups, tx, blk);
    }
  }

  lemma PartSent(sent: seq<Ntfn>, before: seq<Ntfn>, more: seq<Ntfn>, all: seq<Ntfn>, now: seq<Ntfn>)
    requires sent + before <= now <= sent + before + more && before + more <= all
    ensures sent <= now <= sent + all
    ensures now == sent + before + more ==> now == sent + (before + more)
  {
    assert sent + before + more == sent + (before + more);
    assert all[..|before + more|] == before + more;
    assert sent + all == sent + (before + more) + all[|before + more|..];
  }

  /** rescanBlock.  A client that stays connected gets every notification of the
      block and the unspent set is brought past the block; a client that turns out
      to be gone has got a prefix of them, and the scan stops. */
  method RescanBlock(wsc: WsClient, lookups: RescanKeys, blk: Block)
    modifies wsc`ntfns, lookups`unspent
    ensures old(wsc.ntfns) <= wsc.ntfns
            <= old(wsc.ntfns) + BlockNtfns(lookups.addrs, old(lookups.unspent), blk.txs, blk)
    ensures wsc.Unrefused() ==>
              && wsc.ntfns == old(wsc.ntfns) + BlockNtfns(lookups.addrs, old(lookups.unspent), blk.txs, blk)
              && lookups.unspent == WatchAfter(lookups.addrs, old(lookups.unspent), blk.txs)
  {
    ghost var start := lookups.unspent;
    ghost var sent := wsc.ntfns;
    for t := 0 to |blk.txs|
      invariant lookups.unspent == WatchAfter(lookups.addrs, start, blk.txs[..t])
      invariant wsc.ntfns == sent + BlockNtfns(lookups.addrs, start, blk.txs[..t], blk)
    {
      var tx := blk.txs[t];
      ghost var before := BlockNtfns(lookups.addrs, start, blk.txs[..t], blk);
      ghost var more := TxNtfns(lookups.addrs, lookups.unspent, tx, blk);
      BlockNtfnsStep(lookups.addrs, start, blk.txs, t, blk);
      var ok := RescanTx(wsc, lookups, tx, blk);
      PartSent(sent, before, more, BlockNtfns(lookups.addrs, start, blk.txs, blk), wsc.ntfns);
      if !ok {
        return;
      }
    }
    assert blk.txs[..|blk.txs|] == blk.txs;
  }

  lemma BlockNtfnsStep(addrs: set<Address>, unspent: set<OutPoint>, txs: seq<Tx>, t: nat, blk: Block)
    requires t < |txs|
    ensures BlockNtfns(addrs, unspent, txs[..t + 1], blk)
            == BlockNtfns(addrs, unspent, txs[..t], blk)
              + TxNtfns(addrs, WatchAfter(addrs, unspent, txs[..t]), txs[t], blk)
    ensures WatchAfter(addrs, unspent, txs[..t + 1])
      == WatchAfterTx(addrs, WatchAfter(addrs, unspent, txs[..t]), txs[t])
    ensures BlockNtfns(addrs, unspent, txs[..t + 1], blk) <= BlockNtfns(addrs, unspent, txs, blk)
    decreases |txs| - t
  {
    assert txs[..t + 1][..t] == txs[..t];
    if t + 1 < |txs| {
      BlockNtfnsStep(addrs, unspent, txs, t + 1, blk);
    } else {
      assert txs[..t + 1] == txs;
    }
  }
}
