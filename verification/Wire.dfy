// Blocks, transactions and the watch-set arithmetic every scanner shares.

module Wire {
  import opened Common

  type Hash = int

  /** The hash no real block or transaction has. */
  const ZERO_HASH: Hash := 0

  /** An address in its encoded form. */
  datatype Address = Address(encoded: string)

  datatype OutPoint = OutPoint(hash: Hash, index: nat)

  /** The previous output a coinbase input names: zero hash, largest uint32. */
  const NULL_OUTPOINT := OutPoint(ZERO_HASH, 0xFFFF_FFFF)

  /** An input: the output it spends, and the address recomputed from its
      signature script and witness when that is possible. */
  datatype TxIn = TxIn(prev: OutPoint, payer: Option<Address>)

  /** An output: the addresses its script pays (none for a nonstandard script). */
  datatype TxOut = TxOut(value: int, addrs: seq<Address>)

  datatype Tx = Tx(hash: Hash, ins: seq<TxIn>, outs: seq<TxOut>)

  datatype Block = Block(hash: Hash, prev: Hash, height: nat, txs: seq<Tx>)

  predicate IsCoinBase(tx: Tx) {
    |tx.ins| == 1 && tx.ins[0].prev == NULL_OUTPOINT
  }

  /** Every outpoint the transaction spends. */
  function Prevs(tx: Tx): set<OutPoint> {
    set i | 0 <= i < |tx.ins| :: tx.ins[i].prev
  }

  predicate Pays(addrs: set<Address>, out: TxOut) {
    exists a :: a in out.addrs && a in addrs
  }

  /** The transaction's own outpoints that pay one of `addrs`. */
  function PaidOuts(addrs: set<Address>, tx: Tx): set<OutPoint> {
    set i | 0 <= i < |tx.outs| && Pays(addrs, tx.outs[i]) :: OutPoint(tx.hash, i)
  }

  /** The same for the outputs before index n. */
  ghost function PaidBefore(addrs: set<Address>, tx: Tx, n: nat): set<OutPoint>
    requires n <= |tx.outs|
  {
    set i | 0 <= i < n && Pays(addrs, tx.outs[i]) :: OutPoint(tx.hash, i)
  }

  lemma PaidBeforeStep(addrs: set<Address>, tx: Tx, n: nat)
    requires n < |tx.outs|
    ensures PaidBefore(addrs, tx, n + 1)
            == PaidBefore(addrs, tx, n) + if Pays(addrs, tx.outs[n]) then {OutPoint(tx.hash, n)} else {}
  {
  }

  lemma PaidBeforeAll(addrs: set<Address>, tx: Tx)
    ensures PaidBefore(addrs, tx, |tx.outs|) == PaidOuts(addrs, tx)
  {
  }

  /** Every outpoint spent before input n. */
  ghost function PrevsBefore(tx: Tx, n: nat): set<OutPoint>
    requires n <= |tx.ins|
  {
    set i | 0 <= i < n :: tx.ins[i].prev
  }

  /** The outpoint is an output of the transaction that pays one of `addrs`. */
  ghost predicate OutputPays(addrs: set<Address>, tx: Tx, op: OutPoint) {
    op.hash == tx.hash && op.index < |tx.outs| && exists a :: a in addrs && a in tx.outs[op.index].addrs
  }

  /** Some output pays one of them. */
  ghost predicate PaysOne(addrs: set<Address>, tx: Tx) {
    exists out, a :: out in tx.outs && a in addrs && a in out.addrs
  }

  lemma PaidOutsArePaying(addrs: set<Address>, tx: Tx)
    ensures forall op :: op in PaidOuts(addrs, tx) <==> OutputPays(addrs, tx, op)
    ensures PaidOuts(addrs, tx) != {} <==> PaysOne(addrs, tx)
  {
    forall op
      ensures op in PaidOuts(addrs, tx) <==> OutputPays(addrs, tx, op)
    {
      assert OutputPays(addrs, tx, op) ==> Pays(addrs, tx.outs[op.index]);
    }
    if PaysOne(addrs, tx) {
      var out, a :| out in tx.outs && a in addrs && a in out.addrs;
      var i :| 0 <= i < |tx.outs| && tx.outs[i] == out;
      assert OutputPays(addrs, tx, OutPoint(tx.hash, i));
    }
    if op :| op in PaidOuts(addrs, tx) {
      assert tx.outs[op.index] in tx.outs;
    }
  }

  lemma PrevsAreSpent(tx: Tx)
    ensures forall op :: op in Prevs(tx) <==> exists txIn :: txIn in tx.ins && txIn.prev == op
  {
  }

  /** A watch set after one transaction: what it spends leaves, what it pays to a
      watched address enters. */
  function WatchAfterTx(addrs: set<Address>, watched: set<OutPoint>, tx: Tx): set<OutPoint> {
    (watched - Prevs(tx)) + PaidOuts(addrs, tx)
  }

  /** A watch set after a run of transactions, in order. */
  function WatchAfter(addrs: set<Address>, watched: set<OutPoint>, txs: seq<Tx>): set<OutPoint> {
    if txs == [] then watched
    else WatchAfterTx(addrs, WatchAfter(addrs, watched, txs[..|txs| - 1]), txs[|txs| - 1])
  }

  lemma {:induction false} WatchAfterAppend(addrs: set<Address>, watched: set<OutPoint>, xs: seq<Tx>, ys: seq<Tx>)
    ensures WatchAfter(addrs, watched, xs + ys) == WatchAfter(addrs, WatchAfter(addrs, watched, xs), ys)
  {
    if ys == [] {
      assert xs + ys == xs;
    } else {
      var n := |ys| - 1;
      WatchAfterAppend(addrs, watched, xs, ys[..n]);
      assert (xs + ys)[..|xs + ys| - 1] == xs + ys[..n];
    }
  }
}
