// The chunked rescan that survives reorganizations (node/rpcwebsocket.go,
// scanBlockChunks, recoverFromReorg and descendantBlock).
//
// Everything the scan does not control is an observation: the best chain at the
// moment of a call, whether a block lookup fails and how, whether the client has
// quit, whether the progress ticker has fired.  A schedule is any sequence of
// observations, so a statement about every schedule is one about every run.

module RescanChunks {
  import opened Common
  import opened Wire
  import opened WsClients
  import opened Rescan

  /** "No stop block was given." */
  const MAX_INT32: nat := 0x7FFF_FFFF

  const MAX_INV_PER_MSG: nat := 50000

  datatype Fault = NoFault | BlockNotFound | OtherFault

  datatype Observation = Observation(best: seq<Hash>, fault: Fault, quit: bool, tick: bool)

  /** How a scan ends; Pending means that the schedule ran out first. */
  datatype ScanResult = Finished | ClientQuit | DatabaseError | ReorgError | Pending

  /** Hashes of consecutive blocks, each the parent of the next, from height `from`. */
  ghost predicate Segment(store: Hash -> Block, hashes: seq<Hash>, from: nat) {
    forall i | 0 <= i < |hashes| :: SegmentAt(store, hashes, from, i)
  }

  ghost predicate SegmentAt(store: Hash -> Block, hashes: seq<Hash>, from: nat, i: nat)
    requires i < |hashes|
  {
    var blk := store(hashes[i]);
    blk.hash == hashes[i] && blk.height == from + i && (i > 0 ==> blk.prev == hashes[i - 1])
  }

  ghost predicate IsMainChain(store: Hash -> Block, best: seq<Hash>) {
    best != [] && Segment(store, best, 0)
  }

  ghost predicate ChainsOk(store: Hash -> Block, schedule: seq<Observation>) {
    forall k | 0 <= k < |schedule| :: IsMainChain(store, schedule[k].best)
  }

  /** HeightRange: an atomic snapshot of main chain hashes, from `min` inclusive to
      `max` exclusive, cut at the tip. */
  function HeightRange(best: seq<Hash>, min: nat, max: nat): (hashes: seq<Hash>)
    requires min <= max
    ensures |hashes| <= max - min
  {
    if min >= |best| then [] else if max < |best| then best[min..max] else best[min..]
  }

  lemma HeightRangeIsSegment(store: Hash -> Block, best: seq<Hash>, min: nat, max: nat)
    requires IsMainChain(store, best) && min <= max
    ensures Segment(store, HeightRange(best, min, max), min)
    ensures min < |best| && min < max ==> var n := |HeightRange(best, min, max)|;
                                          && n > 0 && min + n <= |best|
                                          && HeightRange(best, min, max) == best[min..min + n]
  {
    var hashes := HeightRange(best, min, max);
    forall i | 0 <= i < |hashes|
      ensures SegmentAt(store, hashes, min, i)
    {
      assert SegmentAt(store, best, 0, min + i);
    }
  }

  /** The scanned blocks are consecutive, parent-linked and start at `from`. */
  ghost predicate Consecutive(scanned: seq<Block>, from: nat) {
    forall i | 0 <= i < |scanned| :: ConsecutiveAt(scanned, from, i)
  }

  ghost predicate ConsecutiveAt(scanned: seq<Block>, from: nat, i: nat)
    requires i < |scanned|
  {
    scanned[i].height == from + i && (i > 0 ==> scanned[i].prev == scanned[i - 1].hash)
  }

  /** The range a finished scan covers when the best chain does not change. */
  function Covered(best: seq<Hash>, minBlock: nat, maxBlock: nat): nat {
    var end := if maxBlock < |best| then maxBlock else |best|;
    if end <= minBlock then 0 else end - minBlock
  }

  lemma ConsecutiveStep(scanned: seq<Block>, from: nat, blk: Block)
    requires Consecutive(scanned, from) && blk.height == from + |scanned|
    requires scanned != [] ==> blk.prev == scanned[|scanned| - 1].hash
    ensures Consecutive(scanned + [blk], from)
  {
    forall i | 0 <= i < |scanned + [blk]|
      ensures ConsecutiveAt(scanned + [blk], from, i)
    {
      assert i < |scanned| ==> ConsecutiveAt(scanned, from, i);
    }
  }

  /** The scanned blocks are the best chain's own. */
  ghost predicate OnBest(store: Hash -> Block, best: seq<Hash>, scanned: seq<Block>, from: nat) {
    && (scanned != [] ==> from + |scanned| <= |best|)
    && forall i | 0 <= i < |scanned| :: OnBestAt(store, best, scanned, from, i)
  }

  ghost predicate OnBestAt(store: Hash -> Block, best: seq<Hash>, scanned: seq<Block>, from: nat, i: nat)
    requires i < |scanned|
  {
    from + i < |best| && scanned[i] == store(best[from + i])
  }

  lemma OnBestStep(store: Hash -> Block, best: seq<Hash>, scanned: seq<Block>, from: nat)
    requires IsMainChain(store, best) && OnBest(store, best, scanned, from) && from + |scanned| < |best|
    ensures var blk := store(best[from + |scanned|]);
            && OnBest(store, best, scanned + [blk], from)
            && (scanned != [] ==> blk.prev == scanned[|scanned| - 1].hash)
  {
    var h := from + |scanned|;
    var longer := scanned + [store(best[h])];
    forall i | 0 <= i < |longer|
      ensures OnBestAt(store, best, longer, from, i)
    {
      assert i < |scanned| ==> OnBestAt(store, best, scanned, from, i);
    }
    if scanned != [] {
      assert SegmentAt(store, best, 0, h) && SegmentAt(store, best, 0, h - 1);
      assert OnBestAt(store, best, scanned, from, |scanned| - 1);
    }
  }

  lemma OnBestTip(store: Hash -> Block, best: seq<Hash>, scanned: seq<Block>, from: nat)
    requires IsMainChain(store, best) && OnBest(store, best, scanned, from)
    requires scanned != [] && from + |scanned| == |best|
    ensures scanned[|scanned| - 1].hash == best[|best| - 1]
  {
    assert OnBestAt(store, best, scanned, from, |scanned| - 1);
    assert SegmentAt(store, best, 0, |best| - 1);
  }

  /** Each scanned block was on the best chain, and in the database, when it was looked up,
      which was observation `seen[i]`. */
  ghost predicate Witnessed(store: Hash -> Block, schedule: seq<Observation>, now: nat, from: nat,
                            scanned: seq<Block>, seen: seq<nat>)
  {
    |seen| == |scanned| && forall i | 0 <= i < |seen| :: WitnessedAt(store, schedule, now, from, scanned, seen, i)
  }

  ghost predicate WitnessedAt(store: Hash -> Block, schedule: seq<Observation>, now: nat, from: nat,
                              scanned: seq<Block>, seen: seq<nat>, i: nat)
    requires i < |seen| == |scanned|
  {
    && seen[i] < now <= |schedule| && (i > 0 ==> seen[i - 1] < seen[i])
    && schedule[seen[i]].fault == NoFault && OnBestAt(store, schedule[seen[i]].best, scanned, from, i)
  }

  lemma WitnessedStep(store: Hash -> Block, schedule: seq<Observation>, now: nat, from: nat,
                      scanned: seq<Block>, seen: seq<nat>, hash: Hash)
    requires Witnessed(store, schedule, now, from, scanned, seen) && now < |schedule|
    requires IsMainChain(store, schedule[now].best) && hash in schedule[now].best && schedule[now].fault == NoFault
    requires store(hash).height == from + |scanned|
    ensures Witnessed(store, schedule, now + 1, from, scanned + [store(hash)], seen + [now])
  {
    var best := schedule[now].best;
    var j :| 0 <= j < |best| && best[j] == hash;
    assert SegmentAt(store, best, 0, j);
    var blocks, ats, later := scanned + [store(hash)], seen + [now], now + 1;
    forall i | 0 <= i < |ats|
      ensures WitnessedAt(store, schedule, later, from, blocks, ats, i)
    {
      if i < |seen| {
        assert WitnessedAt(store, schedule, now, from, scanned, seen, i);
      } else if i > 0 {
        assert WitnessedAt(store, schedule, now, from, scanned, seen, i - 1);
      }
    }
  }

  lemma WitnessedOn(store: Hash -> Block, schedule: seq<Observation>, now: nat, later: nat, from: nat,
                    scanned: seq<Block>, seen: seq<nat>)
    requires Witnessed(store, schedule, now, from, scanned, seen) && now <= later <= |schedule|
    ensures Witnessed(store, schedule, later, from, scanned, seen)
  {
    forall i | 0 <= i < |seen|
      ensures WitnessedAt(store, schedule, later, from, scanned, seen, i)
    {
      assert WitnessedAt(store, schedule, now, from, scanned, seen, i);
    }
  }

  /** The database misses a block that is on the best chain. */
  predicate Missed(obs: Observation, hash: Hash) {
    hash in obs.best && obs.fault == BlockNotFound
  }

  /** What the loop's lookups, of `asked[k]` at observation k, have led to: a block off the
      best chain ends the scan there, and a new range was fetched exactly where the database
      missed a block of the best chain and there is no stop block; not yet at `open`. */
  ghost predicate Looked(schedule: seq<Observation>, now: nat, maxBlock: nat, asked: map<nat, Hash>,
                         recovered: set<nat>, result: ScanResult, open: set<nat>)
  {
    && now <= |schedule|
    && (forall k | k in asked :: k < now && (asked[k] in schedule[k].best || (result == DatabaseError && k == now - 1)))
    && recovered == set k | k in asked && k < now && Missed(schedule[k], asked[k]) && maxBlock == MAX_INT32
      && k !in open
  }

  /** Every scanned block was looked up by the loop, under its own hash. */
  ghost predicate AskedFor(asked: map<nat, Hash>, scanned: seq<Block>, seen: seq<nat>) {
    |seen| == |scanned| && forall i | 0 <= i < |seen| :: AskedForAt(asked, scanned, seen, i)
  }

  ghost predicate AskedForAt(asked: map<nat, Hash>, scanned: seq<Block>, seen: seq<nat>, i: nat)
    requires i < |seen| == |scanned|
  {
    seen[i] in asked && asked[seen[i]] == scanned[i].hash
  }

  lemma AskedForMore(asked: map<nat, Hash>, scanned: seq<Block>, seen: seq<nat>, now: nat, hash: Hash)
    requires AskedFor(asked, scanned, seen) && forall i | 0 <= i < |seen| :: seen[i] < now
    ensures AskedFor(asked[now := hash], scanned, seen)
  {
    var more := asked[now := hash];
    forall i | 0 <= i < |seen|
      ensures AskedForAt(more, scanned, seen, i)
    {
      assert AskedForAt(asked, scanned, seen, i);
    }
  }

  lemma AskedForStep(asked: map<nat, Hash>, scanned: seq<Block>, seen: seq<nat>, now: nat, blk: Block)
    requires AskedFor(asked, scanned, seen) && now in asked && asked[now] == blk.hash
    ensures AskedFor(asked, scanned + [blk], seen + [now])
  {
    var blocks, ats := scanned + [blk], seen + [now];
    forall i | 0 <= i < |ats|
      ensures AskedForAt(asked, blocks, ats, i)
    {
      assert i < |seen| ==> AskedForAt(asked, scanned, seen, i);
    }
  }

  function DropProgress(ntfns: seq<Ntfn>): seq<Ntfn> {
    if ntfns == [] then []
    else DropProgress(ntfns[..|ntfns| - 1]) + if ntfns[|ntfns| - 1].RescanProgress? then [] else [ntfns[|ntfns| - 1]]
  }

  lemma {:induction false} DropProgressAppend(xs: seq<Ntfn>, ys: seq<Ntfn>)
    ensures DropProgress(xs + ys) == DropProgress(xs) + DropProgress(ys)
  {
    if ys == [] {
      assert xs + ys == xs;
    } else {
      var n := |ys| - 1;
      WithoutLast(xs, ys);
      DropProgressAppend(xs, ys[..n]);
      Rejoined(DropProgress(xs), DropProgress(ys[..n]), if ys[n].RescanProgress? then [] else [ys[n]]);
    }
  }

  lemma {:induction false} DropNothing(ntfns: seq<Ntfn>)
    requires forall n | n in ntfns :: !n.RescanProgress?
    ensures DropProgress(ntfns) == ntfns
  {
    if ntfns != [] {
      DropNothing(ntfns[..|ntfns| - 1]);
    }
  }

  lemma {:induction false} NoProgressInBlock(addrs: set<Address>, unspent: set<OutPoint>, txs: seq<Tx>, blk: Block)
    ensures forall n | n in BlockNtfns(addrs, unspent, txs, blk) :: !n.RescanProgress?
  {
    if txs != [] {
      NoProgressInBlock(addrs, unspent, txs[..|txs| - 1], blk);
    }
  }

  /** What scanning `scanned` has left behind: the unspent set, and, apart from
      progress reports, the notifications. */
  ghost predicate Content(lookups: (set<Address>, set<OutPoint>), ntfns0: seq<Ntfn>, scanned: seq<Block>,
                          unspent: set<OutPoint>, ntfns: seq<Ntfn>)
  {
    && unspent == WatchAfter(lookups.0, lookups.1, AllTxs(scanned))
    && DropProgress(ntfns) == DropProgress(ntfns0) + RangeNtfns(lookups.0, lookups.1, scanned)
  }

  lemma RangeStep(addrs: set<Address>, unspent0: set<OutPoint>, scanned: seq<Block>, blk: Block)
    ensures AllTxs(scanned + [blk]) == AllTxs(scanned) + blk.txs
    ensures RangeNtfns(addrs, unspent0, scanned + [blk])
            == RangeNtfns(addrs, unspent0, scanned)
               + BlockNtfns(addrs, WatchAfter(addrs, unspent0, AllTxs(scanned)), blk.txs, blk)
  {
    assert (scanned + [blk])[..|scanned|] == scanned;
  }

  lemma DropProgressAfterBlock(addrs: set<Address>, unspent: set<OutPoint>, ntfns: seq<Ntfn>, blk: Block)
    ensures DropProgress(ntfns + BlockNtfns(addrs, unspent, blk.txs, blk))
            == DropProgress(ntfns) + BlockNtfns(addrs, unspent, blk.txs, blk)
  {
    NoProgressInBlock(addrs, unspent, blk.txs, blk);
    DropNothing(BlockNtfns(addrs, unspent, blk.txs, blk));
    DropProgressAppend(ntfns, BlockNtfns(addrs, unspent, blk.txs, blk));
  }

  lemma NtfnsAfterBlock(addrs: set<Address>, unspent0: set<OutPoint>, ntfns0: seq<Ntfn>, scanned: seq<Block>,
                        ntfns: seq<Ntfn>, blk: Block, more: seq<Ntfn>)
    requires DropProgress(ntfns) == DropProgress(ntfns0) + RangeNtfns(addrs, unspent0, scanned)
    requires more == BlockNtfns(addrs, WatchAfter(addrs, unspent0, AllTxs(scanned)), blk.txs, blk)
    ensures DropProgress(ntfns + more) == DropProgress(ntfns0) + RangeNtfns(addrs, unspent0, scanned + [blk])
  {
    RangeStep(addrs, unspent0, scanned, blk);
    Rejoined(DropProgress(ntfns0), RangeNtfns(addrs, unspent0, scanned), more);
    DropProgressAfterBlock(addrs, WatchAfter(addrs, unspent0, AllTxs(scanned)), ntfns, blk);
  }

  lemma ContentAfterBlock(lookups: (set<Address>, set<OutPoint>), ntfns0: seq<Ntfn>, scanned: seq<Block>,
                          unspent: set<OutPoint>, ntfns: seq<Ntfn>, blk: Block)
    requires Content(lookups, ntfns0, scanned, unspent, ntfns)
    ensures Content(lookups, ntfns0, scanned + [blk], WatchAfter(lookups.0, unspent, blk.txs),
                    ntfns + BlockNtfns(lookups.0, unspent, blk.txs, blk))
  {
    NtfnsAfterBlock(lookups.0, lookups.1, ntfns0, scanned, ntfns, blk, BlockNtfns(lookups.0, unspent, blk.txs, blk));
    RangeStep(lookups.0, lookups.1, scanned, blk);
    WatchAfterAppend(lookups.0, lookups.1, AllTxs(scanned), blk.txs);
  }

  lemma ContentAfterProgress(lookups: (set<Address>, set<OutPoint>), ntfns0: seq<Ntfn>, scanned: seq<Block>,
                             unspent: set<OutPoint>, ntfns: seq<Ntfn>, blk: Block)
    requires Content(lookups, ntfns0, scanned, unspent, ntfns)
    ensures Content(lookups, ntfns0, scanned, unspent, ntfns + [RescanProgress(blk)])
  {
    DropProgressAppend(ntfns, [RescanProgress(blk)]);
  }

  class Scanner {
    const store: Hash -> Block
    const schedule: seq<Observation>
    const wsc: WsClient
    const lookups: RescanKeys
    const minBlock: nat
    const maxBlock: nat

    // Progress.
    var now: nat                    // observations used up so far
    var scanned: seq<Block>         // blocks handed to rescanBlock; the last one is lastBlock
    var registered: Option<Hash>    // the best block when continuous notifications were registered

    // The observations at which they were looked up, what the loop looked up when, and after
    // which of these lookups a new range was fetched.
    ghost var seen: seq<nat>
    ghost var asked: map<nat, Hash>
    ghost var recovered: set<nat>

    // The keys and the client's notifications as the scan found them.
    ghost const unspent0: set<OutPoint>
    ghost const ntfns0: seq<Ntfn>

    /** The reorganization safety of the scan so far. */
    ghost predicate Linked()
      reads this
    {
      && now <= |schedule|
      && Consecutive(scanned, minBlock)
      && (scanned != [] ==> minBlock + |scanned| <= maxBlock)
      && (registered.Some? ==> maxBlock == MAX_INT32
                               && (scanned == [] || scanned[|scanned| - 1].hash == registered.value))
    }

    /** Where its blocks come from, and what its lookups led to. */
    ghost predicate Grounded(result: ScanResult, open: set<nat>)
      reads this
    {
      && Witnessed(store, schedule, now, minBlock, scanned, seen) && AskedFor(asked, scanned, seen)
      && Looked(schedule, now, maxBlock, asked, recovered, result, open)
    }

    /** The client is registered only while the last scanned block, if there is one, is the tip
        of the best chain. */
    ghost predicate RegisteredAtTip()
      reads this`registered, this`now
    {
      registered.Some? ==>
        && 0 < now <= |schedule| && schedule[now - 1].best != []
        && registered.value == schedule[now - 1].best[|schedule[now - 1].best| - 1]
    }

    /** At observation k the best chain had no block after the scanned ones. */
    ghost predicate NoneLeft(k: int)
      reads this`scanned
    {
      0 <= k < |schedule| && |schedule[k].best| <= minBlock + |scanned|
    }

    /** What recovery fetched, as its second observation, the last one, followed. */
    ghost function Refetched(): seq<Hash>
      reads this`now, this`scanned
    {
      if 1 < now <= |schedule| && minBlock + |scanned| <= maxBlock
      then HeightRange(schedule[now - 2].best, minBlock + |scanned|, maxBlock) else []
    }

    /** The last observation was recovery's lookup of the first block it fetched. */
    ghost predicate Rechecked()
      reads this`now, this`scanned, this`recovered
    {
      2 < now <= |schedule| && now - 3 in recovered && scanned != [] && Refetched() != []
    }

    /** The last observation was the loop's own lookup. */
    ghost predicate LastAsked()
      reads this`now, this`asked
    {
      0 < now <= |schedule| && now - 1 in asked
    }

    /** Why the scan ends the way it does, in terms of the last observations. */
    ghost predicate Explained(result: ScanResult)
      reads this, wsc
    {
      match result
      case Finished =>
        maxBlock <= minBlock + |scanned| || NoneLeft(now - 1) || (registered.Some? && NoneLeft(now - 2))
      case Pending => now == |schedule|
      case ClientQuit => 0 < now <= |schedule| && (schedule[now - 1].quit || !wsc.Connected())
      case DatabaseError =>
        || (LastAsked() && (asked[now - 1] !in schedule[now - 1].best || schedule[now - 1].fault == OtherFault))
        || (Rechecked() && (Refetched()[0] !in schedule[now - 1].best || schedule[now - 1].fault != NoFault))
      case ReorgError =>
        || (LastAsked() && Missed(schedule[now - 1], asked[now - 1]) && maxBlock != MAX_INT32)
        || (LastAsked() && scanned != [] && schedule[now - 1].fault == NoFault
            && store(asked[now - 1]).prev != scanned[|scanned| - 1].hash)
        || (Rechecked() && Refetched()[0] in schedule[now - 1].best && schedule[now - 1].fault == NoFault
            && store(Refetched()[0]).prev != scanned[|scanned| - 1].hash)
    }

    ghost predicate Start(start: (set<Address>, set<OutPoint>)) {
      start == (lookups.addrs, unspent0)
    }

    /** What it has reported and learned, seen from where it started. */
    ghost predicate Reported()
      reads this`scanned, wsc, lookups
    {
      wsc.Unrefused() ==> forall start | Start(start) :: Content(start, ntfns0, scanned, lookups.unspent, wsc.ntfns)
    }

    /** Nothing goes wrong and the best chain is always `best`. */
    ghost predicate Quiet(best: seq<Hash>) {
      && wsc.quitAfter.None? && IsMainChain(store, best)
      && forall k | 0 <= k < |schedule| :: schedule[k].best == best && schedule[k].fault == NoFault && !schedule[k].quit
    }

    constructor (store: Hash -> Block, schedule: seq<Observation>, wsc: WsClient, lookups: RescanKeys,
                 minBlock: nat, maxBlock: nat)
      requires ChainsOk(store, schedule)
      ensures Linked() && Reported() && scanned == [] && now == 0 && registered == None
      ensures Grounded(Finished, {}) && asked == map[]
      ensures this.store == store && this.schedule == schedule && this.wsc == wsc && this.lookups == lookups
      ensures this.minBlock == minBlock && this.maxBlock == maxBlock
      ensures unspent0 == lookups.unspent && ntfns0 == wsc.ntfns
    {
      this.store, this.schedule, this.wsc, this.lookups := store, schedule, wsc, lookups;
      this.minBlock, this.maxBlock := minBlock, maxBlock;
      now, scanned, registered := 0, [], None;
      seen, asked, recovered := [], map[], {};
      unspent0, ntfns0 := lookups.unspent, wsc.ntfns;
      new;
      assert AllTxs([]) == [] && RangeNtfns(lookups.addrs, unspent0, []) == [];
    }

    /** The next observation, if the schedule has one. */
    method Observe() returns (obs: Option<Observation>)
      requires now <= |schedule|
      modifies this`now
      ensures now <= |schedule|
      ensures obs.None? ==> now == old(now) == |schedule|
      ensures obs.Some? ==> now == old(now) + 1 && obs.value == schedule[old(now)]
    {
      if now == |schedule| {
        return None;
      }
      obs := Some(schedule[now]);
      now := now + 1;
    }

    /** The select before a block, the rescan itself, and the progress report.
        False when the client turns out to have quit. */
    method ScanBlock(blk: Block, obs: Observation) returns (ok: bool)
      requires Reported()
      modifies this`scanned, wsc`ntfns, lookups`unspent
      ensures Reported()
      ensures scanned == old(scanned) || scanned == old(scanned) + [blk]
      ensures scanned == old(scanned) + [blk] <==> !obs.quit && old(wsc.Connected())
      ensures ok <==> !obs.quit && old(wsc.Connected()) && (obs.tick ==> wsc.Unrefused())
      ensures !ok ==> obs.quit || !wsc.Connected()
      ensures !obs.quit && old(wsc.Connected()) && obs.tick ==>
                wsc.ntfns != [] && wsc.ntfns[|wsc.ntfns| - 1] == RescanProgress(blk)
    {
      if obs.quit || !wsc.Connected() {
        return false;
      }
      assert Start((lookups.addrs, unspent0));
      ContentAfterBlock((lookups.addrs, unspent0), ntfns0, scanned, lookups.unspent, wsc.ntfns, blk);
      RescanBlock(wsc, lookups, blk);
      scanned := scanned + [blk];
      ok := true;
      if obs.tick {
        if wsc.Connected() {
          ContentAfterProgress((lookups.addrs, unspent0), ntfns0, scanned, lookups.unspent, wsc.ntfns, blk);
        }
        ok := wsc.QueueNotification(RescanProgress(blk));
      }
    }

    /** The lookup of a fresh range's first block, and descendantBlock. */
    method CheckDescendant(hash: Hash) returns (result: ScanResult)
      requires scanned != [] && Grounded(Finished, {})
      modifies this`now
      ensures Grounded(result, {}) && old(now) <= now
      ensures old(now) == |schedule| ==> result == Pending && now == old(now)
      ensures old(now) < |schedule| ==>
        && now == old(now) + 1
        && (result == DatabaseError <==> hash !in schedule[old(now)].best || schedule[old(now)].fault != NoFault)
        && (result == Finished ==> store(hash).prev == scanned[|scanned| - 1].hash)
        && (result == ReorgError ==> store(hash).prev != scanned[|scanned| - 1].hash)
        && (result == DatabaseError || result == Finished || result == ReorgError)
    {
      var obs := Observe();
      if obs.None? {
        return Pending;
      }
      WitnessedOn(store, schedule, old(now), now, minBlock, scanned, seen);
      if hash !in obs.value.best || obs.value.fault != NoFault {
        return DatabaseError;
      }
      return if store(hash).prev != scanned[|scanned| - 1].hash then ReorgError else Finished;
    }

    /** The fresh range of a recovery. */
    method FetchAgain(from: nat) returns (hashes: Option<seq<Hash>>)
      requires ChainsOk(store, schedule) && from == minBlock + |scanned| <= maxBlock
      requires 0 < now && Grounded(Finished, {now - 1})
      requires maxBlock == MAX_INT32 && now - 1 in asked && Missed(schedule[now - 1], asked[now - 1])
      modifies this`now, this`recovered
      ensures Grounded(Finished, {}) && old(now) - 1 in recovered
      ensures hashes.None? ==> now == old(now) == |schedule|
      ensures hashes.Some? ==>
        && now == old(now) + 1 && hashes.value == HeightRange(schedule[old(now)].best, from, maxBlock)
        && Segment(store, hashes.value, from) && |hashes.value| <= maxBlock - from
    {
      recovered := recovered + {now - 1};
      var obs := Observe();
      if obs.None? {
        return None;
      }
      WitnessedOn(store, schedule, old(now), now, minBlock, scanned, seen);
      HeightRangeIsSegment(store, obs.value.best, from, maxBlock);
      return Some(HeightRange(obs.value.best, from, maxBlock));
    }

    /** recoverFromReorg: a fresh range, accepted only if it continues the last
        scanned block. */
    method RecoverFromReorg(from: nat) returns (result: ScanResult, hashes: seq<Hash>)
      requires ChainsOk(store, schedule) && Linked() && from == minBlock + |scanned| <= maxBlock
      requires 0 < now && Grounded(Finished, {now - 1})
      requires maxBlock == MAX_INT32 && now - 1 in asked && Missed(schedule[now - 1], asked[now - 1])
      modifies this`now, this`recovered
      ensures Linked() && Grounded(result, {}) && old(now) <= now && result != ClientQuit
      ensures result != Finished || hashes == [] ==> Explained(result)
      ensures result == Finished ==> old(now) < now && Segment(store, hashes, from) && |hashes| <= maxBlock - from
      ensures result != Finished ==> hashes == []
      // The range is the best chain's of the moment, and where something was scanned before,
      // its first block was looked up and is a child of the last one.
      ensures result == Finished ==> hashes == HeightRange(schedule[old(now)].best, from, maxBlock)
      ensures result == Finished && scanned != [] && hashes != [] ==>
        && store(hashes[0]).prev == scanned[|scanned| - 1].hash
        && now == old(now) + 2 && hashes[0] in schedule[now - 1].best && schedule[now - 1].fault == NoFault
      // A reorganization is the answer exactly if that block is found and is no such child.
      ensures result == ReorgError <==>
        && scanned != [] && now == old(now) + 2
        && var range := HeightRange(schedule[old(now)].best, from, maxBlock);
        && range != [] && range[0] in schedule[now - 1].best && schedule[now - 1].fault == NoFault
        && store(range[0]).prev != scanned[|scanned| - 1].hash
    {
      var fetched := FetchAgain(from);
      if fetched.None? {
        return Pending, [];
      }
      hashes := fetched.value;
      if scanned == [] || hashes == [] {
        return Finished, hashes;
      }
      result := CheckDescendant(hashes[0]);
      if result != Finished {
        hashes := [];
      }
    }

    lemma SeenBefore(at: nat)
      requires Witnessed(store, schedule, at, minBlock, scanned, seen)
      ensures forall i | 0 <= i < |seen| :: seen[i] < at
    {
      forall i | 0 <= i < |seen|
        ensures seen[i] < at
      {
        assert WitnessedAt(store, schedule, at, minBlock, scanned, seen, i);
      }
    }

    /** BlockByHash, with the scan's reading of its errors.  A block off the best chain is
        not found for a reason that is not the database's, and ends the scan like any other
        failure; a block the database misses ends it unless there is no stop block. */
    method LookUp(hash: Hash) returns (result: ScanResult, missing: bool, obs: Observation)
      requires Grounded(Finished, {})
      modifies this`now, this`asked
      ensures old(now) <= now <= |schedule| && result != ClientQuit
      ensures old(now) == |schedule| ==> result == Pending && now == old(now) && !missing
      ensures old(now) < |schedule| ==>
                && result != Pending && now == old(now) + 1 && obs == schedule[old(now)]
                && asked == old(asked)[old(now) := hash]
      ensures result == Finished ==> hash in obs.best && obs.fault == if missing then BlockNotFound else NoFault
      ensures missing <==> now > old(now) && Missed(obs, hash) && maxBlock == MAX_INT32
      ensures missing ==> result == Finished
      ensures now > old(now) && hash in obs.best && obs.fault == NoFault ==> result == Finished
      ensures result == DatabaseError <==> now > old(now) && (hash !in obs.best || obs.fault == OtherFault)
      ensures Witnessed(store, schedule, old(now), minBlock, scanned, seen)
      ensures Grounded(result, if missing then {now - 1} else {})
    {
      missing := false;
      var next := Observe();
      if next.None? {
        return Pending, false, Observation([], OtherFault, false, false);
      }
      obs := next.value;
      SeenBefore(old(now));
      AskedForMore(asked, scanned, seen, old(now), hash);
      asked := asked[old(now) := hash];
      WitnessedOn(store, schedule, old(now), now, minBlock, scanned, seen);
      if hash !in obs.best {
        result := DatabaseError;
      } else if obs.fault == NoFault {
        result := Finished;
      } else if obs.fault == BlockNotFound {
        missing := maxBlock == MAX_INT32;
        result := if missing then Finished else ReorgError;
      } else {
        result := DatabaseError;
      }
    }

    /** A block that was found.  The first block of a list must turn out to be a child of the
        last scanned one. */
    method ScanFound(hash: Hash, first: bool, obs: Observation) returns (result: ScanResult)
      requires ChainsOk(store, schedule) && Linked() && Reported() && Grounded(Finished, {}) && registered.None?
      requires store(hash).hash == hash && store(hash).height == minBlock + |scanned| < maxBlock
      requires !first ==> scanned != [] && store(hash).prev == scanned[|scanned| - 1].hash
      requires LastAsked() && asked[now - 1] == hash && obs == schedule[now - 1]
      requires hash in obs.best && obs.fault == NoFault
      requires Witnessed(store, schedule, now - 1, minBlock, scanned, seen)
      modifies this`scanned, this`seen, wsc`ntfns, lookups`unspent
      ensures Linked() && Reported() && Grounded(result, {})
      ensures result == Finished || result == ClientQuit || result == ReorgError
      ensures result == Finished ==> scanned == old(scanned) + [store(hash)]
      ensures result != Finished ==> Explained(result)
      ensures wsc.quitAfter.None? && !obs.quit
                && (old(scanned) != [] ==> store(hash).prev == old(scanned)[|old(scanned)| - 1].hash) ==>
                  result == Finished
    {
      var blk := store(hash);
      if first && scanned != [] && blk.prev != scanned[|scanned| - 1].hash {
        return ReorgError;
      }
      ConsecutiveStep(scanned, minBlock, blk);
      WitnessedStep(store, schedule, now - 1, minBlock, scanned, seen, hash);
      AskedForStep(asked, scanned, seen, now - 1, blk);
      var ok := ScanBlock(blk, obs);
      if scanned != old(scanned) {
        seen := seen + [now - 1];
      }
      result := if ok then Finished else ClientQuit;
    }

    /** One block of a list. */
    method ScanAt(hash: Hash, first: bool, ghost best: seq<Hash>, ghost quiet: bool)
      returns (result: ScanResult, missing: bool)
      requires ChainsOk(store, schedule) && Linked() && Reported() && Grounded(Finished, {}) && registered.None?
      requires store(hash).hash == hash && store(hash).height == minBlock + |scanned| < maxBlock
      requires !first ==> scanned != [] && store(hash).prev == scanned[|scanned| - 1].hash
      requires quiet ==> && Quiet(best) && OnBest(store, best, scanned, minBlock)
                         && minBlock + |scanned| < |best| && hash == best[minBlock + |scanned|]
      modifies this`now, this`scanned, this`seen, this`asked, wsc`ntfns, lookups`unspent
      ensures Linked() && Reported() && old(now) <= now
      ensures result == Finished
        ==> old(now) < now && (if missing then scanned == old(scanned) else scanned == old(scanned) + [store(hash)])
      ensures missing ==> result == Finished && now - 1 in asked && Missed(schedule[now - 1], asked[now - 1])
      ensures Grounded(result, if missing then {now - 1} else {})
      ensures missing ==> maxBlock == MAX_INT32
      ensures result != Finished ==> Explained(result)
      ensures result == Finished ==> now == old(now) + 1
      ensures old(now) < |schedule| ==> (missing <==> Missed(schedule[old(now)], hash) && maxBlock == MAX_INT32)
      ensures quiet ==> && OnBest(store, best, scanned, minBlock) && !missing
                        && (if result == Pending then now == old(now) == |schedule| && scanned == old(scanned)
                            else result == Finished && now == old(now) + 1)
    {
      if quiet {
        OnBestStep(store, best, scanned, minBlock);
      }
      var obs;
      result, missing, obs := LookUp(hash);
      if result != Finished || missing {
        return;
      }
      result := ScanFound(hash, first, obs);
    }

    /** Where the inner loop stands: at index `i` of a list that starts at height
        `first`, and past everything before. */
    ghost predicate AtHash(hashes: seq<Hash>, first: nat, i: nat)
      reads this`scanned
    {
      && i <= |hashes| && Segment(store, hashes, first)
      && first + |hashes| <= maxBlock && first + i == minBlock + |scanned|
      && (i > 0 ==> scanned != [] && scanned[|scanned| - 1].hash == hashes[i - 1])
    }

    /** One turn of the inner loop: one more block, or a new list after a
        reorganization. */
    method ScanNext(hashes: seq<Hash>, first: nat, i: nat, ghost best: seq<Hash>, ghost quiet: bool)
      returns (result: ScanResult, hashes': seq<Hash>, first': nat, i': nat)
      requires ChainsOk(store, schedule) && Linked() && Reported() && Grounded(Finished, {}) && registered.None?
      requires AtHash(hashes, first, i) && i < |hashes|
      requires quiet ==> && Quiet(best) && OnBest(store, best, scanned, minBlock)
                         && minBlock + |scanned| < |best| && hashes[i] == best[minBlock + |scanned|]
      modifies this`now, this`scanned, this`seen, this`asked, this`recovered, wsc`ntfns, lookups`unspent
      ensures Linked() && Reported() && Grounded(result, {}) && old(now) <= now
      ensures result == Finished ==> old(now) < now && AtHash(hashes', first', i')
      ensures result != Finished || hashes' == [] ==> Explained(result)
      // The scan goes on with the next block, or with the range that recovery has fetched.
      ensures result == Finished && !(Missed(schedule[old(now)], hashes[i]) && maxBlock == MAX_INT32) ==>
                && hashes' == hashes && first' == first && i' == i + 1 && scanned == old(scanned) + [store(hashes[i])]
      ensures result == Finished && Missed(schedule[old(now)], hashes[i]) && maxBlock == MAX_INT32 ==>
                && old(now) + 1 < |schedule| && first' == minBlock + |scanned| <= maxBlock && i' == 0
                && hashes' == HeightRange(schedule[old(now) + 1].best, first', maxBlock) && scanned == old(scanned)
      ensures quiet ==> && OnBest(store, best, scanned, minBlock) && hashes' == hashes && first' == first
                        && (if result == Pending
                            then now == old(now) == |schedule| && scanned == old(scanned) && i' == i
                            else result == Finished && now == old(now) + 1 && i' == i + 1)
    {
      assert SegmentAt(store, hashes, first, i);
      hashes', first', i' := hashes, first, i;
      var missing;
      result, missing := ScanAt(hashes[i], i == 0, best, quiet);
      if result == Finished {
        if missing {
          first' := first + i;
          result, hashes' := RecoverFromReorg(first');
          i' := 0;
        } else {
          i' := i + 1;
        }
      }
    }

    /** The inner loop over one list of hashes, restarted with a new list after a
        reorganization.  `more` is false when the whole scan is over.  `quiet` says
        that the chain is known not to change. */
    method ScanHashList(hashList: seq<Hash>, from: nat, ghost best: seq<Hash>, ghost quiet: bool)
      returns (result: ScanResult, more: bool)
      requires ChainsOk(store, schedule) && Linked() && Reported() && Grounded(Finished, {}) && registered.None?
      requires hashList != [] && AtHash(hashList, from, 0)
      requires quiet ==> Quiet(best) && OnBest(store, best, scanned, minBlock) && from + |hashList| <= |best|
                         && hashList == best[from..from + |hashList|]
      modifies this`now, this`scanned, this`seen, this`asked, this`recovered, wsc`ntfns, lookups`unspent
      ensures Linked() && Reported() && Grounded(result, {}) && old(now) <= now
      ensures more ==> result == Finished && old(now) < now && minBlock + |scanned| <= maxBlock
      ensures !more ==> Explained(result)
      ensures quiet ==> && OnBest(store, best, scanned, minBlock) && now == old(now) + |scanned| - |old(scanned)|
                        && (if more then |scanned| == |old(scanned)| + |hashList|
                            else result == Pending && now == |schedule| && |scanned| < |old(scanned)| + |hashList|)
    {
      var hashes, first: nat, i: nat := hashList, from, 0;
      result := Finished;
      while result == Finished && i < |hashes|
        invariant Linked() && Reported() && Grounded(result, {}) && old(now) <= now
        invariant result == Finished ==> AtHash(hashes, first, i) && ((hashes != [] && i == 0) || old(now) < now)
        invariant quiet ==>
                            && OnBest(store, best, scanned, minBlock)
                            && hashes == hashList && first == from && i <= |hashes|
                            && minBlock + |scanned| == from + i && now == old(now) + i
        invariant result != Finished || hashes == [] ==> Explained(result)
        invariant quiet && result != Finished ==> result == Pending && now == |schedule| && i < |hashes|
        decreases result == Finished, |schedule| - now
      {
        result, hashes, first, i := ScanNext(hashes, first, i, best, quiet);
      }
      more := result == Finished && hashes != [];
    }

    /** What happens when there are no blocks at height `from` or above. */
    method CatchUp() returns (result: ScanResult, again: bool)
      requires ChainsOk(store, schedule) && Linked() && Grounded(Finished, {}) && registered.None?
      requires NoneLeft(now - 1)
      modifies this`now, this`registered
      ensures Linked() && Grounded(result, {}) && old(now) <= now <= old(now) + 1
      ensures RegisteredAtTip() && (!again ==> Explained(result))
      ensures registered.Some? ==> result == Finished && !again
      ensures again ==> result == Finished && old(now) < now && maxBlock == MAX_INT32
      ensures !again && result == Finished && maxBlock == MAX_INT32 ==> registered.Some?
      ensures result == Finished || (result == Pending && now == old(now) == |schedule|)
      ensures again ==> scanned != [] && schedule[old(now)].best != []
                        && scanned[|scanned| - 1].hash != schedule[old(now)].best[|schedule[old(now)].best| - 1]
    {
      if maxBlock != MAX_INT32 {
        return Finished, false;
      }
      var obs := Observe();
      if obs.None? {
        return Pending, false;
      }
      WitnessedOn(store, schedule, old(now), now, minBlock, scanned, seen);
      var tip := obs.value.best[|obs.value.best| - 1];
      again := scanned != [] && scanned[|scanned| - 1].hash != tip;
      if !again {
        registered := Some(tip);
      }
      return Finished, again;
    }

    /** One turn of the outer loop.  `more` is false when the scan is over. */
    method ScanChunk(from: nat, ghost best: seq<Hash>, ghost quiet: bool) returns (result: ScanResult, more: bool)
      requires ChainsOk(store, schedule) && Linked() && Reported() && Grounded(Finished, {}) && registered.None?
      requires from == minBlock + |scanned| < maxBlock
      requires quiet ==> Quiet(best) && OnBest(store, best, scanned, minBlock)
      modifies this, wsc`ntfns, lookups`unspent
      ensures Linked() && Reported() && Grounded(result, {}) && old(now) <= now
      ensures more ==> result == Finished && registered.None? && old(now) < now && minBlock + |scanned| <= maxBlock
      ensures RegisteredAtTip() && (!more ==> Explained(result))
      ensures registered.Some? ==> result == Finished && !more
      ensures quiet
        ==> OnBest(store, best, scanned, minBlock) && (result == Finished || (result == Pending && now == |schedule|))
      ensures quiet && from < |best| ==>
                && |old(scanned)| <= |scanned| && now <= old(now) + 1 + |scanned| - |old(scanned)|
                && (if more then |old(scanned)| < |scanned|
                    else result == Pending && minBlock + |scanned| < |best| && minBlock + |scanned| < maxBlock)
      ensures quiet && from >= |best| ==>
                && !more && scanned == old(scanned) && (result == Pending ==> now < old(now) + 2)
                && (result == Finished && maxBlock == MAX_INT32 ==> registered.Some?)
    {
      var maxLoopBlock := if maxBlock - from > MAX_INV_PER_MSG then from + MAX_INV_PER_MSG else maxBlock;
      var obs := Observe();
      if obs.None? {
        return Pending, false;
      }
      WitnessedOn(store, schedule, old(now), now, minBlock, scanned, seen);
      HeightRangeIsSegment(store, obs.value.best, from, maxLoopBlock);
      var hashList := HeightRange(obs.value.best, from, maxLoopBlock);
      if hashList != [] {
        result, more := ScanHashList(hashList, from, best, quiet);
      } else {
        if quiet && scanned != [] {
          OnBestTip(store, best, scanned, minBlock);
        }
        result, more := CatchUp();
      }
    }

    /** The outer loop. */
    method ScanToEnd(ghost best: seq<Hash>) returns (result: ScanResult)
      requires ChainsOk(store, schedule) && Linked() && Reported() && Grounded(Finished, {})
      requires scanned == [] && now == 0 && registered == None
      modifies this, wsc`ntfns, lookups`unspent
      ensures Linked() && Reported() && Grounded(result, {})
      ensures RegisteredAtTip() && Explained(result)
      ensures registered.Some? ==> result == Finished
      ensures Quiet(best) ==>
                && (result == Finished || result == Pending)
                && OnBest(store, best, scanned, minBlock) && |scanned| <= Covered(best, minBlock, maxBlock)
                && (result == Finished ==> |scanned| == Covered(best, minBlock, maxBlock))
                && (result == Finished && maxBlock == MAX_INT32 && |best| < maxBlock && minBlock < maxBlock ==>
                      registered.Some?)
                && (|schedule| >= 2 * Covered(best, minBlock, maxBlock) + 2 ==> result == Finished)
    {
      var from := minBlock;
      while from < maxBlock
        invariant Linked() && Reported() && Grounded(Finished, {}) && registered.None?
        invariant from == minBlock + |scanned| && (scanned != [] ==> from <= maxBlock)
        invariant Quiet(best) ==> OnBest(store, best, scanned, minBlock) && now <= 2 * |scanned|
        decreases |schedule| - now
      {
        var more;
        result, more := ScanChunk(from, best, Quiet(best));
        if !more {
          return;
        }
        from := minBlock + |scanned|;
      }
      return Finished;
    }

    /** scanBlockChunks.  The blocks handed to rescanBlock are always consecutive
        and parent-linked, and the client is registered for continuous notifications
        only from the block the scan has reached. */
    method ScanBlockChunks(ghost best: seq<Hash>) returns (result: ScanResult)
      requires ChainsOk(store, schedule) && Linked() && Reported() && Grounded(Finished, {})
      requires scanned == [] && now == 0 && registered == None
      modifies this, wsc`ntfns, lookups`unspent
      ensures Consecutive(scanned, minBlock) && (scanned != [] ==> minBlock + |scanned| <= maxBlock)
      ensures registered.Some? ==> result == Finished && maxBlock == MAX_INT32
                                   && (scanned == [] || scanned[|scanned| - 1].hash == registered.value)
      // The client is registered at the tip that the best chain has at that moment.
      ensures registered.Some? ==>
                && 0 < now <= |schedule| && schedule[now - 1].best != []
                && registered.value == schedule[now - 1].best[|schedule[now - 1].best| - 1]
      // A scan that succeeds has reached its stop height or the end of a best chain, and one
      // that fails does so for the reason it gives.
      ensures Explained(result)
      // Every scanned block was on the best chain when it was looked up, in this order.
      ensures Witnessed(store, schedule, now, minBlock, scanned, seen) && AskedFor(asked, scanned, seen)
      // A lookup that meets a reorganized block ends the scan with an error, and a new
      // range is fetched exactly after those that the database failed for a block of the
      // best chain.
      ensures forall k | k in asked ::
                k < |schedule| && (asked[k] in schedule[k].best || (result == DatabaseError && k == now - 1))
      ensures forall k :: k in recovered <==>
                k in asked && k < |schedule| && Missed(schedule[k], asked[k]) && maxBlock == MAX_INT32
      // However the range was chunked, a client that accepted everything has got
      // the notifications of the scanned blocks in order, and the keys hold the
      // unspent set those blocks leave.
      ensures wsc.Unrefused() ==> lookups.unspent == WatchAfter(lookups.addrs, unspent0, AllTxs(scanned))
      ensures wsc.Unrefused() ==>
                DropProgress(wsc.ntfns) == DropProgress(ntfns0) + RangeNtfns(lookups.addrs, unspent0, scanned)
      // On an unchanging chain the scan cannot fail, covers exactly the range it was
      // asked for, registers if no stop block was given, and needs at most two
      // observations per block.
      ensures Quiet(best) ==>
                && (result == Finished || result == Pending)
                && OnBest(store, best, scanned, minBlock) && |scanned| <= Covered(best, minBlock, maxBlock)
                && (result == Finished ==> |scanned| == Covered(best, minBlock, maxBlock))
                && (result == Finished && maxBlock == MAX_INT32 && |best| < maxBlock && minBlock < maxBlock ==>
                      registered.Some?)
                && (|schedule| >= 2 * Covered(best, minBlock, maxBlock) + 2 ==> result == Finished)
    {
      result := ScanToEnd(best);
      assert Start((lookups.addrs, unspent0));
    }
  }
}
