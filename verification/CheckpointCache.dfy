// The cfcheckpt response cache (node/server.go, OnGetCFCheckpt; BIP 157).
//
// The cache is one slice: a backing array and a length.  Growing it reuses the
// backing array while there is spare capacity, so writes made on behalf of one
// request can show through the slice stored by an earlier one.

module CheckpointCache {
  import opened Common
  import opened Wire
  import opened BlockTree

  type Header = int

  datatype CfHeaderKV = CfHeaderKV(blockHash: Hash, filterHeader: Header)

  const EMPTY_KV := CfHeaderKV(ZERO_HASH, 0)

  /** Distance between two filter checkpoints, fixed by BIP 157. */
  const CF_CHECKPT_INTERVAL: nat := 1000

  function Checkpoints(stop: BlockNode): seq<Hash> {
    IntervalHashes(stop, CF_CHECKPT_INTERVAL)
  }

  function Entry(headerOf: Hash -> Header, hash: Hash): CfHeaderKV {
    CfHeaderKV(hash, headerOf(hash))
  }

  /** The reply computed without any cache. */
  function Uncached(headerOf: Hash -> Header, hashes: seq<Hash>): seq<Header> {
    seq(|hashes|, i requires 0 <= i < |hashes| => headerOf(hashes[i]))
  }

  /** The entries are exactly the checkpoints of one single chain. */
  ghost predicate OnChain(entries: seq<CfHeaderKV>, headerOf: Hash -> Header, owner: BlockNode) {
    && |entries| == |Checkpoints(owner)|
    && forall i | 0 <= i < |entries| :: entries[i] == Entry(headerOf, Checkpoints(owner)[i])
  }

  // ---------------------------------------------------------------------------
  // What one request does, as values.

  /** One past the newest index at which cache and request agree; `upTo` bounds the search. */
  function ForkIdx(entries: seq<CfHeaderKV>, hashes: seq<Hash>, upTo: nat): (fork: nat)
    requires upTo <= |hashes|
    ensures fork <= upTo && fork <= |entries|
    ensures fork > 0 ==> entries[fork - 1].blockHash == hashes[fork - 1]
    ensures forall k | fork <= k < upTo && k < |entries| :: entries[k].blockHash != hashes[k]
  {
    if upTo == 0 || (upTo <= |entries| && entries[upTo - 1].blockHash == hashes[upTo - 1]) then upTo
    else ForkIdx(entries, hashes, upTo - 1)
  }

  /** The first checkpoint from index `from` on that the filter index lacks. */
  function FirstMissing(hashes: seq<Hash>, from: nat, indexed: set<Hash>): (m: nat)
    requires from <= |hashes|
    ensures from <= m <= |hashes|
    ensures forall k | from <= k < m :: hashes[k] in indexed
    ensures m < |hashes| ==> hashes[m] !in indexed
    decreases |hashes| - from
  {
    if from < |hashes| && hashes[from] in indexed then FirstMissing(hashes, from + 1, indexed) else from
  }

  function Served(entries: seq<CfHeaderKV>, hashes: seq<Hash>, indexed: set<Hash>, headerOf: Hash -> Header)
    : Option<seq<Header>>
  {
    var fork := ForkIdx(entries, hashes, |hashes|);
    if FirstMissing(hashes, fork, indexed) < |hashes| then None
    else Some(seq(|hashes|, i requires 0 <= i < |hashes| =>
                if i < fork then entries[i].filterHeader else headerOf(hashes[i])))
  }

  function CacheAfter(entries: seq<CfHeaderKV>, capacity: nat, hashes: seq<Hash>, indexed: set<Hash>,
                      headerOf: Hash -> Header): seq<CfHeaderKV>
  {
    var fork := ForkIdx(entries, hashes, |hashes|);
    var written := FirstMissing(hashes, fork, indexed);
    if |hashes| <= |entries| then entries
    else if written == |hashes| then
      seq(|hashes|, i requires 0 <= i < |hashes| =>
        if i < fork then entries[i] else Entry(headerOf, hashes[i]))
    else if |hashes| <= capacity then
      seq(|entries|, i requires 0 <= i < |entries| =>
        if fork <= i < written then Entry(headerOf, hashes[i]) else entries[i])
    else entries
  }

  lemma CacheAfterIs(entries: seq<CfHeaderKV>, capacity: nat, hashes: seq<Hash>, indexed: set<Hash>,
                     headerOf: Hash -> Header, result: seq<CfHeaderKV>)
    requires var fork := ForkIdx(entries, hashes, |hashes|);
             var written := FirstMissing(hashes, fork, indexed);
             var grows := |hashes| > |entries|;
             && |result| == (if grows && written == |hashes| then |hashes| else |entries|)
             && forall k | 0 <= k < |result| ::
                  result[k] == if grows && (written == |hashes| || |hashes| <= capacity) && fork <= k < written
                               then Entry(headerOf, hashes[k]) else entries[k]
    ensures result == CacheAfter(entries, capacity, hashes, indexed, headerOf)
  {
  }

  /** The grown slice, with the new part written as far as there are headers. */
  ghost predicate Filled(entries: seq<CfHeaderKV>, hashes: seq<Hash>, indexed: set<Hash>,
                         headerOf: Hash -> Header, filled: seq<CfHeaderKV>)
  {
    var fork := ForkIdx(entries, hashes, |hashes|);
    var written := FirstMissing(hashes, fork, indexed);
    && |filled| == |hashes|
    && forall k | 0 <= k < |filled| ::
         filled[k] == if fork <= k < written then Entry(headerOf, hashes[k])
                      else if k < |entries| then entries[k] else EMPTY_KV
  }

  /** The same from the grown slice: a request that fails leaves it behind, unless it shares
      the array. */
  lemma CacheAfterGrowing(entries: seq<CfHeaderKV>, capacity: nat, hashes: seq<Hash>, indexed: set<Hash>,
                          headerOf: Hash -> Header, filled: seq<CfHeaderKV>, result: seq<CfHeaderKV>)
    requires |entries| < |hashes| && Filled(entries, hashes, indexed, headerOf, filled)
    requires result == if Served(entries, hashes, indexed, headerOf).Some? then filled
                       else if |hashes| <= capacity then filled[..|entries|] else entries
    ensures result == CacheAfter(entries, capacity, hashes, indexed, headerOf)
  {
    CacheAfterIs(entries, capacity, hashes, indexed, headerOf, result);
  }

  lemma ServedIs(entries: seq<CfHeaderKV>, hashes: seq<Hash>, indexed: set<Hash>,
                 headerOf: Hash -> Header, headers: seq<Header>)
    requires FirstMissing(hashes, ForkIdx(entries, hashes, |hashes|), indexed) == |hashes| == |headers|
    requires forall k | 0 <= k < |hashes| ::
               headers[k] == if k < ForkIdx(entries, hashes, |hashes|) then entries[k].filterHeader
                 else headerOf(hashes[k])
    ensures Served(entries, hashes, indexed, headerOf) == Some(headers)
  {
    assert Served(entries, hashes, indexed, headerOf).value == headers;
  }

  // ---------------------------------------------------------------------------
  // Transparency.

  /** On a cache that belongs to one chain the fork index is the exact number of
      checkpoints shared with the requested chain: one matching entry vouches for
      everything below it. */
  lemma ForkIdxIsSharedPrefix(index: set<BlockNode>, entries: seq<CfHeaderKV>, headerOf: Hash -> Header,
                              owner: BlockNode, stop: BlockNode, k: nat)
    requires IsIndex(index) && owner in index && stop in index && OnChain(entries, headerOf, owner)
    requires k < |entries| && k < |Checkpoints(stop)|
    ensures k < ForkIdx(entries, Checkpoints(stop), |Checkpoints(stop)|)
            <==> Checkpoints(owner)[k] == Checkpoints(stop)[k]
  {
    var mine, wanted := Checkpoints(owner), Checkpoints(stop);
    var fork := ForkIdx(entries, wanted, |wanted|);
    assert entries[k].blockHash == mine[k];
    if k < fork {
      assert entries[fork - 1].blockHash == mine[fork - 1];
      CheckpointVouches(index, owner, stop, fork - 1, k);
    }
  }

  lemma CheckpointVouches(index: set<BlockNode>, a: BlockNode, b: BlockNode, j: nat, k: nat)
    requires IsIndex(index) && a in index && b in index
    requires k <= j < |Checkpoints(a)| && j < |Checkpoints(b)| && Checkpoints(a)[j] == Checkpoints(b)[j]
    ensures Checkpoints(a)[k] == Checkpoints(b)[k]
  {
    MatchVouchesForAllBelow(index, a, b, CF_CHECKPT_INTERVAL, j, k);
  }

  /** A cache of one chain is transparent for a request on any other: it answers
      with the uncached headers, and exactly when the filter index holds every
      checkpoint beyond the ones the two chains share. */
  lemma CacheIsTransparent(index: set<BlockNode>, entries: seq<CfHeaderKV>, headerOf: Hash -> Header,
                           owner: BlockNode, stop: BlockNode, indexed: set<Hash>)
    requires IsIndex(index) && owner in index && stop in index && OnChain(entries, headerOf, owner)
    ensures var reply := Served(entries, Checkpoints(stop), indexed, headerOf);
            && (reply.Some? ==> reply.value == Uncached(headerOf, Checkpoints(stop)))
            && (reply.Some? <==> forall k | 0 <= k < |Checkpoints(stop)| ::
                                   || (k < |entries| && Checkpoints(owner)[k] == Checkpoints(stop)[k])
                                   || Checkpoints(stop)[k] in indexed)
  {
    var hashes := Checkpoints(stop);
    var fork := ForkIdx(entries, hashes, |hashes|);
    forall k | 0 <= k < |entries| && k < |hashes|
      ensures k < fork <==> Checkpoints(owner)[k] == hashes[k]
    {
      ForkIdxIsSharedPrefix(index, entries, headerOf, owner, stop, k);
    }
  }

  /** An answered request leaves the cache on a single chain: the requested one if
      that is longer, the old one otherwise. */
  lemma AnsweredRequestKeepsOneChain(index: set<BlockNode>, entries: seq<CfHeaderKV>, capacity: nat,
                                     headerOf: Hash -> Header, owner: BlockNode, stop: BlockNode, indexed: set<Hash>)
    requires IsIndex(index) && owner in index && stop in index && OnChain(entries, headerOf, owner)
    requires Served(entries, Checkpoints(stop), indexed, headerOf).Some?
    ensures OnChain(CacheAfter(entries, capacity, Checkpoints(stop), indexed, headerOf), headerOf,
                    if |Checkpoints(stop)| > |entries| then stop else owner)
  {
    var hashes := Checkpoints(stop);
    forall k | 0 <= k < |entries| && k < |hashes|
      ensures k < ForkIdx(entries, hashes, |hashes|) <==> Checkpoints(owner)[k] == hashes[k]
    {
      ForkIdxIsSharedPrefix(index, entries, headerOf, owner, stop, k);
    }
  }

  /** The exact case in which an unanswered request still changes the cache: it
      grows the slice within its capacity, and its first write lands below the old
      length. */
  ghost predicate WritesThrough(entries: seq<CfHeaderKV>, capacity: nat, hashes: seq<Hash>, indexed: set<Hash>) {
    var fork := ForkIdx(entries, hashes, |hashes|);
    |entries| < |hashes| <= capacity && fork < |entries| && hashes[fork] in indexed
  }

  lemma UnansweredRequestKeepsCacheIff(entries: seq<CfHeaderKV>, capacity: nat, hashes: seq<Hash>,
                                       indexed: set<Hash>, headerOf: Hash -> Header)
    requires Served(entries, hashes, indexed, headerOf).None?
    ensures CacheAfter(entries, capacity, hashes, indexed, headerOf) == entries
            <==> !WritesThrough(entries, capacity, hashes, indexed)
  {
    var fork := ForkIdx(entries, hashes, |hashes|);
    var after := CacheAfter(entries, capacity, hashes, indexed, headerOf);
    if WritesThrough(entries, capacity, hashes, indexed) {
      assert after[fork].blockHash == hashes[fork] != entries[fork].blockHash;
    }
  }

  // ---------------------------------------------------------------------------
  // Replies, block by block.

  ghost predicate Reaches(stop: BlockNode, k: nat) {
    exists a :: AtMultiple(stop, a, 1000, k)
  }

  /** The headers of the blocks that `stop` descends from at heights 1000, 2000 and so on. */
  ghost predicate HeadersOf(headers: seq<Header>, stop: BlockNode, headerOf: Hash -> Header) {
    && (forall k: nat, a | AtMultiple(stop, a, 1000, k) :: k < |headers| && headers[k] == headerOf(a.hash))
    && (forall k | 0 <= k < |headers| :: Reaches(stop, k))
  }

  /** At or above its k-th entry the cache has a block that `stop` descends from. */
  ghost predicate MatchFrom(entries: seq<CfHeaderKV>, stop: BlockNode, k: nat) {
    exists j: nat, b :: k <= j < |entries| && AtMultiple(stop, b, 1000, j) && entries[j].blockHash == b.hash
  }

  /** The same headers, taken from the cache up to its highest match. */
  ghost predicate CachedHeadersOf(headers: seq<Header>, entries: seq<CfHeaderKV>, stop: BlockNode,
                                  headerOf: Hash -> Header) {
    && (forall k: nat, a | AtMultiple(stop, a, 1000, k) ::
          && k < |headers|
          && (MatchFrom(entries, stop, k) ==> k < |entries| && headers[k] == entries[k].filterHeader)
          && (!MatchFrom(entries, stop, k) ==> headers[k] == headerOf(a.hash)))
    && (forall k | 0 <= k < |headers| :: Reaches(stop, k))
  }

  /** The header of one of the blocks is neither cached nor indexed. */
  ghost predicate Lacks(entries: seq<CfHeaderKV>, stop: BlockNode, indexed: set<Hash>) {
    exists k: nat, a :: AtMultiple(stop, a, 1000, k) && !MatchFrom(entries, stop, k) && a.hash !in indexed
  }

  lemma MatchFromIff(entries: seq<CfHeaderKV>, stop: BlockNode, k: nat)
    ensures MatchFrom(entries, stop, k) <==> k < ForkIdx(entries, Checkpoints(stop), |Checkpoints(stop)|)
  {
    var hashes := Checkpoints(stop);
    var fork := ForkIdx(entries, hashes, |hashes|);
    IntervalHashesListMultiples(stop, 1000);
    if k < fork {
      assert HashAtMultiple(hashes[fork - 1], stop, 1000, fork - 1);
    }
  }

  /** A reply has the headers of the requested chain, and there is none exactly if one of
      them can neither be vouched for by the cache nor found in the index. */
  lemma ServedHeaders(entries: seq<CfHeaderKV>, stop: BlockNode, indexed: set<Hash>, headerOf: Hash -> Header)
    ensures var reply := Served(entries, Checkpoints(stop), indexed, headerOf);
      && (reply.None? <==> Lacks(entries, stop, indexed))
      && (reply.Some? ==> CachedHeadersOf(reply.value, entries, stop, headerOf))
  {
    var hashes := Checkpoints(stop);
    var fork := ForkIdx(entries, hashes, |hashes|);
    var missing := FirstMissing(hashes, fork, indexed);
    var reply := Served(entries, hashes, indexed, headerOf);
    IntervalHashesListMultiples(stop, 1000);
    forall k: nat
      ensures MatchFrom(entries, stop, k) <==> k < fork
    {
      MatchFromIff(entries, stop, k);
    }
    if missing < |hashes| {
      assert HashAtMultiple(hashes[missing], stop, 1000, missing);
    } else {
      forall k | 0 <= k < |hashes|
        ensures Reaches(stop, k)
      {
        assert HashAtMultiple(hashes[k], stop, 1000, k);
      }
    }
  }

  lemma UncachedHeaders(stop: BlockNode, headerOf: Hash -> Header)
    ensures HeadersOf(Uncached(headerOf, Checkpoints(stop)), stop, headerOf)
  {
    var hashes := Checkpoints(stop);
    IntervalHashesListMultiples(stop, 1000);
    forall k | 0 <= k < |hashes|
      ensures Reaches(stop, k)
    {
      assert HashAtMultiple(hashes[k], stop, 1000, k);
    }
  }

  // ---------------------------------------------------------------------------
  // Requests that are not answered.

  ghost predicate RightFor(entries: seq<CfHeaderKV>, headerOf: Hash -> Header, stop: BlockNode, indexed: set<Hash>) {
    var reply := Served(entries, Checkpoints(stop), indexed, headerOf);
    reply.Some? ==> reply.value == Uncached(headerOf, Checkpoints(stop))
  }

  /** Whatever is asked of the cache next, an answer is the uncached one. */
  ghost predicate Transparent(index: set<BlockNode>, entries: seq<CfHeaderKV>, headerOf: Hash -> Header) {
    forall stop, indexed | stop in index :: RightFor(entries, headerOf, stop, indexed)
  }

  /** If entry `j` is on a block's chain, it and everything below it holds the headers
      of that chain. */
  ghost predicate Vouches(entries: seq<CfHeaderKV>, headerOf: Hash -> Header, node: BlockNode, j: nat) {
    j < |entries| && j < |Checkpoints(node)| && entries[j].blockHash == Checkpoints(node)[j] ==>
      forall k | 0 <= k <= j :: entries[k].filterHeader == headerOf(Checkpoints(node)[k])
  }

  ghost predicate Sound(index: set<BlockNode>, entries: seq<CfHeaderKV>, headerOf: Hash -> Header) {
    forall node, j: nat | node in index :: Vouches(entries, headerOf, node, j)
  }

  /** The newest entry belongs to some block of the index. */
  ghost predicate TopKnown(index: set<BlockNode>, entries: seq<CfHeaderKV>) {
    entries != [] ==>
      exists node :: node in index && HasTop(entries, node)
  }

  ghost predicate HasTop(entries: seq<CfHeaderKV>, node: BlockNode) {
    0 < |entries| <= |Checkpoints(node)| && entries[|entries| - 1].blockHash == Checkpoints(node)[|entries| - 1]
  }

  lemma TransparentIffSound(index: set<BlockNode>, entries: seq<CfHeaderKV>, headerOf: Hash -> Header)
    ensures Transparent(index, entries, headerOf) <==> Sound(index, entries, headerOf)
  {
    forall stop, indexed | stop in index && Sound(index, entries, headerOf)
      ensures RightFor(entries, headerOf, stop, indexed)
    {
      SoundAnswers(index, entries, headerOf, stop, indexed);
    }
    forall node, j: nat | node in index && Transparent(index, entries, headerOf)
      ensures Vouches(entries, headerOf, node, j)
    {
      AnswersVouch(entries, headerOf, node, j, set h | h in Checkpoints(node));
    }
  }

  lemma SoundAnswers(index: set<BlockNode>, entries: seq<CfHeaderKV>, headerOf: Hash -> Header,
                     stop: BlockNode, indexed: set<Hash>)
    requires stop in index && Sound(index, entries, headerOf)
    ensures RightFor(entries, headerOf, stop, indexed)
  {
    var fork := ForkIdx(entries, Checkpoints(stop), |Checkpoints(stop)|);
    if fork > 0 {
      assert Vouches(entries, headerOf, stop, fork - 1);
    }
  }

  lemma AnswersVouch(entries: seq<CfHeaderKV>, headerOf: Hash -> Header, node: BlockNode, j: nat, all: set<Hash>)
    requires all == set h | h in Checkpoints(node)
    requires RightFor(entries, headerOf, node, all)
    ensures Vouches(entries, headerOf, node, j)
  {
    var hashes := Checkpoints(node);
    var fork := ForkIdx(entries, hashes, |hashes|);
    assert FirstMissing(hashes, fork, all) == |hashes|;
    var reply := Served(entries, hashes, all, headerOf).value;
    assert forall k | 0 <= k < fork :: reply[k] == entries[k].filterHeader && reply[k] == headerOf(hashes[k]);
  }

  /** When an unanswered request makes a later answer wrong: it grows the slice within
      its capacity, stops below the old length, and one of the headers it has written
      differs from the one that was there. */
  ghost predicate Misleads(entries: seq<CfHeaderKV>, capacity: nat, hashes: seq<Hash>, indexed: set<Hash>,
                           headerOf: Hash -> Header) {
    var fork := ForkIdx(entries, hashes, |hashes|);
    var missing := FirstMissing(hashes, fork, indexed);
    && |entries| < |hashes| <= capacity && missing < |entries|
    && exists k :: fork <= k < missing && headerOf(hashes[k]) != entries[k].filterHeader
  }

  /** Entries from the fork on that are those of the requested chain. */
  ghost predicate Rewritten(entries: seq<CfHeaderKV>, after: seq<CfHeaderKV>, headerOf: Hash -> Header,
                            hashes: seq<Hash>, fork: nat, written: nat) {
    && fork <= written <= |after| && written <= |hashes| && fork <= |entries|
    && (forall k | 0 <= k < fork :: after[k] == entries[k])
    && (forall k | fork <= k < written :: after[k] == Entry(headerOf, hashes[k]))
  }

  /** What is rewritten is right on every chain it is found on. */
  lemma RewrittenVouches(index: set<BlockNode>, entries: seq<CfHeaderKV>, after: seq<CfHeaderKV>,
                         headerOf: Hash -> Header, stop: BlockNode, written: nat, node: BlockNode, j: nat)
    requires IsIndex(index) && stop in index && node in index && Sound(index, entries, headerOf) && j < written
    requires Rewritten(entries, after, headerOf, Checkpoints(stop),
                       ForkIdx(entries, Checkpoints(stop), |Checkpoints(stop)|), written)
    ensures Vouches(after, headerOf, node, j)
  {
    var hashes := Checkpoints(stop);
    var fork := ForkIdx(entries, hashes, |hashes|);
    if j < fork {
      assert Vouches(entries, headerOf, node, j);
    } else if j < |Checkpoints(node)| && after[j].blockHash == Checkpoints(node)[j] {
      if fork > 0 {
        assert Vouches(entries, headerOf, stop, fork - 1);
      }
      forall k | 0 <= k <= j
        ensures after[k].filterHeader == headerOf(Checkpoints(node)[k])
      {
        CheckpointVouches(index, stop, node, j, k);
      }
    }
  }

  /** A rewrite of everything from the fork on leaves a sound cache sound. */
  lemma AllRewrittenIsSound(index: set<BlockNode>, entries: seq<CfHeaderKV>, after: seq<CfHeaderKV>,
                            headerOf: Hash -> Header, stop: BlockNode)
    requires IsIndex(index) && stop in index && Sound(index, entries, headerOf)
    requires Rewritten(entries, after, headerOf, Checkpoints(stop),
                       ForkIdx(entries, Checkpoints(stop), |Checkpoints(stop)|), |after|)
    ensures Sound(index, after, headerOf)
  {
    forall node, j: nat | node in index
      ensures Vouches(after, headerOf, node, j)
    {
      if j < |after| {
        RewrittenVouches(index, entries, after, headerOf, stop, |after|, node, j);
      }
    }
  }

  lemma RewrittenTop(index: set<BlockNode>, entries: seq<CfHeaderKV>, after: seq<CfHeaderKV>, headerOf: Hash -> Header,
                     stop: BlockNode, fork: nat)
    requires stop in index && TopKnown(index, entries) && |entries| <= |after|
    requires Rewritten(entries, after, headerOf, Checkpoints(stop), fork, |after|)
    ensures TopKnown(index, after)
  {
    if fork < |after| {
      assert HasTop(after, stop);
    } else {
      assert after == entries;
    }
  }

  /** An answered request leaves a sound cache sound. */
  lemma AnsweredRequestKeepsSound(index: set<BlockNode>, entries: seq<CfHeaderKV>, capacity: nat,
                                  headerOf: Hash -> Header, stop: BlockNode, indexed: set<Hash>)
    requires IsIndex(index) && stop in index && Sound(index, entries, headerOf) && TopKnown(index, entries)
    requires Served(entries, Checkpoints(stop), indexed, headerOf).Some?
    ensures var after := CacheAfter(entries, capacity, Checkpoints(stop), indexed, headerOf);
      Sound(index, after, headerOf) && TopKnown(index, after)
  {
    var hashes := Checkpoints(stop);
    var after := CacheAfter(entries, capacity, hashes, indexed, headerOf);
    if |hashes| > |entries| {
      AllRewrittenIsSound(index, entries, after, headerOf, stop);
      RewrittenTop(index, entries, after, headerOf, stop, ForkIdx(entries, hashes, |hashes|));
    }
  }

  /** What an unanswered request that grows within the capacity has written. */
  lemma UnansweredRewrites(entries: seq<CfHeaderKV>, capacity: nat, hashes: seq<Hash>, indexed: set<Hash>,
                           headerOf: Hash -> Header)
    requires Served(entries, hashes, indexed, headerOf).None? && |entries| < |hashes| <= capacity
    ensures var fork := ForkIdx(entries, hashes, |hashes|);
      var missing := FirstMissing(hashes, fork, indexed);
      var after := CacheAfter(entries, capacity, hashes, indexed, headerOf);
      && |after| == |entries| && (forall k | missing <= k < |after| :: after[k] == entries[k])
      && Rewritten(entries, after, headerOf, hashes, fork, Min(missing, |after|))
  {
  }

  /** An unanswered one does exactly if it does not mislead. */
  lemma UnansweredRequestKeepsSoundIff(index: set<BlockNode>, entries: seq<CfHeaderKV>, capacity: nat,
                                       headerOf: Hash -> Header, stop: BlockNode, indexed: set<Hash>)
    requires IsIndex(index) && stop in index && Sound(index, entries, headerOf) && TopKnown(index, entries)
    requires Served(entries, Checkpoints(stop), indexed, headerOf).None?
    ensures var after := CacheAfter(entries, capacity, Checkpoints(stop), indexed, headerOf);
      && (Sound(index, after, headerOf) <==> !Misleads(entries, capacity, Checkpoints(stop), indexed, headerOf))
      && TopKnown(index, after)
  {
    var hashes := Checkpoints(stop);
    var fork := ForkIdx(entries, hashes, |hashes|);
    var missing := FirstMissing(hashes, fork, indexed);
    var after := CacheAfter(entries, capacity, hashes, indexed, headerOf);
    if |entries| < |hashes| <= capacity {
      UnansweredRewrites(entries, capacity, hashes, indexed, headerOf);
      if missing >= |entries| {
        AllRewrittenIsSound(index, entries, after, headerOf, stop);
        RewrittenTop(index, entries, after, headerOf, stop, fork);
      } else {
        HalfRewrittenIff(index, entries, after, headerOf, stop, missing);
      }
    } else {
      assert after == entries;
    }
  }

  ghost predicate SameHeaders(entries: seq<CfHeaderKV>, headerOf: Hash -> Header, hashes: seq<Hash>, from: nat, to: nat)
    requires to <= |entries| && to <= |hashes|
  {
    forall k | from <= k < to :: headerOf(hashes[k]) == entries[k].filterHeader
  }

  /** Above the rewrite an entry vouches as before, if the headers below are the same. */
  lemma KeptVouches(entries: seq<CfHeaderKV>, after: seq<CfHeaderKV>, headerOf: Hash -> Header,
                    hashes: seq<Hash>, fork: nat, missing: nat, node: BlockNode, j: nat)
    requires Rewritten(entries, after, headerOf, hashes, fork, missing) && Vouches(entries, headerOf, node, j)
    requires missing <= j < |entries| == |after| && forall k | missing <= k < |after| :: after[k] == entries[k]
    requires SameHeaders(entries, headerOf, hashes, fork, missing)
    ensures Vouches(after, headerOf, node, j)
  {
  }

  /** A rewrite that stops below the top leaves the cache sound exactly if it has not
      changed a header. */
  lemma HalfRewrittenIff(index: set<BlockNode>, entries: seq<CfHeaderKV>, after: seq<CfHeaderKV>,
                         headerOf: Hash -> Header, stop: BlockNode, missing: nat)
    requires IsIndex(index) && stop in index && Sound(index, entries, headerOf) && TopKnown(index, entries)
    requires missing < |entries| == |after| && forall k | missing <= k < |after| :: after[k] == entries[k]
    requires Rewritten(entries, after, headerOf, Checkpoints(stop),
                       ForkIdx(entries, Checkpoints(stop), |Checkpoints(stop)|), missing)
    ensures TopKnown(index, after)
    ensures var fork := ForkIdx(entries, Checkpoints(stop), |Checkpoints(stop)|);
      Sound(index, after, headerOf) <==> SameHeaders(entries, headerOf, Checkpoints(stop), fork, missing)
  {
    var hashes := Checkpoints(stop);
    var fork := ForkIdx(entries, hashes, |hashes|);
    var owner :| owner in index && HasTop(entries, owner);
    TopStays(entries, after, missing, owner);
    if SameHeaders(entries, headerOf, hashes, fork, missing) {
      SameHeadersKeepSound(index, entries, after, headerOf, stop, missing);
    } else if Sound(index, after, headerOf) {
      TopTellsHeaders(index, entries, after, headerOf, hashes, fork, missing, owner);
    }
  }

  lemma TopStays(entries: seq<CfHeaderKV>, after: seq<CfHeaderKV>, missing: nat, owner: BlockNode)
    requires missing < |entries| == |after| && forall k | missing <= k < |after| :: after[k] == entries[k]
    requires HasTop(entries, owner)
    ensures HasTop(after, owner)
  {
  }

  lemma SameHeadersKeepSound(index: set<BlockNode>, entries: seq<CfHeaderKV>, after: seq<CfHeaderKV>,
                             headerOf: Hash -> Header, stop: BlockNode, missing: nat)
    requires IsIndex(index) && stop in index && Sound(index, entries, headerOf)
    requires missing < |entries| == |after| && forall k | missing <= k < |after| :: after[k] == entries[k]
    requires Rewritten(entries, after, headerOf, Checkpoints(stop),
                       ForkIdx(entries, Checkpoints(stop), |Checkpoints(stop)|), missing)
    requires SameHeaders(entries, headerOf, Checkpoints(stop),
                         ForkIdx(entries, Checkpoints(stop), |Checkpoints(stop)|), missing)
    ensures Sound(index, after, headerOf)
  {
    var hashes := Checkpoints(stop);
    var fork := ForkIdx(entries, hashes, |hashes|);
    forall node, j: nat | node in index
      ensures Vouches(after, headerOf, node, j)
    {
      if j < missing {
        RewrittenVouches(index, entries, after, headerOf, stop, missing, node, j);
      } else if j < |after| {
        assert Vouches(entries, headerOf, node, j);
        KeptVouches(entries, after, headerOf, hashes, fork, missing, node, j);
      }
    }
  }

  lemma TopTellsHeaders(index: set<BlockNode>, entries: seq<CfHeaderKV>, after: seq<CfHeaderKV>,
                        headerOf: Hash -> Header, hashes: seq<Hash>, fork: nat, missing: nat, owner: BlockNode)
    requires owner in index && Sound(index, entries, headerOf) && Sound(index, after, headerOf)
    requires HasTop(entries, owner)
    requires missing < |entries| == |after| && forall k | missing <= k < |after| :: after[k] == entries[k]
    requires Rewritten(entries, after, headerOf, hashes, fork, missing)
    ensures SameHeaders(entries, headerOf, hashes, fork, missing)
  {
    var top := |entries| - 1;
    assert Vouches(entries, headerOf, owner, top) && Vouches(after, headerOf, owner, top);
    forall k | fork <= k < missing
      ensures headerOf(hashes[k]) == entries[k].filterHeader
    {
      assert entries[k].filterHeader == headerOf(Checkpoints(owner)[k]);
    }
  }

  // ---------------------------------------------------------------------------
  // Runs.

  /** A request: the best chain at that moment, the block it asks for, the blocks the
      filter index then has headers for, and the capacity the runtime adds when it has
      to reallocate. */
  datatype Request = Request(best: seq<BlockNode>, stop: BlockNode, indexed: set<Hash>, spare: nat)

  function CapacityAfter(entries: seq<CfHeaderKV>, capacity: nat, hashes: seq<Hash>, indexed: set<Hash>,
                         spare: nat): nat
  {
    var answered := FirstMissing(hashes, ForkIdx(entries, hashes, |hashes|), indexed) == |hashes|;
    if |entries| < |hashes| && answered && |hashes| > capacity then |hashes| + spare else capacity
  }

  ghost predicate Harms(entries: seq<CfHeaderKV>, capacity: nat, req: Request, headerOf: Hash -> Header) {
    && Served(entries, Checkpoints(req.stop), req.indexed, headerOf).None?
    && Misleads(entries, capacity, Checkpoints(req.stop), req.indexed, headerOf)
  }

  function Next(entries: seq<CfHeaderKV>, capacity: nat, req: Request, headerOf: Hash -> Header): (seq<CfHeaderKV>, nat)
  {
    (CacheAfter(entries, capacity, Checkpoints(req.stop), req.indexed, headerOf),
     CapacityAfter(entries, capacity, Checkpoints(req.stop), req.indexed, req.spare))
  }

  /** No request of the run misleads a later one. */
  ghost predicate NoneHarms(entries: seq<CfHeaderKV>, capacity: nat, reqs: seq<Request>, headerOf: Hash -> Header)
    decreases |reqs|
  {
    reqs != [] ==>
      && !Harms(entries, capacity, reqs[0], headerOf)
      && var next := Next(entries, capacity, reqs[0], headerOf);
         NoneHarms(next.0, next.1, reqs[1..], headerOf)
  }

  /** The cache is transparent before, between and after the requests of the run. */
  ghost predicate AlwaysTransparent(index: set<BlockNode>, entries: seq<CfHeaderKV>, capacity: nat, reqs: seq<Request>,
                                    headerOf: Hash -> Header)
    decreases |reqs|
  {
    && Transparent(index, entries, headerOf)
    && (reqs != [] ==>
          var next := Next(entries, capacity, reqs[0], headerOf);
          AlwaysTransparent(index, next.0, next.1, reqs[1..], headerOf))
  }

  lemma OneRequest(index: set<BlockNode>, entries: seq<CfHeaderKV>, capacity: nat, headerOf: Hash -> Header,
                   req: Request)
    requires IsIndex(index) && req.stop in index && Sound(index, entries, headerOf) && TopKnown(index, entries)
    ensures var after := CacheAfter(entries, capacity, Checkpoints(req.stop), req.indexed, headerOf);
      (Sound(index, after, headerOf) <==> !Harms(entries, capacity, req, headerOf)) && TopKnown(index, after)
  {
    if Served(entries, Checkpoints(req.stop), req.indexed, headerOf).Some? {
      AnsweredRequestKeepsSound(index, entries, capacity, headerOf, req.stop, req.indexed);
    } else {
      UnansweredRequestKeepsSoundIff(index, entries, capacity, headerOf, req.stop, req.indexed);
    }
  }

  /** The exact condition over runs: the cache is transparent all along if and only if
      no request of the run is left unanswered half way into the old entries, with a
      header changed. */
  lemma {:induction false} AlwaysTransparentIff(index: set<BlockNode>, entries: seq<CfHeaderKV>, capacity: nat,
                                                reqs: seq<Request>, headerOf: Hash -> Header)
    requires IsIndex(index) && Sound(index, entries, headerOf) && TopKnown(index, entries)
    requires forall req | req in reqs :: req.stop in index
    ensures AlwaysTransparent(index, entries, capacity, reqs, headerOf)
      <==> NoneHarms(entries, capacity, reqs, headerOf)
    decreases |reqs|
  {
    TransparentIffSound(index, entries, headerOf);
    if reqs != [] {
      var next := Next(entries, capacity, reqs[0], headerOf);
      OneRequest(index, entries, capacity, headerOf, reqs[0]);
      TransparentIffSound(index, next.0, headerOf);
      if Sound(index, next.0, headerOf) {
        AlwaysTransparentIff(index, next.0, next.1, reqs[1..], headerOf);
      }
    }
  }

  /** That case is real: three cached checkpoints, room for a fourth, and a
      request for a longer branch whose third checkpoint is not indexed.  The next
      request for the cached chain itself is then answered with a foreign header. */
  lemma WriteThroughMisleadsTheNextRequest(headerOf: Hash -> Header)
    requires headerOf(2) != headerOf(4)
    ensures var cached := [1, 2, 3];
            var entries := [Entry(headerOf, 1), Entry(headerOf, 2), Entry(headerOf, 3)];
            var branch := [1, 4, 5, 6];
            var after := CacheAfter(entries, 4, branch, {4}, headerOf);
            && Served(entries, branch, {4}, headerOf).None? && Misleads(entries, 4, branch, {4}, headerOf)
            && Served(entries, cached, {}, headerOf) == Some(Uncached(headerOf, cached))
            && Served(after, cached, {}, headerOf).Some?
            && Served(after, cached, {}, headerOf) != Some(Uncached(headerOf, cached))
  {
    var entries := [Entry(headerOf, 1), Entry(headerOf, 2), Entry(headerOf, 3)];
    var branch := [1, 4, 5, 6];
    assert ForkIdx(entries, branch, 1) == 1;
    assert ForkIdx(entries, branch, 3) == 1;
    assert FirstMissing(branch, 1, {4}) == 2;
    var after := CacheAfter(entries, 4, branch, {4}, headerOf);
    assert after == [Entry(headerOf, 1), Entry(headerOf, 4), Entry(headerOf, 3)];
    assert Served(entries, [1, 2, 3], {}, headerOf).value == Uncached(headerOf, [1, 2, 3]);
    assert Served(after, [1, 2, 3], {}, headerOf).value[1] != Uncached(headerOf, [1, 2, 3])[1];
  }

  // ---------------------------------------------------------------------------
  // The server's cache, updated in place.

  class CheckpointServer {
    const headerOf: Hash -> Header

    // The cached slice.
    var buf: array<CfHeaderKV>
    var len: nat

    // The block whose checkpoints the cache holds.
    ghost var owner: BlockNode

    ghost predicate SliceOk()
      reads this
    {
      len <= buf.Length
    }

    ghost function Entries(): seq<CfHeaderKV>
      requires SliceOk()
      reads this, buf
    {
      buf[..len]
    }

    /** The cache belongs to one chain. */
    ghost predicate Valid(index: set<BlockNode>)
      reads this, buf
    {
      SliceOk() && IsIndex(index) && owner in index && OnChain(Entries(), headerOf, owner)
    }

    /** The cache may be of several chains, but vouches for nothing wrong. */
    ghost predicate Trusted(index: set<BlockNode>)
      reads this, buf
    {
      SliceOk() && IsIndex(index) && Sound(index, Entries(), headerOf) && TopKnown(index, Entries())
    }

    constructor (headerOf: Hash -> Header, ghost index: set<BlockNode>, ghost genesis: BlockNode)
      requires IsIndex(index) && genesis in index && genesis.Genesis?
      ensures Valid(index) && Trusted(index) && fresh(buf) && len == 0 && this.headerOf == headerOf
    {
      this.headerOf := headerOf;
      buf := new CfHeaderKV[0];
      len := 0;
      owner := genesis;
    }

    /** append(cache, make([]cfHeaderKV, n-len)...): within the capacity the same
        backing array is extended, otherwise a larger one is filled with a copy. */
    method Grow(n: nat, spare: nat) returns (grown: array<CfHeaderKV>)
      requires SliceOk() && len < n
      modifies buf
      ensures if n <= buf.Length then grown == buf else fresh(grown) && grown.Length == n + spare
      ensures n <= grown.Length
      ensures grown[..n] == old(Entries()) + seq(n - len, _ => EMPTY_KV)
      ensures Entries() == old(Entries())
    {
      if n <= buf.Length {
        grown := buf;
      } else {
        grown := new CfHeaderKV[n + spare](_ => EMPTY_KV);
        forall i | 0 <= i < len {
          grown[i] := buf[i];
        }
      }
      forall i | len <= i < n {
        grown[i] := EMPTY_KV;
      }
    }

    /** Looks back for the newest entry that is still on the requested chain. */
    method FindFork(cache: array<CfHeaderKV>, hashes: seq<Hash>, ghost entries: seq<CfHeaderKV>) returns (forkIdx: nat)
      requires |hashes| <= cache.Length && ZERO_HASH !in hashes
      requires forall k | 0 <= k < |hashes| :: cache[k] == if k < |entries| then entries[k] else EMPTY_KV
      ensures forkIdx == ForkIdx(entries, hashes, |hashes|)
    {
      forkIdx := |hashes|;
      while forkIdx > 0 && cache[forkIdx - 1].blockHash != hashes[forkIdx - 1]
        invariant ForkIdx(entries, hashes, |hashes|) <= forkIdx <= |hashes|
      {
        forkIdx := forkIdx - 1;
      }
    }

    /** Looks up the headers from `forkIdx` on and, if the cache is being updated,
        writes each into it; gives up at the first block without a header. */
    method FetchHeaders(cache: array<CfHeaderKV>, updateCache: bool, hashes: seq<Hash>, forkIdx: nat,
                        indexed: set<Hash>)
      returns (found: bool, fetched: seq<Header>)
      requires forkIdx <= |hashes| && (updateCache ==> |hashes| <= cache.Length)
      modifies cache
      ensures found <==> FirstMissing(hashes, forkIdx, indexed) == |hashes|
      ensures found ==> fetched == Uncached(headerOf, hashes[forkIdx..])
      ensures forall k | 0 <= k < cache.Length ::
                cache[k] == if updateCache && forkIdx <= k < FirstMissing(hashes, forkIdx, indexed)
                            then Entry(headerOf, hashes[k]) else old(cache[k])
    {
      found, fetched := true, [];
      var i := forkIdx;
      while i < |hashes|
        invariant forkIdx <= i <= FirstMissing(hashes, forkIdx, indexed)
        invariant fetched == Uncached(headerOf, hashes[forkIdx..i])
        invariant forall k | 0 <= k < cache.Length ::
                    cache[k] == if updateCache && forkIdx <= k < i then Entry(headerOf, hashes[k]) else old(cache[k])
      {
        if hashes[i] !in indexed {
          return false, [];
        }
        var filterHeader := headerOf(hashes[i]);
        fetched := fetched + [filterHeader];
        if updateCache {
          cache[i] := CfHeaderKV(hashes[i], filterHeader);
        }
        i := i + 1;
      }
      assert hashes[forkIdx..i] == hashes[forkIdx..];
    }

    /** Assembles the reply out of the still valid part of the slice and the filter
        index, writing the new part into the slice if it is being updated. */
    method FillReply(cache: array<CfHeaderKV>, updateCache: bool, hashes: seq<Hash>, indexed: set<Hash>,
                     ghost entries: seq<CfHeaderKV>)
      returns (reply: Option<seq<Header>>)
      requires |hashes| <= cache.Length && ZERO_HASH !in hashes
      requires forall k | 0 <= k < |hashes| :: cache[k] == if k < |entries| then entries[k] else EMPTY_KV
      modifies cache
      ensures reply == Served(entries, hashes, indexed, headerOf)
      ensures forall k | 0 <= k < cache.Length ::
                var fork := ForkIdx(entries, hashes, |hashes|);
                cache[k] == if updateCache && fork <= k < FirstMissing(hashes, fork, indexed)
                            then Entry(headerOf, hashes[k]) else old(cache[k])
    {
      var forkIdx := FindFork(cache, hashes, entries);
      var headers := seq(forkIdx, k requires 0 <= k < forkIdx reads cache => cache[k].filterHeader);
      var found, fetched := FetchHeaders(cache, updateCache, hashes, forkIdx, indexed);
      if !found {
        return None;
      }
      ServedIs(entries, hashes, indexed, headerOf, headers + fetched);
      return Some(headers + fetched);
    }

    /** The cache grown for a longer request, and what the request writes into it. */
    method GrowAndFill(hashes: seq<Hash>, indexed: set<Hash>, spare: nat)
      returns (cache: array<CfHeaderKV>, reply: Option<seq<Header>>)
      requires SliceOk() && ZERO_HASH !in hashes && |hashes| > len
      modifies buf
      ensures reply == Served(old(Entries()), hashes, indexed, headerOf)
      ensures if |hashes| <= buf.Length then cache == buf else fresh(cache) && cache.Length == |hashes| + spare
      ensures |hashes| <= cache.Length && Filled(old(Entries()), hashes, indexed, headerOf, cache[..|hashes|])
      ensures cache != buf ==> Entries() == old(Entries())
    {
      ghost var before := Entries();
      cache := Grow(|hashes|, spare);
      reply := FillReply(cache, true, hashes, indexed, before);
    }

    /** Answers a request for more checkpoints than are cached. */
    method RespondGrowing(hashes: seq<Hash>, indexed: set<Hash>, spare: nat, ghost stop: BlockNode)
      returns (reply: Option<seq<Header>>)
      requires SliceOk() && ZERO_HASH !in hashes && |hashes| > len
      modifies this, buf
      ensures SliceOk() && (buf == old(buf) || fresh(buf))
      ensures reply == Served(old(Entries()), hashes, indexed, headerOf)
      ensures Entries() == CacheAfter(old(Entries()), old(buf.Length), hashes, indexed, headerOf)
      ensures buf.Length == CapacityAfter(old(Entries()), old(buf.Length), hashes, indexed, spare)
      ensures owner == if reply.Some? then stop else old(owner)
    {
      ghost var before, capacity := Entries(), buf.Length;
      var cache;
      cache, reply := GrowAndFill(hashes, indexed, spare);
      ghost var filled := cache[..|hashes|];
      if reply.Some? {
        buf, len := cache, |hashes|;
        owner := stop;
      }
      CacheAfterGrowing(before, capacity, hashes, indexed, headerOf, filled, Entries());
    }

    /** Answers a request whose checkpoints are `hashes`.  `indexed` is the set of
        blocks the filter index has headers for at that moment, and `spare` the
        capacity the runtime adds when it has to reallocate. */
    method Respond(hashes: seq<Hash>, indexed: set<Hash>, spare: nat, ghost stop: BlockNode)
      returns (reply: Option<seq<Header>>)
      requires SliceOk() && ZERO_HASH !in hashes
      modifies this, buf
      ensures SliceOk() && (buf == old(buf) || fresh(buf))
      ensures reply == Served(old(Entries()), hashes, indexed, headerOf)
      ensures Entries() == CacheAfter(old(Entries()), old(buf.Length), hashes, indexed, headerOf)
      ensures buf.Length == CapacityAfter(old(Entries()), old(buf.Length), hashes, indexed, spare)
      ensures owner == if reply.Some? && |hashes| > old(len) then stop else old(owner)
    {
      if |hashes| > len {
        reply := RespondGrowing(hashes, indexed, spare, stop);
      } else {
        reply := FillReply(buf, false, hashes, indexed, Entries());
        assert Entries() == old(Entries());
      }
    }

    /** One getcfcheckpt request for the chain ending in `stop`. */
    method OnGetCFCheckpt(best: seq<BlockNode>, stop: BlockNode, indexed: set<Hash>, spare: nat)
      returns (reply: Option<seq<Header>>)
      requires SliceOk() && IsChainView(best) && ZERO_HASH !in Checkpoints(stop)
      modifies this, buf
      ensures SliceOk() && (buf == old(buf) || fresh(buf))
      ensures reply == Served(old(Entries()), Checkpoints(stop), indexed, headerOf)
      ensures Entries() == CacheAfter(old(Entries()), old(buf.Length), Checkpoints(stop), indexed, headerOf)
      ensures buf.Length == CapacityAfter(old(Entries()), old(buf.Length), Checkpoints(stop), indexed, spare)
      ensures owner == if reply.Some? && |Checkpoints(stop)| > old(len) then stop else old(owner)
      ensures reply.None? <==> Lacks(old(Entries()), stop, indexed)
      ensures reply.Some? ==> CachedHeadersOf(reply.value, old(Entries()), stop, headerOf)
    {
      ServedHeaders(Entries(), stop, indexed, headerOf);
      var hashes := IntervalBlockHashes(best, stop, CF_CHECKPT_INTERVAL);
      reply := Respond(hashes, indexed, spare, stop);
    }

    /** One request.  On a cache that can be trusted an answer is the uncached one, and
        the cache can be trusted afterwards exactly if the request does no harm. */
    method ServeOne(req: Request, ghost index: set<BlockNode>) returns (reply: Option<seq<Header>>)
      requires SliceOk() && IsIndex(index) && IsChainView(req.best) && req.stop in index
      modifies this, buf
      ensures SliceOk() && (buf == old(buf) || fresh(buf))
      ensures (Entries(), buf.Length) == Next(old(Entries()), old(buf.Length), req, headerOf)
      ensures reply == Served(old(Entries()), Checkpoints(req.stop), req.indexed, headerOf)
      ensures old(Trusted(index)) ==>
        && (reply.Some? ==> reply.value == Uncached(headerOf, Checkpoints(req.stop)))
        && (reply.Some? ==> HeadersOf(reply.value, req.stop, headerOf))
        && (Trusted(index) <==> !Harms(old(Entries()), old(buf.Length), req, headerOf))
      ensures old(Valid(index)) && reply.Some? ==> Valid(index)
    {
      CheckpointsAreNotZero(index, req.stop);
      UncachedHeaders(req.stop, headerOf);
      if Trusted(index) {
        SoundAnswers(index, Entries(), headerOf, req.stop, req.indexed);
        OneRequest(index, Entries(), buf.Length, headerOf, req);
        assert RightFor(Entries(), headerOf, req.stop, req.indexed);
      }
      if Valid(index) && Served(Entries(), Checkpoints(req.stop), req.indexed, headerOf).Some? {
        AnsweredRequestKeepsOneChain(index, Entries(), buf.Length, headerOf, owner, req.stop, req.indexed);
      }
      reply := OnGetCFCheckpt(req.best, req.stop, req.indexed, req.spare);
    }

    /** Any run of requests, on any mix of branches and across any reorganizations in
        between, answered or not.  Every request is answered from the cache that the ones
        before it have left.  If none of them harms the cache, every reply that is given has
        the headers of the requested chain.  If the filter index holds everything asked for,
        every reply is given and the cache stays one chain's. */
    method ServeAll(reqs: seq<Request>, ghost index: set<BlockNode>)
      returns (replies: seq<Option<seq<Header>>>, ghost states: seq<(seq<CfHeaderKV>, nat)>)
      requires Trusted(index) && forall req | req in reqs :: IsChainView(req.best) && req.stop in index
      modifies this, buf
      ensures SliceOk() && |replies| == |reqs|
      ensures CacheRun(states, reqs, replies, headerOf)
      ensures states[0] == (old(Entries()), old(buf.Length)) && states[|reqs|] == (Entries(), buf.Length)
      ensures NoneHarms(old(Entries()), old(buf.Length), reqs, headerOf) ==>
        && Trusted(index)
        && forall k | 0 <= k < |reqs| :: Right(reqs[k], replies[k])
      ensures AllIndexed(reqs) ==>
        && (old(Valid(index)) ==> Valid(index))
        && forall k | 0 <= k < |reqs| :: replies[k].Some? && Right(reqs[k], replies[k])
    {
      ghost var harmless, indexed := NoneHarms(Entries(), buf.Length, reqs, headerOf), AllIndexed(reqs);
      IndexedRunsDoNoHarm(Entries(), buf.Length, reqs, headerOf);
      replies, states := ServeRun(reqs, index, harmless, indexed, indexed && Valid(index));
      assert Looking(true);
      assert forall k | 0 <= k < |reqs| :: Fine(reqs[k], replies[k], harmless, indexed);
    }

    method ServeRun(reqs: seq<Request>, ghost index: set<BlockNode>, ghost harmless: bool, ghost indexed: bool,
                    ghost oneChain: bool)
      returns (replies: seq<Option<seq<Header>>>, ghost states: seq<(seq<CfHeaderKV>, nat)>)
      requires IsIndex(index) && forall req | req in reqs :: IsChainView(req.best) && req.stop in index
      requires Going(index, reqs, harmless, oneChain) && (oneChain ==> indexed) && (indexed ==> AllIndexed(reqs))
      requires SliceOk()
      modifies this, buf
      ensures Going(index, [], harmless, oneChain) && SliceOk() && CacheRun(states, reqs, replies, headerOf)
      ensures states[0] == (old(Entries()), old(buf.Length)) && states[|reqs|] == (Entries(), buf.Length)
      ensures forall k | 0 <= k < |reqs| :: Fine(reqs[k], replies[k], harmless, indexed)
    {
      ghost var start := (Entries(), buf.Length);
      replies, states := [], [start];
      assert reqs[0..] == reqs;
      for k := 0 to |reqs|
        invariant Going(index, reqs[k..], harmless, oneChain) && (buf == old(buf) || fresh(buf))
        invariant Answered(start, reqs, k, replies, states, harmless, indexed)
      {
        assert reqs[k] in reqs;
        replies, states := ServeMore(reqs, k, index, harmless, indexed, oneChain, start, replies, states);
      }
      assert Looking(true);
      assert reqs[|reqs|..] == [] && reqs[..|reqs|] == reqs;
    }

    /** The first `k` requests have been answered. */
    ghost predicate Answered(start: (seq<CfHeaderKV>, nat), reqs: seq<Request>, k: nat,
                           replies: seq<Option<seq<Header>>>, states: seq<(seq<CfHeaderKV>, nat)>,
                           harmless: bool, indexed: bool)
      requires k <= |reqs|
      reads this, buf
    {
      forall g | Looking(g) ::
        && SliceOk() && CacheRun(states, reqs[..k], replies, headerOf)
        && states[0] == start && states[k] == (Entries(), buf.Length)
        && forall j | 0 <= j < k :: Fine(reqs[j], replies[j], harmless, indexed)
    }

    method ServeMore(reqs: seq<Request>, k: nat, ghost index: set<BlockNode>, ghost harmless: bool, ghost indexed: bool,
                     ghost oneChain: bool, ghost start: (seq<CfHeaderKV>, nat), replies: seq<Option<seq<Header>>>,
                     ghost states: seq<(seq<CfHeaderKV>, nat)>)
      returns (replies': seq<Option<seq<Header>>>, ghost states': seq<(seq<CfHeaderKV>, nat)>)
      requires k < |reqs| && IsIndex(index) && IsChainView(reqs[k].best) && reqs[k].stop in index
      requires Going(index, reqs[k..], harmless, oneChain) && (oneChain ==> indexed)
      requires indexed ==> forall h | h in Checkpoints(reqs[k].stop) :: h in reqs[k].indexed
      requires Answered(start, reqs, k, replies, states, harmless, indexed)
      modifies this, buf
      ensures Going(index, reqs[k + 1..], harmless, oneChain) && (buf == old(buf) || fresh(buf))
      ensures Answered(start, reqs, k + 1, replies', states', harmless, indexed)
    {
      assert Looking(true);
      var reply := ServeNext(reqs, k, index, harmless, indexed, oneChain);
      CacheRunGoesOn(states, reqs, k, replies, headerOf, (Entries(), buf.Length), reply);
      replies', states' := replies + [reply], states + [(Entries(), buf.Length)];
    }

    /** In the middle of a run, with `rest` still to come. */
    ghost predicate Going(index: set<BlockNode>, rest: seq<Request>, harmless: bool, oneChain: bool)
      reads this, buf
    {
      forall g | Looking(g) ::
        && SliceOk()
        && (harmless ==> Trusted(index) && NoneHarms(Entries(), buf.Length, rest, headerOf))
        && (oneChain ==> Valid(index))
    }

    method ServeNext(reqs: seq<Request>, k: nat, ghost index: set<BlockNode>, ghost harmless: bool, ghost indexed: bool,
                     ghost oneChain: bool)
      returns (reply: Option<seq<Header>>)
      requires k < |reqs| && IsIndex(index) && IsChainView(reqs[k].best) && reqs[k].stop in index
      requires SliceOk() && Going(index, reqs[k..], harmless, oneChain) && (oneChain ==> indexed)
      requires indexed ==> forall h | h in Checkpoints(reqs[k].stop) :: h in reqs[k].indexed
      modifies this, buf
      ensures Going(index, reqs[k + 1..], harmless, oneChain) && (buf == old(buf) || fresh(buf))
      ensures SliceOk() && (Entries(), buf.Length) == Next(old(Entries()), old(buf.Length), reqs[k], headerOf)
      ensures reply == Served(old(Entries()), Checkpoints(reqs[k].stop), reqs[k].indexed, headerOf)
      ensures Fine(reqs[k], reply, harmless, indexed)
    {
      assert Looking(true);
      if harmless {
        HarmlessStep(Entries(), buf.Length, reqs, k, headerOf);
      }
      if indexed {
        IndexedIsAnswered(Entries(), reqs[k], headerOf);
      }
      reply := ServeOne(reqs[k], index);
    }

    ghost predicate Fine(req: Request, reply: Option<seq<Header>>, harmless: bool, indexed: bool) {
      && (harmless ==> Right(req, reply))
      && (indexed ==> reply.Some?)
    }

    ghost predicate Right(req: Request, reply: Option<seq<Header>>) {
      reply.Some? ==> HeadersOf(reply.value, req.stop, headerOf)
    }
  }

  /** Contents and capacity before every request and at the end, and the replies. */
  ghost predicate CacheRun(states: seq<(seq<CfHeaderKV>, nat)>, reqs: seq<Request>, replies: seq<Option<seq<Header>>>,
                           headerOf: Hash -> Header) {
    && |states| == |reqs| + 1 && |replies| == |reqs|
    && forall k | 0 <= k < |reqs| :: CacheStep(states, k, reqs[k], replies[k], headerOf)
  }

  ghost predicate CacheStep(states: seq<(seq<CfHeaderKV>, nat)>, k: nat, req: Request, reply: Option<seq<Header>>,
                            headerOf: Hash -> Header)
    requires k + 1 < |states|
  {
    && states[k + 1] == Next(states[k].0, states[k].1, req, headerOf)
    && reply == Served(states[k].0, Checkpoints(req.stop), req.indexed, headerOf)
  }

  lemma CacheRunGoesOn(states: seq<(seq<CfHeaderKV>, nat)>, reqs: seq<Request>, k: nat,
                       replies: seq<Option<seq<Header>>>, headerOf: Hash -> Header, next: (seq<CfHeaderKV>, nat),
                       reply: Option<seq<Header>>)
    requires k < |reqs| && CacheRun(states, reqs[..k], replies, headerOf)
    requires next == Next(states[k].0, states[k].1, reqs[k], headerOf)
    requires reply == Served(states[k].0, Checkpoints(reqs[k].stop), reqs[k].indexed, headerOf)
    ensures CacheRun(states + [next], reqs[..k + 1], replies + [reply], headerOf)
  {
    forall j | 0 <= j < k + 1
      ensures CacheStep(states + [next], j, reqs[..k + 1][j], (replies + [reply])[j], headerOf)
    {
      if j < k {
        assert CacheStep(states, j, reqs[..k][j], replies[j], headerOf);
      }
    }
  }

  /** The filter index holds every checkpoint asked for. */
  ghost predicate AllIndexed(reqs: seq<Request>) {
    forall req | req in reqs :: forall h | h in Checkpoints(req.stop) :: h in req.indexed
  }

  lemma IndexedIsAnswered(entries: seq<CfHeaderKV>, req: Request, headerOf: Hash -> Header)
    requires forall h | h in Checkpoints(req.stop) :: h in req.indexed
    ensures Served(entries, Checkpoints(req.stop), req.indexed, headerOf).Some?
  {
  }

  lemma HarmlessStep(entries: seq<CfHeaderKV>, capacity: nat, reqs: seq<Request>, k: nat, headerOf: Hash -> Header)
    requires k < |reqs| && NoneHarms(entries, capacity, reqs[k..], headerOf)
    ensures !Harms(entries, capacity, reqs[k], headerOf)
    ensures var next := Next(entries, capacity, reqs[k], headerOf); NoneHarms(next.0, next.1, reqs[k + 1..], headerOf)
  {
    assert reqs[k..][1..] == reqs[k + 1..];
  }

  lemma {:induction false} IndexedRunsDoNoHarm(entries: seq<CfHeaderKV>, capacity: nat, reqs: seq<Request>,
                                               headerOf: Hash -> Header)
    ensures AllIndexed(reqs) ==> NoneHarms(entries, capacity, reqs, headerOf)
    decreases |reqs|
  {
    if reqs != [] && AllIndexed(reqs) {
      var next := Next(entries, capacity, reqs[0], headerOf);
      IndexedIsAnswered(entries, reqs[0], headerOf);
      IndexedRunsDoNoHarm(next.0, next.1, reqs[1..], headerOf);
    }
  }

  lemma CheckpointsAreNotZero(index: set<BlockNode>, stop: BlockNode)
    requires IsIndex(index) && stop in index
    ensures ZERO_HASH !in Checkpoints(stop)
  {
    forall k | 0 <= k < |Checkpoints(stop)|
      ensures Checkpoints(stop)[k] != ZERO_HASH
    {
      IntervalHeightFits(stop, CF_CHECKPT_INTERVAL, k + 1);
      AncestorInIndex(index, stop, (k + 1) * CF_CHECKPT_INTERVAL);
    }
  }
}
