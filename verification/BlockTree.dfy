// Block nodes as parent-linked trees, and the hashes of a block's ancestors at
// regular intervals (node/blockchain/chain.go).

module BlockTree {
  import opened Wire

  /** A node of the block index.  A node carries its whole ancestry. */
  datatype BlockNode = Genesis(hash: Hash) | Child(hash: Hash, parent: BlockNode) {
    function Height(): (h: nat)
      ensures h == 0 <==> Genesis?
    {
      if Genesis? then 0 else parent.Height() + 1
    }
  }

  /** The ancestor of `node` at `height`, found by walking parent links. */
  function Ancestor(node: BlockNode, height: nat): (a: BlockNode)
    requires height <= node.Height()
    ensures a.Height() == height
  {
    if node.Height() == height then node else Ancestor(node.parent, height)
  }

  /** `a` is the block itself or one its parent descends from. */
  ghost predicate Descends(node: BlockNode, a: BlockNode) {
    node == a || (node.Child? && Descends(node.parent, a))
  }

  /** There is one block below a node at every height up to its own. */
  lemma {:induction false} DescendsFromAncestor(node: BlockNode, a: BlockNode)
    ensures Descends(node, a) <==> a.Height() <= node.Height() && a == Ancestor(node, a.Height())
  {
    if node.Child? {
      DescendsFromAncestor(node.parent, a);
      if a != node && a.Height() == node.Height() {
        assert Ancestor(node, a.Height()) == node;
      }
    } else {
      assert a.Height() <= node.Height() ==> a.Genesis?;
    }
  }

  /** A block index: closed under parents, with no zero hash and no two blocks
      sharing a hash. */
  ghost predicate IsIndex(index: set<BlockNode>) {
    && (forall n | n in index :: n.hash != ZERO_HASH && (n.Child? ==> n.parent in index))
    && (forall m, n | m in index && n in index && m.hash == n.hash :: m == n)
  }

  lemma {:induction false} AncestorOfAncestor(node: BlockNode, high: nat, low: nat)
    requires low <= high <= node.Height()
    ensures Ancestor(Ancestor(node, high), low) == Ancestor(node, low)
  {
    if node.Height() != high {
      AncestorOfAncestor(node.parent, high, low);
    }
  }

  lemma {:induction false} AncestorInIndex(index: set<BlockNode>, node: BlockNode, height: nat)
    requires IsIndex(index) && node in index && height <= node.Height()
    ensures Ancestor(node, height) in index
  {
    if node.Height() != height {
      AncestorInIndex(index, node.parent, height);
    }
  }

  /** How many positive multiples of `interval` are at most the node's height. */
  function IntervalCount(node: BlockNode, interval: nat): nat
    requires interval > 0
  {
    node.Height() / interval
  }

  lemma IntervalHeightFits(node: BlockNode, interval: nat, k: nat)
    requires interval > 0 && k <= IntervalCount(node, interval)
    ensures 0 <= k * interval <= node.Height()
  {
    var count := IntervalCount(node, interval);
    assert count * interval <= node.Height();
    MultipleOrder(k, count, interval);
  }

  lemma MultipleOrder(j: nat, k: nat, interval: nat)
    requires j <= k
    ensures 0 <= j * interval <= k * interval
  {
    assert k * interval == j * interval + (k - j) * interval;
  }

  /** The block at the k-th positive multiple of `interval` on the node's own
      chain, counting from zero. */
  function IntervalNode(node: BlockNode, interval: nat, k: nat): BlockNode
    requires interval > 0 && k < IntervalCount(node, interval)
  {
    IntervalHeightFits(node, interval, k + 1);
    Ancestor(node, (k + 1) * interval)
  }

  /** The interval hashes of a block, by walking its own parent links. */
  function IntervalHashes(node: BlockNode, interval: nat): (hashes: seq<Hash>)
    requires interval > 0
  {
    seq(IntervalCount(node, interval),
        k requires 0 <= k < IntervalCount(node, interval) => IntervalNode(node, interval, k).hash)
  }

  /** One shared interval hash vouches for every lower one: the two chains have
      the same ancestry below it. */
  lemma MatchVouchesForAllBelow(index: set<BlockNode>, a: BlockNode, b: BlockNode,
                                interval: nat, j: nat, k: nat)
    requires IsIndex(index) && a in index && b in index && interval > 0
    requires k <= j < IntervalCount(a, interval) && j < IntervalCount(b, interval)
    requires IntervalHashes(a, interval)[j] == IntervalHashes(b, interval)[j]
    ensures IntervalHashes(a, interval)[k] == IntervalHashes(b, interval)[k]
  {
    IntervalHeightFits(a, interval, j + 1);
    IntervalHeightFits(b, interval, j + 1);
    MultipleOrder(k + 1, j + 1, interval);
    OneHashBelow(index, a, b, (j + 1) * interval, (k + 1) * interval);
  }

  lemma OneHashBelow(index: set<BlockNode>, a: BlockNode, b: BlockNode, high: nat, low: nat)
    requires IsIndex(index) && a in index && b in index && low <= high <= a.Height() && high <= b.Height()
    requires Ancestor(a, high).hash == Ancestor(b, high).hash
    ensures Ancestor(a, low) == Ancestor(b, low)
  {
    AncestorInIndex(index, a, high);
    AncestorInIndex(index, b, high);
    AncestorOfAncestor(a, high, low);
    AncestorOfAncestor(b, high, low);
  }

  /** A best chain view: node i is the block at height i, all on one chain. */
  ghost predicate IsChainView(view: seq<BlockNode>) {
    forall i | 0 <= i < |view| :: view[i].Height() == i
                                  && forall j | 0 <= j <= i :: view[j] == Ancestor(view[i], j)
  }

  /** A block that `node` descends from, at the k-th positive multiple of `interval`,
      counting from zero. */
  ghost predicate AtMultiple(node: BlockNode, a: BlockNode, interval: nat, k: nat) {
    Descends(node, a) && a.Height() == (k + 1) * interval
  }

  /** The hashes are those of the blocks that a block descends from, at every positive
      multiple of `interval` and nowhere else, lowest first. */
  ghost predicate ListsMultiples(hashes: seq<Hash>, node: BlockNode, interval: nat) {
    && (forall a, k: nat | AtMultiple(node, a, interval, k) :: k < |hashes| && hashes[k] == a.hash)
    && (forall k | 0 <= k < |hashes| :: HashAtMultiple(hashes[k], node, interval, k))
  }

  ghost predicate HashAtMultiple(hash: Hash, node: BlockNode, interval: nat, k: nat) {
    exists a :: AtMultiple(node, a, interval, k) && hash == a.hash
  }

  lemma MultipleIsListed(node: BlockNode, interval: nat, a: BlockNode, k: nat)
    requires interval > 0 && AtMultiple(node, a, interval, k)
    ensures k < IntervalCount(node, interval) && IntervalNode(node, interval, k) == a
  {
    DescendsFromAncestor(node, a);
    MultipleFits(node.Height(), interval, k + 1);
  }

  lemma MultipleFits(height: nat, interval: nat, k: nat)
    requires interval > 0 && k * interval <= height
    ensures k <= height / interval
  {
    if height / interval < k {
      MultipleOrder(height / interval + 1, k, interval);
      assert false;
    }
  }

  lemma ListedIsMultiple(node: BlockNode, interval: nat, k: nat)
    requires interval > 0 && k < IntervalCount(node, interval)
    ensures AtMultiple(node, IntervalNode(node, interval, k), interval, k)
  {
    IntervalHeightFits(node, interval, k + 1);
    DescendsFromAncestor(node, IntervalNode(node, interval, k));
  }

  lemma IntervalHashesListMultiples(node: BlockNode, interval: nat)
    requires interval > 0
    ensures ListsMultiples(IntervalHashes(node, interval), node, interval)
  {
    var hashes := IntervalHashes(node, interval);
    forall a, k: nat | AtMultiple(node, a, interval, k)
      ensures k < |hashes| && hashes[k] == a.hash
    {
      MultipleIsListed(node, interval, a, k);
    }
    forall k | 0 <= k < |hashes|
      ensures HashAtMultiple(hashes[k], node, interval, k)
    {
      ListedIsMultiple(node, interval, k);
      assert hashes[k] == IntervalNode(node, interval, k).hash;
    }
  }

  /** IntervalBlockHashes: walks down from the end block and, once it meets the
      best chain, jumps by height instead of by parent links.  The shortcut never
      changes the answer. */
  method IntervalBlockHashes(best: seq<BlockNode>, endNode: BlockNode, interval: nat) returns (hashes: seq<Hash>)
    requires IsChainView(best) && interval > 0
    ensures hashes == IntervalHashes(endNode, interval) && ListsMultiples(hashes, endNode, interval)
  {
    var index := IntervalCount(endNode, interval);
    var blockNode := endNode;
    hashes := [];
    while index > 0
      invariant 0 <= index <= IntervalCount(endNode, interval)
      invariant index * interval <= blockNode.Height() <= endNode.Height()
      invariant blockNode == Ancestor(endNode, blockNode.Height())
      invariant |hashes| == IntervalCount(endNode, interval) - index
      invariant hashes == IntervalHashes(endNode, interval)[index..]
    {
      IntervalHeightFits(endNode, interval, index);
      var blockHeight := index * interval;
      AncestorOfAncestor(endNode, blockNode.Height(), blockHeight);
      if blockNode.Height() < |best| && best[blockNode.Height()] == blockNode {
        blockNode := best[blockHeight];
      } else {
        blockNode := Ancestor(blockNode, blockHeight);
      }
      hashes := [blockNode.hash] + hashes;
      index := index - 1;
      MultipleOrder(index, index + 1, interval);
    }
    IntervalHashesListMultiples(endNode, interval);
  }
}
