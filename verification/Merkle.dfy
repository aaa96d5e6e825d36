/** The Merkle root of a block's transaction hashes. */
module Merkle {
  import opened Bytes

  type Block = s: Data | |s| == 32 witness Zeros(32)

  /** SHA-256 on bytes: any function to 32-byte blocks. */
  type Sha = Data -> Block

  /** `Buffer.concat([left, right])` */
  function Join(left: Block, right: Block): (both: Data)
    ensures |both| == 64 && both[..32] == left && both[32..] == right
  {
    var first: Data := left;
    first + right
  }

  // ---- the tree, from the root down ----

  /** Nodes at height `k` over `n` leaves. */
  function Count(n: nat, k: nat): nat {
    if k == 0 then n else (Count(n, k - 1) + 1) / 2
  }

  /** The height at which one node is left. */
  function Height(n: nat): nat {
    if n <= 1 then 0 else 1 + Height((n + 1) / 2)
  }

  /** Node `i` at height `k`; a node without a sibling is paired with itself. */
  function TreeNode(sha: Sha, leaves: seq<Block>, k: nat, i: nat): Block
    requires i < Count(|leaves|, k)
    decreases k
  {
    if k == 0 then leaves[i]
    else
      var left := TreeNode(sha, leaves, k - 1, 2 * i);
      var right := if 2 * i + 1 < Count(|leaves|, k - 1) then TreeNode(sha, leaves, k - 1, 2 * i + 1) else left;
      sha(Join(left, right))
  }

  /** What node `i` at height `k` hashes. */
  function Pair(sha: Sha, leaves: seq<Block>, k: nat, i: nat): Data
    requires k > 0 && i < Count(|leaves|, k)
  {
    var left := TreeNode(sha, leaves, k - 1, 2 * i);
    Join(left, if 2 * i + 1 < Count(|leaves|, k - 1) then TreeNode(sha, leaves, k - 1, 2 * i + 1) else left)
  }

  function TreeRoot(sha: Sha, leaves: seq<Block>): Block {
    if leaves == [] then Zeros(32)
    else
      OneAtTheTop(|leaves|);
      TreeNode(sha, leaves, Height(|leaves|), 0)
  }

  lemma {:induction false} CountFromHalf(n: nat, k: nat)
    ensures Count((n + 1) / 2, k) == Count(n, k + 1)
  {
    if k > 0 { CountFromHalf(n, k - 1); }
  }

  lemma {:induction false} OneAtTheTop(n: nat)
    requires n > 0
    ensures Count(n, Height(n)) == 1
  {
    if n > 1 {
      OneAtTheTop((n + 1) / 2);
      CountFromHalf(n, Height((n + 1) / 2));
    }
  }

  /** Below the top there is more than one node, and halving the count takes one off the height. */
  lemma {:induction false} HeightOfCount(n: nat, k: nat)
    requires n > 0 && k <= Height(n)
    ensures Count(n, k) > 0 && Height(Count(n, k)) == Height(n) - k
  {
    if k > 0 { HeightOfCount(n, k - 1); }
  }

  // ---- the loop ----

  /** The nodes at height `k`, in order. */
  function Level(sha: Sha, leaves: seq<Block>, k: nat): seq<Block> {
    seq(Count(|leaves|, k), i requires 0 <= i < Count(|leaves|, k) => TreeNode(sha, leaves, k, i))
  }

  lemma Leaves(sha: Sha, leaves: seq<Block>)
    ensures Level(sha, leaves, 0) == leaves
  {
  }

  lemma NextNode(sha: Sha, leaves: seq<Block>, k: nat, i: nat)
    requires i < Count(|leaves|, k + 1)
    ensures 2 * i < Count(|leaves|, k)
    ensures var level := Level(sha, leaves, k);
      Level(sha, leaves, k + 1)[i]
      == sha(Join(level[2 * i], if 2 * i + 1 < |level| then level[2 * i + 1] else level[2 * i]))
  {
    hide Join;
  }

  /** Level by level, as the source computes it: the result is the root of the tree. */
  method CalculateMerkleRoot(sha: Sha, txHashes: seq<Block>) returns (root: Block)
    ensures root == TreeRoot(sha, txHashes)
  {
    hide TreeNode, Join;
    if |txHashes| == 0 {
      return Zeros(32);
    }
    var currentLevel := txHashes;
    ghost var k := 0;
    assert Level(sha, txHashes, 0) == txHashes by { Leaves(sha, txHashes); }
    while |currentLevel| > 1
      invariant k <= Height(|txHashes|)
      invariant currentLevel == Level(sha, txHashes, k) && |currentLevel| > 0
      decreases Height(|txHashes|) - k
    {
      HeightOfCount(|txHashes|, k);
      var nextLevel: seq<Block> := [];
      var i := 0;
      while i < |currentLevel|
        invariant i == 2 * |nextLevel| && |nextLevel| <= Count(|txHashes|, k + 1)
        invariant nextLevel == Level(sha, txHashes, k + 1)[..|nextLevel|]
      {
        NextNode(sha, txHashes, k, |nextLevel|);
        var left := currentLevel[i];
        var right := if i + 1 < |currentLevel| then currentLevel[i + 1] else left;
        nextLevel := nextLevel + [sha(Join(left, right))];
        i := i + 2;
      }
      assert |nextLevel| == Count(|txHashes|, k + 1);
      currentLevel := nextLevel;
      k := k + 1;
    }
    HeightOfCount(|txHashes|, k);
    root := currentLevel[0];
  }

  // ---- what the root determines ----

  /** Everything hashed on the way to the root. */
  ghost predicate Hashes(sha: Sha, leaves: seq<Block>, text: Data) {
    exists k, i :: 1 <= k <= Height(|leaves|) && 0 <= i < Count(|leaves|, k) && text == Pair(sha, leaves, k, i)
  }

  /** No two texts hashed for either list share a digest. */
  ghost predicate NoCollision(sha: Sha, a: seq<Block>, b: seq<Block>) {
    forall x, y :: (Hashes(sha, a, x) || Hashes(sha, b, x)) && (Hashes(sha, a, y) || Hashes(sha, b, y))
      && sha(x) == sha(y)
      ==> x == y
  }

  lemma HalvesOfPair(sha: Sha, a: seq<Block>, b: seq<Block>, k: nat, i: nat)
    requires k > 0 && |a| == |b| && i < Count(|a|, k)
    requires Pair(sha, a, k, i) == Pair(sha, b, k, i)
    ensures TreeNode(sha, a, k - 1, 2 * i) == TreeNode(sha, b, k - 1, 2 * i)
    ensures 2 * i + 1 < Count(|a|, k - 1) ==>
      TreeNode(sha, a, k - 1, 2 * i + 1) == TreeNode(sha, b, k - 1, 2 * i + 1)
  {
    hide TreeNode, Join;
    var p, q := Pair(sha, a, k, i), Pair(sha, b, k, i);
    assert p[..32] == q[..32] && p[32..] == q[32..];
  }

  /** Equal nodes have equal children. */
  lemma SameChildren(sha: Sha, a: seq<Block>, b: seq<Block>, k: nat, i: nat)
    requires |a| == |b| && 0 < k <= Height(|a|) && i < Count(|a|, k) && NoCollision(sha, a, b)
    requires TreeNode(sha, a, k, i) == TreeNode(sha, b, k, i)
    ensures TreeNode(sha, a, k - 1, 2 * i) == TreeNode(sha, b, k - 1, 2 * i)
    ensures 2 * i + 1 < Count(|a|, k - 1) ==>
      TreeNode(sha, a, k - 1, 2 * i + 1) == TreeNode(sha, b, k - 1, 2 * i + 1)
  {
    hide Join;
    assert Hashes(sha, a, Pair(sha, a, k, i)) && Hashes(sha, b, Pair(sha, b, k, i));
    assert sha(Pair(sha, a, k, i)) == sha(Pair(sha, b, k, i));
    HalvesOfPair(sha, a, b, k, i);
  }

  lemma {:induction false} SameBelow(sha: Sha, a: seq<Block>, b: seq<Block>, k: nat)
    requires |a| == |b| > 0 && k <= Height(|a|)
    requires NoCollision(sha, a, b) && TreeRoot(sha, a) == TreeRoot(sha, b)
    ensures forall i :: 0 <= i < Count(|a|, k) ==> TreeNode(sha, a, k, i) == TreeNode(sha, b, k, i)
    decreases Height(|a|) - k
  {
    hide TreeNode, NoCollision;
    OneAtTheTop(|a|);
    if k < Height(|a|) {
      SameBelow(sha, a, b, k + 1);
      forall i | 0 <= i < Count(|a|, k) ensures TreeNode(sha, a, k, i) == TreeNode(sha, b, k, i) {
        assert TreeNode(sha, a, k + 1, i / 2) == TreeNode(sha, b, k + 1, i / 2);
        SameChildren(sha, a, b, k + 1, i / 2);
        assert i == 2 * (i / 2) || i == 2 * (i / 2) + 1;
      }
    }
  }

  /** Lists of one length with one root are the same list. */
  lemma RootFixesList(sha: Sha, a: seq<Block>, b: seq<Block>)
    requires |a| == |b| && TreeRoot(sha, a) == TreeRoot(sha, b)
    requires NoCollision(sha, a, b)
    ensures a == b
  {
    if a != [] {
      SameBelow(sha, a, b, 0);
      forall i | 0 <= i < |a| ensures a[i] == b[i] {
        assert TreeNode(sha, a, 0, i) == TreeNode(sha, b, 0, i);
      }
    }
  }

  lemma {:induction false} CountOfOdd(n: nat, k: nat)
    requires n % 2 == 1 && k > 0
    ensures Count(n + 1, k) == Count(n, k)
  {
    if k > 1 { CountOfOdd(n, k - 1); } else { assert Count(n, 0) == n && Count(n + 1, 0) == n + 1; }
  }

  lemma {:induction false} SameAboveLeaves(sha: Sha, a: seq<Block>, b: seq<Block>, k: nat, i: nat)
    requires k > 0 && |a| % 2 == 1 && b == a + [a[|a| - 1]] && i < Count(|a|, k)
    ensures i < Count(|b|, k) && TreeNode(sha, b, k, i) == TreeNode(sha, a, k, i)
    decreases k
  {
    hide Join;
    CountOfOdd(|a|, k);
    if k > 1 {
      CountOfOdd(|a|, k - 1);
      SameAboveLeaves(sha, a, b, k - 1, 2 * i);
      if 2 * i + 1 < Count(|a|, k - 1) { SameAboveLeaves(sha, a, b, k - 1, 2 * i + 1); }
    } else {
      assert Count(|a|, 0) == |a| && Count(|b|, 0) == |b|;
      assert TreeNode(sha, b, 0, 2 * i) == TreeNode(sha, a, 0, 2 * i);
    }
  }

  /** The length is not determined: repeating the last of an odd number of leaves keeps the root, except for a single
      leaf, whose root is the leaf itself. */
  lemma RepeatedLastLeaf(sha: Sha, a: seq<Block>)
    requires |a| % 2 == 1
    ensures TreeRoot(sha, a + [a[|a| - 1]]) == TreeRoot(sha, a) <==> |a| >= 3 || sha(Join(a[0], a[0])) == a[0]
  {
    var b := a + [a[|a| - 1]];
    hide *;
    if |a| >= 3 {
      ManyLeaves(sha, a, b);
    } else {
      OneLeaf(sha, a);
    }
  }

  lemma HeightOfOdd(n: nat)
    requires n % 2 == 1 && n >= 3
    ensures Height(n + 1) == Height(n) > 0
  {
    assert (n + 1 + 1) / 2 == (n + 1) / 2;
  }

  lemma ManyLeaves(sha: Sha, a: seq<Block>, b: seq<Block>)
    requires |a| % 2 == 1 && |a| >= 3 && b == a + [a[|a| - 1]]
    ensures TreeRoot(sha, b) == TreeRoot(sha, a)
  {
    hide TreeNode, Height, Count;
    HeightOfOdd(|a|);
    OneAtTheTop(|a|);
    SameAboveLeaves(sha, a, b, Height(|a|), 0);
  }

  lemma OneLeaf(sha: Sha, a: seq<Block>)
    requires |a| == 1
    ensures TreeRoot(sha, a) == a[0] && TreeRoot(sha, a + [a[0]]) == sha(Join(a[0], a[0]))
  {
    hide Join;
    var b := a + [a[0]];
    assert Height(1) == 0 && Height(2) == 1 + Height(1);
    assert TreeNode(sha, b, 0, 0) == a[0] && TreeNode(sha, b, 0, 1) == a[0];
    assert Count(2, 0) == 2 && Count(2, 1) == 1;
    assert TreeNode(sha, b, 1, 0) == sha(Join(a[0], a[0]));
  }
}
