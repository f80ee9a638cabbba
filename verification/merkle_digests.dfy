/**
 What a root and a path hash, byte for byte: the tree read from the top down, with the leaf prefix
 0x00 and the node prefix 0x01 written out.
 */
module MerkleDigests {
  import opened ByteStrings
  import opened Crypto
  import opened Merkle
  import opened RootBinding

  // Levels split in two

  lemma LevelSplits(h: Hash, leaves: seq<Bytes>, k: nat)
    requires k <= |leaves|
    ensures LeafLevel(h, leaves)[..k] == LeafLevel(h, leaves[..k])
    ensures LeafLevel(h, leaves)[k..] == LeafLevel(h, leaves[k..])
  {
    hide LeafHash;
    forall i | 0 <= i < |leaves|
      ensures LeafLevel(h, leaves)[i] == LeafHash(h, leaves[i])
    {
      LeafLevelAt(h, leaves, i);
    }
    forall i | 0 <= i < k
      ensures LeafLevel(h, leaves[..k])[i] == LeafHash(h, leaves[i])
    {
      LeafLevelAt(h, leaves[..k], i);
    }
    forall i | 0 <= i < |leaves| - k
      ensures LeafLevel(h, leaves[k..])[i] == LeafHash(h, leaves[k + i])
    {
      LeafLevelAt(h, leaves[k..], i);
    }
  }

  lemma ReduceAt(h: Hash, level: seq<Bytes>, p: nat)
    requires 2 * p < |level|
    ensures Reduce(h, level)[p] == Parent(h, level, p)
  {
    hide Parent;
    ParentsAt(h, level, (|level| + 1) / 2, p);
  }

  /** Halving a level that splits at an even place halves its parts. */
  lemma ReduceSplits(h: Hash, level: seq<Bytes>, k: nat)
    requires 2 * k <= |level|
    ensures Reduce(h, level)[..k] == Reduce(h, level[..2 * k])
    ensures Reduce(h, level)[k..] == Reduce(h, level[2 * k..])
  {
    hide Reduce;
    forall p | 0 <= p < k
      ensures Reduce(h, level)[p] == Reduce(h, level[..2 * k])[p]
    {
      ReduceAt(h, level, p);
      ReduceAt(h, level[..2 * k], p);
    }
    forall p | 0 <= p < |Reduce(h, level)| - k
      ensures Reduce(h, level)[k + p] == Reduce(h, level[2 * k..])[p]
    {
      ReduceAt(h, level, k + p);
      ReduceAt(h, level[2 * k..], p);
    }
  }

  // The tree from the top down

  /**
   The digest of a subtree of a given depth: of a leaf at depth 0, of its two halves above, where
   the right half may be missing and the left one then stands for both.
   */
  function Digest(h: Hash, leaves: seq<Bytes>, depth: nat): Bytes
    requires 1 <= |leaves| <= Power2(depth)
    decreases depth
  {
    if depth == 0 then h.Of([0x00] + leaves[0])
    else
      var half := Power2(depth - 1);
      if |leaves| <= half then
        var left := Digest(h, leaves, depth - 1);
        h.Of([0x01] + left + left)
      else h.Of([0x01] + Digest(h, leaves[..half], depth - 1) + Digest(h, leaves[half..], depth - 1))
  }

  /** The same above a level of nodes. */
  function DigestAbove(h: Hash, level: seq<Bytes>, depth: nat): Bytes
    requires 1 <= |level| <= Power2(depth)
    decreases depth
  {
    if depth == 0 then level[0]
    else
      var half := Power2(depth - 1);
      if |level| <= half then NodeHash(h, DigestAbove(h, level, depth - 1), DigestAbove(h, level, depth - 1))
      else NodeHash(h, DigestAbove(h, level[..half], depth - 1), DigestAbove(h, level[half..], depth - 1))
  }

  /** Hashing neighbours first and going up from there is the same. */
  lemma {:induction false} DigestAboveReduced(h: Hash, level: seq<Bytes>, depth: nat)
    requires 1 <= |level| <= Power2(depth + 1)
    ensures DigestAbove(h, level, depth + 1) == DigestAbove(h, Reduce(h, level), depth)
    decreases depth
  {
    hide NodeHash, DigestAbove, Reduce;
    if depth == 0 {
      PairReduced(h, level);
      DigestAboveUnfolds(h, Reduce(h, level), 0);
    } else {
      var quarter := Power2(depth - 1);
      assert Power2(depth) == 2 * quarter;
      DigestAboveUnfolds(h, level, depth + 1);
      DigestAboveUnfolds(h, Reduce(h, level), depth);
      if |level| <= 2 * quarter {
        DigestAboveReduced(h, level, depth - 1);
      } else {
        ReduceSplits(h, level, quarter);
        DigestAboveReduced(h, level[..2 * quarter], depth - 1);
        DigestAboveReduced(h, level[2 * quarter..], depth - 1);
      }
    }
  }

  lemma DigestAboveUnfolds(h: Hash, level: seq<Bytes>, depth: nat)
    requires 1 <= |level| <= Power2(depth)
    ensures depth == 0 ==> DigestAbove(h, level, depth) == level[0]
    ensures depth > 0 && |level| <= Power2(depth - 1) ==>
      DigestAbove(h, level, depth) ==
        NodeHash(h, DigestAbove(h, level, depth - 1), DigestAbove(h, level, depth - 1))
    ensures depth > 0 && |level| > Power2(depth - 1) ==>
      DigestAbove(h, level, depth) ==
        NodeHash(h, DigestAbove(h, level[..Power2(depth - 1)], depth - 1),
                 DigestAbove(h, level[Power2(depth - 1)..], depth - 1))
  {
    hide NodeHash;
  }

  lemma PairReduced(h: Hash, level: seq<Bytes>)
    requires 1 <= |level| <= 2
    ensures DigestAbove(h, level, 1) == Reduce(h, level)[0]
  {
    hide NodeHash;
    ReduceAt(h, level, 0);
    assert Power2(0) == 1;
  }

  lemma {:induction false} FitsDepth(n: nat)
    requires n >= 1
    ensures n <= Power2(Depth(n))
  {
    if n > 1 {
      FitsDepth((n + 1) / 2);
    }
  }

  lemma {:induction false} TopIsDigestAbove(h: Hash, level: seq<Bytes>)
    requires |level| >= 1 && |level| <= Power2(Depth(|level|))
    ensures Top(h, level) == DigestAbove(h, level, Depth(|level|))
    decreases |level|
  {
    hide NodeHash, Reduce, DigestAbove, Power2;
    if |level| > 1 {
      FitsDepth(|Reduce(h, level)|);
      TopIsDigestAbove(h, Reduce(h, level));
      DigestAboveReduced(h, level, Depth(|level|) - 1);
    } else {
      DigestAboveUnfolds(h, level, 0);
    }
  }

  lemma {:induction false} DigestOfLeaves(h: Hash, leaves: seq<Bytes>, depth: nat)
    requires 1 <= |leaves| <= Power2(depth)
    ensures DigestAbove(h, LeafLevel(h, leaves), depth) == Digest(h, leaves, depth)
    decreases depth
  {
    hide DigestAbove, Digest, LeafLevel, NodeHash;
    var level := LeafLevel(h, leaves);
    DigestAboveUnfolds(h, level, depth);
    DigestUnfolds(h, leaves, depth);
    if depth == 0 {
      LeafLevelAt(h, leaves, 0);
    } else {
      var half := Power2(depth - 1);
      if |leaves| <= half {
        DigestOfLeaves(h, leaves, depth - 1);
        NodeIs(h, Digest(h, leaves, depth - 1), Digest(h, leaves, depth - 1));
      } else {
        LevelSplits(h, leaves, half);
        DigestOfLeaves(h, leaves[..half], depth - 1);
        DigestOfLeaves(h, leaves[half..], depth - 1);
        NodeIs(h, Digest(h, leaves[..half], depth - 1), Digest(h, leaves[half..], depth - 1));
      }
    }
  }

  lemma NodeIs(h: Hash, left: Bytes, right: Bytes)
    ensures NodeHash(h, left, right) == h.Of([0x01] + left + right)
  {
  }

  /** What a root is: the digest of the tree read from the top down, and 32 zero bytes for no leaves. */
  lemma RootIsDigest(h: Hash, leaves: seq<Bytes>)
    ensures if |leaves| == 0 then |RootOf(h, leaves)| == 32 && forall i :: 0 <= i < 32 ==> RootOf(h, leaves)[i] == 0
            else |leaves| <= Power2(Depth(|leaves|)) && RootOf(h, leaves) == Digest(h, leaves, Depth(|leaves|))
  {
    hide Digest, DigestAbove, Top, LeafLevel;
    if |leaves| > 0 {
      FitsDepth(|leaves|);
      TopIsDigestAbove(h, LeafLevel(h, leaves));
      DigestOfLeaves(h, leaves, Depth(|leaves|));
    }
  }

  // Small and balanced trees

  lemma RootOfOne(h: Hash, x: Bytes)
    ensures RootOf(h, [x]) == h.Of([0x00] + x)
  {
    hide RootOf;
    RootIsDigest(h, [x]);
  }

  /** Three leaves: the third is hashed with itself. */
  lemma RootOfThree(h: Hash, x: Bytes, y: Bytes, z: Bytes)
    ensures var a, b, d := h.Of([0x00] + x), h.Of([0x00] + y), h.Of([0x00] + z);
      RootOf(h, [x, y, z]) == h.Of([0x01] + h.Of([0x01] + a + b) + h.Of([0x01] + d + d))
  {
    hide RootOf, Digest;
    var leaves := [x, y, z];
    RootIsDigest(h, leaves);
    assert Depth(3) == 2 && Power2(0) == 1 && Power2(1) == 2 && Power2(2) == 4;
    assert leaves[..2] == [x, y] && leaves[2..] == [z] && [x, y][..1] == [x] && [x, y][1..] == [y];
    DigestUnfolds(h, leaves, 2);
    DigestUnfolds(h, [x, y], 1);
    DigestUnfolds(h, [z], 1);
    DigestUnfolds(h, [x], 0);
    DigestUnfolds(h, [y], 0);
    DigestUnfolds(h, [z], 0);
  }

  lemma DigestUnfolds(h: Hash, leaves: seq<Bytes>, depth: nat)
    requires 1 <= |leaves| <= Power2(depth)
    ensures Digest(h, leaves, depth) ==
      if depth == 0 then h.Of([0x00] + leaves[0])
      else if |leaves| <= Power2(depth - 1) then
        h.Of([0x01] + Digest(h, leaves, depth - 1) + Digest(h, leaves, depth - 1))
      else
        h.Of([0x01] + Digest(h, leaves[..Power2(depth - 1)], depth - 1)
                    + Digest(h, leaves[Power2(depth - 1)..], depth - 1))
  {
  }

  lemma {:induction false} DepthOfPower2(k: nat)
    ensures Power2(k) >= 1 && Depth(Power2(k)) == k
  {
    if k > 0 {
      DepthOfPower2(k - 1);
    }
  }

  /** Twice as many leaves, a power of two: the hash of the roots of the two halves. */
  lemma RootOfHalves(h: Hash, leaves: seq<Bytes>, k: nat)
    requires |leaves| == Power2(k + 1)
    ensures Power2(k) <= |leaves|
    ensures RootOf(h, leaves) == h.Of([0x01] + RootOf(h, leaves[..Power2(k)]) + RootOf(h, leaves[Power2(k)..]))
  {
    hide RootOf, Digest, Depth;
    DepthOfPower2(k);
    DepthOfPower2(k + 1);
    RootIsDigest(h, leaves);
    RootIsDigest(h, leaves[..Power2(k)]);
    RootIsDigest(h, leaves[Power2(k)..]);
    DigestUnfolds(h, leaves, k + 1);
  }

  // Paths

  /** The empty path: the root is the leaf's own digest. */
  lemma VerifiesNoStep(h: Hash, leaf: Bytes, root: Bytes, index: int)
    ensures Verifies(h, leaf, [], root, index) <==> root == h.Of([0x00] + leaf)
  {
  }

  /** One step: the sibling on the right of an even index, on the left of an odd one. */
  lemma VerifiesOneStep(h: Hash, leaf: Bytes, sibling: Bytes, root: Bytes, index: int)
    ensures Verifies(h, leaf, [sibling], root, index) <==>
      root == if index % 2 == 0 then h.Of([0x01] + h.Of([0x00] + leaf) + sibling)
              else h.Of([0x01] + sibling + h.Of([0x00] + leaf))
  {
    hide Verifies;
    VerifiesNoStep(h, leaf, h.Of([0x00] + leaf), index);
    VerifiesLastStep(h, leaf, [], sibling, root, index, h.Of([0x00] + leaf));
    assert [] + [sibling] == [sibling];
  }

  /** The last step of a path joins the digest below it, its side given by the index halved toward zero. */
  lemma VerifiesLastStep(h: Hash, leaf: Bytes, path: seq<Bytes>, sibling: Bytes, root: Bytes, index: int, below: Bytes)
    requires Verifies(h, leaf, path, below, index)
    ensures Verifies(h, leaf, path + [sibling], root, index) <==>
      root == if Halved(index, |path|) % 2 == 0 then h.Of([0x01] + below + sibling) else h.Of([0x01] + sibling + below)
  {
    hide NodePreimage, LeafHash;
    LastStep(h, LeafHash(h, leaf), path, sibling, index);
    NodeBytes(below, sibling);
    NodeBytes(sibling, below);
  }

  lemma NodeBytes(left: Bytes, right: Bytes)
    ensures NodePreimage(left, right) == [0x01] + left + right
  {
  }

  /** An index divided by two a number of times, each time toward zero. */
  function Halved(index: int, times: nat): int
    decreases times
  {
    if times == 0 then index
    else if index >= 0 then Halved(index / 2, times - 1)
    else Halved(-((-index) / 2), times - 1)
  }

  lemma {:induction false} LastStep(h: Hash, cur: Bytes, path: seq<Bytes>, sibling: Bytes, index: int)
    ensures Climb(h, cur, path + [sibling], index) ==
      Join(h, Climb(h, cur, path, index), sibling, Halved(index, |path|))
    decreases |path|
  {
    hide Join;
    if |path| == 0 {
      assert [sibling][1..] == [] && path + [sibling] == [sibling];
    } else {
      assert (path + [sibling])[1..] == path[1..] + [sibling];
      LastStep(h, Join(h, cur, path[0], index), path[1..], sibling, GoHalf(index));
    }
  }
}
