/**
 What a Merkle root binds. A verifying path is compared with the tree from the root down:
 as long as the preimages agree the comparison moves to the child on the path, and the
 first disagreement is an explicit pair of byte strings with the same digest.
 */
module MerkleBinding {
  import opened ByteStrings
  import opened Wrappers
  import opened Crypto
  import opened Merkle

  /** A candidate collision: two byte strings. */
  datatype Pair = Pair(fst: Bytes, snd: Bytes)

  // The levels of a tree, leaves first

  /** `above` holds one digest for each pair of neighbours in `below`. */
  ghost predicate Rises(h: Hash, below: seq<Bytes>, above: seq<Bytes>) {
    && |above| == (|below| + 1) / 2
    && forall p :: 0 <= p < |above| ==> above[p] == Parent(h, below, p)
  }

  ghost predicate IsTower(h: Hash, leaves: seq<Bytes>, tower: seq<seq<Bytes>>) {
    && |tower| >= 1
    && |tower[0]| == |leaves|
    && (forall p :: 0 <= p < |leaves| ==> tower[0][p] == LeafHash(h, leaves[p]))
    && (forall j :: 0 < j < |tower| ==> Rises(h, tower[j - 1], tower[j]))
  }

  function Levels(h: Hash, level: seq<Bytes>): (tower: seq<seq<Bytes>>)
    requires |level| >= 1
    ensures |tower| >= 1 && tower[0] == level && |tower[|tower| - 1]| == 1
    decreases |level|
  {
    if |level| == 1 then [level] else [level] + Levels(h, Reduce(h, level))
  }

  function Tower(h: Hash, leaves: seq<Bytes>): (tower: seq<seq<Bytes>>)
    requires |leaves| >= 1
    ensures |tower| >= 1 && |tower[|tower| - 1]| == 1
  {
    Levels(h, LeafLevel(h, leaves))
  }

  lemma ReduceRises(h: Hash, level: seq<Bytes>)
    ensures Rises(h, level, Reduce(h, level))
  {
    forall p | 0 <= p < |Reduce(h, level)|
      ensures Reduce(h, level)[p] == Parent(h, level, p)
    {
      ParentsAt(h, level, (|level| + 1) / 2, p);
    }
  }

  lemma {:induction false} LevelsRise(h: Hash, level: seq<Bytes>)
    requires |level| >= 1
    ensures var tower := Levels(h, level);
      && (forall j :: 0 < j < |tower| ==> Rises(h, tower[j - 1], tower[j]))
      && tower[|tower| - 1][0] == Top(h, level)
    decreases |level|
  {
    hide Rises, Reduce;
    if |level| > 1 {
      var tower, rest := Levels(h, level), Levels(h, Reduce(h, level));
      LevelsRise(h, Reduce(h, level));
      ReduceRises(h, level);
      forall j | 0 < j < |tower|
        ensures Rises(h, tower[j - 1], tower[j])
      {
        assert tower[j] == rest[j - 1];
        if j > 1 {
          assert tower[j - 1] == rest[j - 2];
        }
      }
    }
  }

  lemma TowerOfLeaves(h: Hash, leaves: seq<Bytes>)
    requires |leaves| >= 1
    ensures IsTower(h, leaves, Tower(h, leaves))
    ensures var tower := Tower(h, leaves); tower[|tower| - 1][0] == RootOf(h, leaves)
  {
    LevelsRise(h, LeafLevel(h, leaves));
    forall p | 0 <= p < |leaves|
      ensures LeafLevel(h, leaves)[p] == LeafHash(h, leaves[p])
    {
      LeafLevelAt(h, leaves, p);
    }
  }

  /** Position j levels up on the way from an index: j truncating divisions by two. */
  function Ancestor(index: int, j: nat): int {
    if j == 0 then index else GoHalf(Ancestor(index, j - 1))
  }

  lemma {:induction false} AncestorInLevel(h: Hash, leaves: seq<Bytes>, tower: seq<seq<Bytes>>, index: nat, j: nat)
    requires IsTower(h, leaves, tower) && index < |leaves| && j < |tower|
    ensures 0 <= Ancestor(index, j) < |tower[j]|
  {
    if j > 0 {
      AncestorInLevel(h, leaves, tower, index, j - 1);
      assert Rises(h, tower[j - 1], tower[j]);
    }
  }

  // Preimages on both sides

  /** What is hashed last to climb k steps of a path: any path, any index. */
  function ClimbPreimage(h: Hash, leaf: Bytes, path: seq<Bytes>, index: int, k: nat): Bytes
    requires k <= |path|
  {
    if k == 0 then LeafPreimage(leaf)
    else
      var cur := h.Of(ClimbPreimage(h, leaf, path, index, k - 1));
      if Ancestor(index, k - 1) % 2 == 0 then NodePreimage(cur, path[k - 1])
      else NodePreimage(path[k - 1], cur)
  }

  /** Node p of level j has a first and a second child on the level below. */
  predicate HasChildren(tower: seq<seq<Bytes>>, j: nat, p: nat) {
    0 < j < |tower| && 2 * p < |tower[j - 1]|
  }

  /** What is hashed to give node p of level j. */
  function TreePreimage(leaves: seq<Bytes>, tower: seq<seq<Bytes>>, j: nat, p: nat): Bytes {
    if HasChildren(tower, j, p) then
      NodePreimage(tower[j - 1][2 * p], tower[j - 1][SecondChild(|tower[j - 1]|, p)])
    else if p < |leaves| then LeafPreimage(leaves[p])
    else []
  }

  lemma {:induction false} ClimbHashesPreimage(h: Hash, leaf: Bytes, path: seq<Bytes>, index: int, k: nat)
    requires k <= |path|
    ensures Climb(h, h.Of(ClimbPreimage(h, leaf, path, index, k)), path[k..], Ancestor(index, k))
         == h.Of(ClimbPreimage(h, leaf, path, index, |path|))
    decreases |path| - k
  {
    if k < |path| {
      ClimbHashesPreimage(h, leaf, path, index, k + 1);
      assert path[k..][0] == path[k] && path[k..][1..] == path[k + 1..];
    }
  }

  lemma LevelHashesPreimage(h: Hash, leaves: seq<Bytes>, tower: seq<seq<Bytes>>, j: nat, p: nat)
    requires IsTower(h, leaves, tower) && j < |tower| && p < |tower[j]|
    ensures tower[j][p] == h.Of(TreePreimage(leaves, tower, j, p))
    ensures j > 0 ==> HasChildren(tower, j, p)
  {
    if j > 0 {
      assert Rises(h, tower[j - 1], tower[j]);
    }
  }

  // The descent

  function ChildOnPath(tower: seq<seq<Bytes>>, index: int, k: nat, j: nat, p: nat): (child: nat)
    requires k > 0 && HasChildren(tower, j, p)
    ensures child < |tower[j - 1]|
  {
    if Ancestor(index, k - 1) % 2 == 0 then 2 * p else SecondChild(|tower[j - 1]|, p)
  }

  /** The first disagreement below step k of the path and node p of level j, if there is one. */
  function Descend(h: Hash, leaves: seq<Bytes>, tower: seq<seq<Bytes>>, leaf: Bytes, path: seq<Bytes>, index: int,
                   k: nat, j: nat, p: nat): Option<Pair>
    requires k <= |path|
    decreases k
  {
    var mine, theirs := ClimbPreimage(h, leaf, path, index, k), TreePreimage(leaves, tower, j, p);
    if mine != theirs then Some(Pair(mine, theirs))
    else if k == 0 || !HasChildren(tower, j, p) then None
    else Descend(h, leaves, tower, leaf, path, index, k - 1, j - 1, ChildOnPath(tower, index, k, j, p))
  }

  /** Equal node preimages with 32-byte digests on both sides of one and on one side of the other. */
  lemma NodePreimagesSplit(a: Bytes, b: Bytes, left: Bytes, right: Bytes)
    requires NodePreimage(a, b) == NodePreimage(left, right)
    requires |left| == 32 && |right| == 32 && (|a| == 32 || |b| == 32)
    ensures a == left && b == right
  {
    assert |NodePreimage(a, b)| == 1 + |a| + |b|;
    SplitConcat([0x01] + a, b, [0x01] + left, right);
    SplitConcat([0x01], a, [0x01], left);
  }

  /** A leaf preimage and a node preimage differ in their first byte. */
  lemma SameKind(h: Hash, leaves: seq<Bytes>, tower: seq<seq<Bytes>>, leaf: Bytes, path: seq<Bytes>, index: int,
                 k: nat, j: nat, p: nat)
    requires IsTower(h, leaves, tower) && k <= |path| && j < |tower| && p < |tower[j]|
    requires ClimbPreimage(h, leaf, path, index, k) == TreePreimage(leaves, tower, j, p)
    ensures k == 0 <==> j == 0
  {
    LevelHashesPreimage(h, leaves, tower, j, p);
    assert (ClimbPreimage(h, leaf, path, index, k)[0] == 0) == (k == 0);
    assert (TreePreimage(leaves, tower, j, p)[0] == 0) == (j == 0);
  }

  /** Where the preimages agree, both sides are inner nodes and the digests on the path agree. */
  lemma ChildrenAgree(h: Hash, leaves: seq<Bytes>, tower: seq<seq<Bytes>>, leaf: Bytes, path: seq<Bytes>, index: int,
                      k: nat, j: nat, p: nat)
    requires IsTower(h, leaves, tower) && HasChildren(tower, j, p) && 0 < k <= |path|
    requires ClimbPreimage(h, leaf, path, index, k) == TreePreimage(leaves, tower, j, p)
    ensures h.Of(ClimbPreimage(h, leaf, path, index, k - 1))
         == tower[j - 1][ChildOnPath(tower, index, k, j, p)]
  {
    var left, right := tower[j - 1][2 * p], tower[j - 1][SecondChild(|tower[j - 1]|, p)];
    var cur := h.Of(ClimbPreimage(h, leaf, path, index, k - 1));
    LevelHashesPreimage(h, leaves, tower, j - 1, 2 * p);
    LevelHashesPreimage(h, leaves, tower, j - 1, SecondChild(|tower[j - 1]|, p));
    if Ancestor(index, k - 1) % 2 == 0 {
      NodePreimagesSplit(cur, path[k - 1], left, right);
    } else {
      NodePreimagesSplit(path[k - 1], cur, left, right);
    }
  }

  /** On the way of an index of the list, the child on the path lies on that way too. */
  lemma ChildStaysOnWay(h: Hash, leaves: seq<Bytes>, tower: seq<seq<Bytes>>, index: nat, j: nat, p: nat)
    requires IsTower(h, leaves, tower) && index < |leaves| && HasChildren(tower, j, p)
    requires Ancestor(index, j) == p
    ensures Ancestor(index, j - 1) == ChildOnPath(tower, index, j, j, p)
  {
    AncestorInLevel(h, leaves, tower, index, j - 1);
  }

  /** One step of a descent: the child on the path meets what is required of its parent. */
  lemma StepDown(h: Hash, leaves: seq<Bytes>, tower: seq<seq<Bytes>>, leaf: Bytes, path: seq<Bytes>, index: int,
                 k: nat, j: nat, p: nat)
    requires IsTower(h, leaves, tower) && k <= |path| && j < |tower| && p < |tower[j]|
    requires ClimbPreimage(h, leaf, path, index, k) == TreePreimage(leaves, tower, j, p)
    requires k > 0 || j > 0
    ensures k > 0 && j > 0 && HasChildren(tower, j, p)
    ensures var child := ChildOnPath(tower, index, k, j, p);
      && h.Of(ClimbPreimage(h, leaf, path, index, k - 1)) == tower[j - 1][child]
      && (k == j && 0 <= index < |leaves| && Ancestor(index, k) == p ==> Ancestor(index, k - 1) == child)
  {
    SameKind(h, leaves, tower, leaf, path, index, k, j, p);
    LevelHashesPreimage(h, leaves, tower, j, p);
    ChildrenAgree(h, leaves, tower, leaf, path, index, k, j, p);
    if k == j && 0 <= index < |leaves| && Ancestor(index, k) == p {
      ChildStaysOnWay(h, leaves, tower, index, j, p);
    }
  }

  lemma LeavesAgree(h: Hash, leaves: seq<Bytes>, tower: seq<seq<Bytes>>, leaf: Bytes, path: seq<Bytes>, index: int,
                    p: nat)
    requires IsTower(h, leaves, tower) && p < |tower[0]|
    requires ClimbPreimage(h, leaf, path, index, 0) == TreePreimage(leaves, tower, 0, p)
    ensures p < |leaves| && leaf == leaves[p] && Ancestor(index, 0) == index
  {
    SplitConcat([0x00], leaf, [0x00], leaves[p]);
  }

  lemma {:induction false} DescendFinds(h: Hash, leaves: seq<Bytes>, tower: seq<seq<Bytes>>, leaf: Bytes,
                                        path: seq<Bytes>, index: int, k: nat, j: nat, p: nat)
    requires IsTower(h, leaves, tower) && k <= |path| && j < |tower| && p < |tower[j]|
    requires h.Of(ClimbPreimage(h, leaf, path, index, k)) == tower[j][p]
    ensures match Descend(h, leaves, tower, leaf, path, index, k, j, p)
      case Some(pair) => Collides(h, pair.fst, pair.snd)
      case None =>
        && k == j
        && leaf in leaves
        && (0 <= index < |leaves| && Ancestor(index, k) == p ==> leaf == leaves[index])
    decreases k
  {
    hide IsTower, ClimbPreimage, TreePreimage, Ancestor;
    LevelHashesPreimage(h, leaves, tower, j, p);
    if ClimbPreimage(h, leaf, path, index, k) == TreePreimage(leaves, tower, j, p) {
      if k == 0 && j == 0 {
        LeavesAgree(h, leaves, tower, leaf, path, index, p);
      } else {
        StepDown(h, leaves, tower, leaf, path, index, k, j, p);
        DescendFinds(h, leaves, tower, leaf, path, index, k - 1, j - 1, ChildOnPath(tower, index, k, j, p));
      }
    }
  }

  // Main results

  /** The collision that a path verifying for something other than a leaf of the list gives away. */
  function BindingCollision(h: Hash, leaves: seq<Bytes>, leaf: Bytes, path: seq<Bytes>, index: int): Option<Pair>
    requires |leaves| >= 1
  {
    var tower := Tower(h, leaves);
    Descend(h, leaves, tower, leaf, path, index, |path|, |tower| - 1, 0)
  }

  /**
   Binding: whatever path and index verify a leaf against the root of a nonempty list, the
   leaf is in the list, at that index if the index is one of the list's, and the path has as
   many steps as the tree; or the pair computed from them is a collision.
   */
  lemma RootBindsLeaf(h: Hash, leaves: seq<Bytes>, leaf: Bytes, path: seq<Bytes>, index: int)
    requires |leaves| >= 1
    requires Verifies(h, leaf, path, RootOf(h, leaves), index)
    ensures match BindingCollision(h, leaves, leaf, path, index)
      case Some(pair) => Collides(h, pair.fst, pair.snd)
      case None =>
        && leaf in leaves
        && (0 <= index < |leaves| ==> leaf == leaves[index])
        && |path| == |Tower(h, leaves)| - 1
  {
    var tower := Tower(h, leaves);
    TowerOfLeaves(h, leaves);
    ClimbHashesPreimage(h, leaf, path, index, 0);
    assert path[0..] == path;
    DescendFinds(h, leaves, tower, leaf, path, index, |path|, |tower| - 1, 0);
    if 0 <= index < |leaves| {
      AncestorInLevel(h, leaves, tower, index, |tower| - 1);
    }
  }

  /** The root of no leaves commits to nothing: a path verifying under it gives a preimage of 32 zero bytes. */
  lemma EmptyRootNeedsPreimage(h: Hash, leaf: Bytes, path: seq<Bytes>, index: int)
    requires Verifies(h, leaf, path, RootOf(h, []), index)
    ensures h.Of(ClimbPreimage(h, leaf, path, index, |path|)) == ZERO32
  {
    ClimbHashesPreimage(h, leaf, path, index, 0);
    assert path[0..] == path;
  }
}
