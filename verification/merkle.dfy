/**
 The Merkle tree: leaves and inner nodes are hashed under the 0x00 and 0x01 prefixes of
 section 2.1 of RFC 6962, and each level is halved by hashing neighbours, an odd level's
 last node being paired with itself.
 */
module Merkle {
  import opened ByteStrings
  import opened Wrappers
  import opened Crypto

  datatype PathError = IndexOutOfRange(index: int, count: nat)

  function LeafPreimage(data: Bytes): Bytes {
    [0x00] + data
  }

  function NodePreimage(left: Bytes, right: Bytes): Bytes {
    [0x01] + left + right
  }

  function LeafHash(h: Hash, data: Bytes): Bytes {
    h.Of(LeafPreimage(data))
  }

  function NodeHash(h: Hash, left: Bytes, right: Bytes): Bytes {
    h.Of(NodePreimage(left, right))
  }

  // The specification

  function LeafLevel(h: Hash, leaves: seq<Bytes>): (level: seq<Bytes>)
    ensures |level| == |leaves|
  {
    if |leaves| == 0 then [] else
    LeafLevel(h, leaves[..|leaves| - 1]) + [LeafHash(h, leaves[|leaves| - 1])]
  }

  /** The second child of node p above a level: the first one again when the level ends there. */
  function SecondChild(count: nat, p: nat): nat {
    if 2 * p + 1 < count then 2 * p + 1 else 2 * p
  }

  /** Node p of the next level up. */
  function Parent(h: Hash, level: seq<Bytes>, p: nat): Bytes
    requires 2 * p < |level|
  {
    NodeHash(h, level[2 * p], level[SecondChild(|level|, p)])
  }

  /** The first m nodes of the next level up. */
  function Parents(h: Hash, level: seq<Bytes>, m: nat): (next: seq<Bytes>)
    requires 2 * m <= |level| + 1
    ensures |next| == m
  {
    if m == 0 then [] else Parents(h, level, m - 1) + [Parent(h, level, m - 1)]
  }

  function Reduce(h: Hash, level: seq<Bytes>): (next: seq<Bytes>)
    ensures |next| == (|level| + 1) / 2
  {
    Parents(h, level, (|level| + 1) / 2)
  }

  /** The single node that is left when a level is reduced until it has no neighbours. */
  function Top(h: Hash, level: seq<Bytes>): Bytes
    requires |level| >= 1
    decreases |level|
  {
    if |level| == 1 then level[0] else Top(h, Reduce(h, level))
  }

  function RootOf(h: Hash, leaves: seq<Bytes>): Bytes {
    if |leaves| == 0 then ZERO32 else Top(h, LeafLevel(h, leaves))
  }

  /** The neighbour that a node is hashed with: the node itself at the end of an odd level. */
  function Sibling(level: seq<Bytes>, p: nat): Bytes
    requires p < |level|
  {
    if p % 2 == 0 then level[if p + 1 < |level| then p + 1 else p] else level[p - 1]
  }

  /** The siblings met on the way from a node of a level to the top. */
  function PathAbove(h: Hash, level: seq<Bytes>, p: nat): seq<Bytes>
    requires p < |level|
    decreases |level|
  {
    if |level| == 1 then [] else [Sibling(level, p)] + PathAbove(h, Reduce(h, level), p / 2)
  }

  function PathOf(h: Hash, leaves: seq<Bytes>, index: nat): seq<Bytes>
    requires index < |leaves|
  {
    PathAbove(h, LeafLevel(h, leaves), index)
  }

  function Join(h: Hash, cur: Bytes, sibling: Bytes, index: int): Bytes {
    if index % 2 == 0 then NodeHash(h, cur, sibling) else NodeHash(h, sibling, cur)
  }

  /** The digest reached from a digest by hashing it with the siblings of any path, at any index. */
  function Climb(h: Hash, cur: Bytes, path: seq<Bytes>, index: int): Bytes
    decreases |path|
  {
    if |path| == 0 then cur else Climb(h, Join(h, cur, path[0], index), path[1..], GoHalf(index))
  }

  predicate Verifies(h: Hash, leaf: Bytes, path: seq<Bytes>, root: Bytes, index: int) {
    Climb(h, LeafHash(h, leaf), path, index) == root
  }

  // The code

  method ReduceLevel(h: Hash, level: seq<Bytes>) returns (next: seq<Bytes>)
    ensures next == Reduce(h, level)
  {
    hide NodeHash;
    next := [];
    var i := 0;
    while i < |level|
      invariant i % 2 == 0 && i <= |level| + 1
      invariant next == Parents(h, level, i / 2)
    {
      if i + 1 < |level| {
        next := next + [NodeHash(h, level[i], level[i + 1])];
      } else {
        next := next + [NodeHash(h, level[i], level[i])];
      }
      i := i + 2;
    }
  }

  method HashLeaves(h: Hash, leaves: seq<Bytes>) returns (level: seq<Bytes>)
    ensures level == LeafLevel(h, leaves)
  {
    level := [];
    for i := 0 to |leaves|
      invariant level == LeafLevel(h, leaves[..i])
    {
      assert leaves[..i + 1][..i] == leaves[..i];
      level := level + [LeafHash(h, leaves[i])];
    }
    assert leaves[..|leaves|] == leaves;
  }

  method Root(h: Hash, leaves: seq<Bytes>) returns (root: Bytes)
    ensures root == RootOf(h, leaves)
  {
    if |leaves| == 0 {
      return ZERO32;
    }
    var level := HashLeaves(h, leaves);
    while |level| > 1
      invariant |level| >= 1 && Top(h, level) == RootOf(h, leaves)
      decreases |level|
    {
      level := ReduceLevel(h, level);
    }
    return level[0];
  }

  method PickSibling(level: seq<Bytes>, idx: nat) returns (sibling: Bytes)
    requires idx < |level|
    ensures sibling == Sibling(level, idx)
  {
    if idx % 2 == 0 {
      if idx + 1 < |level| {
        sibling := level[idx + 1];
      } else {
        sibling := level[idx];
      }
    } else {
      sibling := level[idx - 1];
    }
  }

  method Path(h: Hash, leaves: seq<Bytes>, index: int) returns (r: Result<seq<Bytes>, PathError>)
    ensures r.Ok? <==> 0 <= index < |leaves|
    ensures r.Ok? ==> r.value == PathOf(h, leaves, index)
  {
    hide Reduce, Sibling, LeafLevel;
    if index < 0 || index >= |leaves| {
      return Err(IndexOutOfRange(index, |leaves|));
    }
    var level := HashLeaves(h, leaves);
    var path := [];
    var idx := index;
    while |level| > 1
      invariant 0 <= idx < |level|
      invariant path + PathAbove(h, level, idx) == PathOf(h, leaves, index)
      decreases |level|
    {
      var sibling := PickSibling(level, idx);
      ghost var above := PathAbove(h, Reduce(h, level), idx / 2);
      assert (path + [sibling]) + above == path + ([sibling] + above);
      path := path + [sibling];
      level := ReduceLevel(h, level);
      idx := idx / 2;
    }
    return Ok(path);
  }

  method Verify(h: Hash, leaf: Bytes, path: seq<Bytes>, root: Bytes, index: int) returns (ok: bool)
    ensures ok <==> Verifies(h, leaf, path, root, index)
  {
    var cur := LeafHash(h, leaf);
    var idx := index;
    for k := 0 to |path|
      invariant |cur| == 32
      invariant Climb(h, cur, path[k..], idx) == Climb(h, LeafHash(h, leaf), path, index)
    {
      if idx % 2 == 0 {
        cur := NodeHash(h, cur, path[k]);
      } else {
        cur := NodeHash(h, path[k], cur);
      }
      idx := GoHalf(idx);
    }
    if |cur| != |root| {
      return false;
    }
    for i := 0 to |cur|
      invariant forall j :: 0 <= j < i ==> cur[j] == root[j]
    {
      if cur[i] != root[i] {
        return false;
      }
    }
    return true;
  }

  // What the code is for

  lemma {:induction false} LeafLevelAt(h: Hash, leaves: seq<Bytes>, i: nat)
    requires i < |leaves|
    ensures LeafLevel(h, leaves)[i] == LeafHash(h, leaves[i])
  {
    if i < |leaves| - 1 {
      LeafLevelAt(h, leaves[..|leaves| - 1], i);
    }
  }

  lemma {:induction false} ParentsAt(h: Hash, level: seq<Bytes>, m: nat, p: nat)
    requires p < m && 2 * m <= |level| + 1
    ensures Parents(h, level, m)[p] == Parent(h, level, p)
  {
    if p < m - 1 {
      ParentsAt(h, level, m - 1, p);
    }
  }

  lemma ReduceJoinsSiblings(h: Hash, level: seq<Bytes>, p: nat)
    requires p < |level|
    ensures p / 2 < |Reduce(h, level)|
    ensures Reduce(h, level)[p / 2] == Join(h, level[p], Sibling(level, p), p)
  {
    ParentsAt(h, level, (|level| + 1) / 2, p / 2);
  }

  lemma {:induction false} PathClimbsToTop(h: Hash, level: seq<Bytes>, p: nat)
    requires p < |level|
    ensures Climb(h, level[p], PathAbove(h, level, p), p) == Top(h, level)
    decreases |level|
  {
    if |level| > 1 {
      ReduceJoinsSiblings(h, level, p);
      PathClimbsToTop(h, Reduce(h, level), p / 2);
    }
  }

  /** Completeness: the path built for any leaf of any list verifies against the list's root. */
  lemma PathVerifies(h: Hash, leaves: seq<Bytes>, index: nat)
    requires index < |leaves|
    ensures Verifies(h, leaves[index], PathOf(h, leaves, index), RootOf(h, leaves), index)
  {
    LeafLevelAt(h, leaves, index);
    PathClimbsToTop(h, LeafLevel(h, leaves), index);
  }

  function Power2(k: nat): nat {
    if k == 0 then 1 else 2 * Power2(k - 1)
  }

  lemma {:induction false} PathAboveBounds(h: Hash, level: seq<Bytes>, p: nat)
    requires p < |level|
    ensures var k := |PathAbove(h, level, p)|;
      && |level| <= Power2(k)
      && (|level| >= 2 ==> k >= 1 && Power2(k - 1) < |level|)
      && (|level| == 1 ==> k == 0)
    decreases |level|
  {
    hide Reduce, Sibling;
    if |level| > 1 {
      PathAboveBounds(h, Reduce(h, level), p / 2);
    }
  }

  /** A path for n leaves has length 0 when n = 1 and otherwise the k with 2^(k-1) < n <= 2^k. */
  lemma PathLengthBounds(h: Hash, leaves: seq<Bytes>, index: nat)
    requires index < |leaves|
    ensures var k := |PathOf(h, leaves, index)|;
      && |leaves| <= Power2(k)
      && (|leaves| >= 2 ==> k >= 1 && Power2(k - 1) < |leaves|)
      && (|leaves| == 1 ==> k == 0)
  {
    hide PathAbove;
    PathAboveBounds(h, LeafLevel(h, leaves), index);
  }
}
