/** Which lists of leaves can share a root, and which lengths a root tells apart. */
module RootBinding {
  import opened ByteStrings
  import opened Wrappers
  import opened Crypto
  import opened Merkle
  import opened MerkleBinding

  /** The length of every path of a list of n leaves. */
  function Depth(n: nat): nat
    requires n >= 1
  {
    if n == 1 then 0 else 1 + Depth((n + 1) / 2)
  }

  lemma {:induction false} PathLength(h: Hash, level: seq<Bytes>, p: nat)
    requires p < |level|
    ensures |PathAbove(h, level, p)| == Depth(|level|)
    decreases |level|
  {
    if |level| > 1 {
      PathLength(h, Reduce(h, level), p / 2);
    }
  }

  lemma {:induction false} TowerHeight(h: Hash, level: seq<Bytes>)
    requires |level| >= 1
    ensures |Levels(h, level)| == Depth(|level|) + 1
    decreases |level|
  {
    if |level| > 1 {
      TowerHeight(h, Reduce(h, level));
    }
  }

  // Two lists with one root

  /** The first collision that the leaves of one list, from a position on, give away under the other list's root. */
  function RootCollision(h: Hash, xs: seq<Bytes>, ys: seq<Bytes>, i: nat): Option<Pair>
    requires i <= |xs| && |ys| >= 1
    decreases |xs| - i
  {
    if i == |xs| then None
    else
      var found := BindingCollision(h, ys, xs[i], PathOf(h, xs, i), i);
      if found.Some? then found else RootCollision(h, xs, ys, i + 1)
  }

  lemma LeafBound(h: Hash, xs: seq<Bytes>, ys: seq<Bytes>, i: nat)
    requires i < |xs| && |ys| >= 1 && RootOf(h, xs) == RootOf(h, ys)
    ensures match BindingCollision(h, ys, xs[i], PathOf(h, xs, i), i)
      case Some(pair) => Collides(h, pair.fst, pair.snd)
      case None => xs[i] in ys && (i < |ys| ==> xs[i] == ys[i]) && Depth(|xs|) == Depth(|ys|)
  {
    hide BindingCollision, RootOf;
    PathVerifies(h, xs, i);
    PathLength(h, LeafLevel(h, xs), i);
    TowerHeight(h, LeafLevel(h, ys));
    RootBindsLeaf(h, ys, xs[i], PathOf(h, xs, i), i);
  }

  lemma {:induction false} LeavesBound(h: Hash, xs: seq<Bytes>, ys: seq<Bytes>, i: nat)
    requires i <= |xs| && |ys| >= 1 && RootOf(h, xs) == RootOf(h, ys)
    ensures match RootCollision(h, xs, ys, i)
      case Some(pair) => Collides(h, pair.fst, pair.snd)
      case None =>
        && (forall k :: i <= k < |xs| ==> xs[k] in ys && (k < |ys| ==> xs[k] == ys[k]))
        && (i < |xs| ==> Depth(|xs|) == Depth(|ys|))
    decreases |xs| - i
  {
    hide RootOf, PathOf, BindingCollision;
    if i < |xs| {
      LeafBound(h, xs, ys, i);
      LeavesBound(h, xs, ys, i + 1);
    }
  }

  /** Equal roots of equally long lists: the lists are equal or the computed pair collides. */
  lemma RootBindsList(h: Hash, xs: seq<Bytes>, ys: seq<Bytes>)
    requires |xs| == |ys| >= 1 && RootOf(h, xs) == RootOf(h, ys)
    ensures match RootCollision(h, xs, ys, 0)
      case Some(pair) => Collides(h, pair.fst, pair.snd)
      case None => xs == ys
  {
    hide RootOf, RootCollision;
    LeavesBound(h, xs, ys, 0);
  }

  // Lists of different lengths

  ghost predicate NoRepeats(xs: seq<Bytes>) {
    forall i, j :: 0 <= i < j < |xs| ==> xs[i] != xs[j]
  }

  function ListsCollision(h: Hash, xs: seq<Bytes>, ys: seq<Bytes>): Option<Pair>
    requires |xs| >= 1 && |ys| >= 1
  {
    var found := RootCollision(h, xs, ys, 0);
    if found.Some? then found else RootCollision(h, ys, xs, 0)
  }

  lemma LongerRepeats(xs: seq<Bytes>, ys: seq<Bytes>)
    requires NoRepeats(ys) && |xs| < |ys|
    requires forall k :: 0 <= k < |xs| ==> xs[k] == ys[k]
    ensures ys[|xs|] !in xs
  {
  }

  /**
   Equal roots of any two nonempty lists: they have the same leaves, one is a prefix of the
   other, and they are equal if no leaf is repeated; or the computed pair collides.
   */
  lemma RootBindsLeaves(h: Hash, xs: seq<Bytes>, ys: seq<Bytes>)
    requires |xs| >= 1 && |ys| >= 1 && RootOf(h, xs) == RootOf(h, ys)
    ensures match ListsCollision(h, xs, ys)
      case Some(pair) => Collides(h, pair.fst, pair.snd)
      case None =>
        && (forall x :: x in xs <==> x in ys)
        && (xs <= ys || ys <= xs)
        && Depth(|xs|) == Depth(|ys|)
        && (NoRepeats(xs) && NoRepeats(ys) ==> xs == ys)
  {
    hide RootOf, RootCollision, Depth;
    LeavesBound(h, xs, ys, 0);
    LeavesBound(h, ys, xs, 0);
    if ListsCollision(h, xs, ys).None? && NoRepeats(xs) && NoRepeats(ys) {
      if |xs| < |ys| {
        LongerRepeats(xs, ys);
      } else if |ys| < |xs| {
        LongerRepeats(ys, xs);
      }
    }
  }

  function Copies(x: Bytes, n: nat): (xs: seq<Bytes>) {
    seq(n, i => x)
  }

  ghost predicate Uniform(level: seq<Bytes>, v: Bytes) {
    forall p :: 0 <= p < |level| ==> level[p] == v
  }

  /** The node k levels above a level of equal nodes. */
  function NodeAbove(h: Hash, v: Bytes, k: nat): Bytes
    decreases k
  {
    if k == 0 then v else NodeAbove(h, NodeHash(h, v, v), k - 1)
  }

  lemma {:induction false} NodeAboveNext(h: Hash, v: Bytes, k: nat)
    ensures NodeAbove(h, v, k + 1) == NodeHash(h, NodeAbove(h, v, k), NodeAbove(h, v, k))
    decreases k
  {
    hide NodeHash;
    if k > 0 {
      NodeAboveNext(h, NodeHash(h, v, v), k - 1);
    }
  }

  lemma UniformReduces(h: Hash, level: seq<Bytes>, v: Bytes)
    requires Uniform(level, v)
    ensures Uniform(Reduce(h, level), NodeHash(h, v, v))
  {
    hide NodeHash;
    forall p | 0 <= p < |Reduce(h, level)|
      ensures Reduce(h, level)[p] == NodeHash(h, v, v)
    {
      ParentsAt(h, level, (|level| + 1) / 2, p);
    }
  }

  lemma {:induction false} UniformLevels(h: Hash, level: seq<Bytes>, v: Bytes, j: nat)
    requires |level| >= 1 && Uniform(level, v) && j < |Levels(h, level)|
    ensures Uniform(Levels(h, level)[j], NodeAbove(h, v, j))
    decreases |level|
  {
    hide NodeHash, Reduce;
    if j > 0 {
      UniformReduces(h, level, v);
      UniformLevels(h, Reduce(h, level), NodeHash(h, v, v), j - 1);
      assert Levels(h, level)[j] == Levels(h, Reduce(h, level))[j - 1];
    }
  }

  lemma {:induction false} UniformPath(h: Hash, level: seq<Bytes>, v: Bytes, p: nat, k: nat)
    requires p < |level| && Uniform(level, v) && k < |PathAbove(h, level, p)|
    ensures PathAbove(h, level, p)[k] == NodeAbove(h, v, k)
    decreases |level|
  {
    hide NodeHash, Reduce;
    if k > 0 {
      UniformReduces(h, level, v);
      UniformPath(h, Reduce(h, level), NodeHash(h, v, v), p / 2, k - 1);
    }
  }

  /** What is hashed to climb, or to build the tree, k levels above copies of a leaf. */
  function UniformPreimage(h: Hash, x: Bytes, k: nat): Bytes {
    if k == 0 then LeafPreimage(x)
    else NodePreimage(NodeAbove(h, LeafHash(h, x), k - 1), NodeAbove(h, LeafHash(h, x), k - 1))
  }

  lemma {:induction false} UniformClimb(h: Hash, x: Bytes, path: seq<Bytes>, index: int, k: nat)
    requires k <= |path|
    requires forall i :: 0 <= i < |path| ==> path[i] == NodeAbove(h, LeafHash(h, x), i)
    ensures ClimbPreimage(h, x, path, index, k) == UniformPreimage(h, x, k)
    ensures h.Of(ClimbPreimage(h, x, path, index, k)) == NodeAbove(h, LeafHash(h, x), k)
  {
    hide NodeAbove, NodePreimage, LeafPreimage;
    if k > 0 {
      UniformClimb(h, x, path, index, k - 1);
      NodeAboveNext(h, LeafHash(h, x), k - 1);
    } else {
      NodeAboveZero(h, LeafHash(h, x));
    }
  }

  lemma NodeAboveZero(h: Hash, v: Bytes)
    ensures NodeAbove(h, v, 0) == v
  {
  }

  lemma CopiesTower(h: Hash, x: Bytes, n: nat)
    requires n >= 1
    ensures var tower := Tower(h, Copies(x, n));
      && |tower| == Depth(n) + 1
      && (forall j :: 0 <= j < |tower| ==> Uniform(tower[j], NodeAbove(h, LeafHash(h, x), j)))
      && RootOf(h, Copies(x, n)) == NodeAbove(h, LeafHash(h, x), Depth(n))
  {
    hide Levels, NodeAbove, Uniform, LeafHash, RootOf;
    var xs := Copies(x, n);
    var tower := Tower(h, xs);
    TowerOfLeaves(h, xs);
    TowerHeight(h, LeafLevel(h, xs));
    CopiesAreUniform(h, x, n);
    forall j | 0 <= j < |tower|
      ensures Uniform(tower[j], NodeAbove(h, LeafHash(h, x), j))
    {
      UniformLevels(h, LeafLevel(h, xs), LeafHash(h, x), j);
    }
    UniformAt(tower[|tower| - 1], NodeAbove(h, LeafHash(h, x), |tower| - 1), 0);
  }

  lemma UniformAt(level: seq<Bytes>, v: Bytes, p: nat)
    requires Uniform(level, v) && p < |level|
    ensures level[p] == v
  {
  }

  lemma CopiesAreUniform(h: Hash, x: Bytes, n: nat)
    ensures Uniform(LeafLevel(h, Copies(x, n)), LeafHash(h, x))
  {
    forall p | 0 <= p < n
      ensures LeafLevel(h, Copies(x, n))[p] == LeafHash(h, x)
    {
      LeafLevelAt(h, Copies(x, n), p);
    }
  }

  /** Inside the tree of copies every descent agrees at every level. */
  lemma {:induction false} CopiesAgree(h: Hash, x: Bytes, n: nat, path: seq<Bytes>, index: int, k: nat, p: nat)
    requires n >= 1 && k <= |path| && k <= Depth(n)
    requires |Tower(h, Copies(x, n))| == Depth(n) + 1 && p < |Tower(h, Copies(x, n))[k]|
    requires forall i :: 0 <= i < |path| ==> path[i] == NodeAbove(h, LeafHash(h, x), i)
    ensures Descend(h, Copies(x, n), Tower(h, Copies(x, n)), x, path, index, k, k, p).None?
    decreases k
  {
    hide NodeAbove, NodePreimage, LeafPreimage, Tower, LeafHash, ClimbPreimage, TreePreimage;
    var tower := Tower(h, Copies(x, n));
    CopiesPreimages(h, x, n, path, index, k, p);
    if k > 0 {
      CopiesAgree(h, x, n, path, index, k - 1, ChildOnPath(tower, index, k, k, p));
    }
  }

  lemma CopiesPreimages(h: Hash, x: Bytes, n: nat, path: seq<Bytes>, index: int, k: nat, p: nat)
    requires n >= 1 && k <= |path| && k <= Depth(n)
    requires |Tower(h, Copies(x, n))| == Depth(n) + 1 && p < |Tower(h, Copies(x, n))[k]|
    requires forall i :: 0 <= i < |path| ==> path[i] == NodeAbove(h, LeafHash(h, x), i)
    ensures ClimbPreimage(h, x, path, index, k) == TreePreimage(Copies(x, n), Tower(h, Copies(x, n)), k, p)
    ensures k > 0 ==> HasChildren(Tower(h, Copies(x, n)), k, p)
  {
    hide NodeAbove, NodePreimage, LeafPreimage, Tower, LeafHash, IsTower, ClimbPreimage, Uniform;
    var xs := Copies(x, n);
    var tower := Tower(h, xs);
    UniformClimb(h, x, path, index, k);
    CopiesTower(h, x, n);
    TowerOfLeaves(h, xs);
    LevelHashesPreimage(h, xs, tower, k, p);
    if k > 0 {
      var v := NodeAbove(h, LeafHash(h, x), k - 1);
      UniformAt(tower[k - 1], v, 2 * p);
      UniformAt(tower[k - 1], v, SecondChild(|tower[k - 1]|, p));
    } else {
      TowerBase(h, xs);
    }
  }

  lemma TowerBase(h: Hash, xs: seq<Bytes>)
    requires |xs| >= 1
    ensures |Tower(h, xs)[0]| == |xs|
  {
  }

  lemma CopiesBind(h: Hash, x: Bytes, m: nat, n: nat, i: nat)
    requires 1 <= m && 1 <= n && i < m && Depth(m) == Depth(n)
    ensures BindingCollision(h, Copies(x, n), x, PathOf(h, Copies(x, m), i), i).None?
  {
    hide NodeAbove, Uniform, Descend, Tower, LeafHash, LeafLevel, PathAbove;
    var xs := Copies(x, m);
    var path := PathOf(h, xs, i);
    PathLength(h, LeafLevel(h, xs), i);
    CopiesAreUniform(h, x, m);
    forall k | 0 <= k < |path|
      ensures path[k] == NodeAbove(h, LeafHash(h, x), k)
    {
      UniformPath(h, LeafLevel(h, xs), LeafHash(h, x), i, k);
    }
    CopiesTower(h, x, n);
    CopiesAgree(h, x, n, path, i, Depth(n), 0);
  }

  lemma {:induction false} CopiesGiveNoCollision(h: Hash, x: Bytes, m: nat, n: nat, i: nat)
    requires 1 <= m && 1 <= n && i <= m && Depth(m) == Depth(n)
    ensures RootCollision(h, Copies(x, m), Copies(x, n), i).None?
    decreases m - i
  {
    hide BindingCollision, PathOf;
    if i < m {
      CopiesBind(h, x, m, n, i);
      CopiesGiveNoCollision(h, x, m, n, i + 1);
    }
  }

  /** Lists of these two lengths share a root only if they are equal or give away the computed collision. */
  ghost predicate LengthsBound(h: Hash, m: nat, n: nat)
    requires m >= 1 && n >= 1
  {
    forall xs: seq<Bytes>, ys: seq<Bytes> :: |xs| == m && |ys| == n && RootOf(h, xs) == RootOf(h, ys) ==>
      xs == ys || match RootCollision(h, xs, ys, 0)
        case Some(pair) => Collides(h, pair.fst, pair.snd)
        case None => false
  }

  /**
   Exactly which lengths a root tells apart: for lists of lengths m and n, equal roots force
   equal lists or a computed collision if and only if m and n are equal or their paths have
   different lengths. Otherwise m and n copies of any leaf share a root.
   */
  lemma RootBindsLengthsExactly(h: Hash, m: nat, n: nat)
    requires m >= 1 && n >= 1
    ensures LengthsBound(h, m, n) <==> m == n || Depth(m) != Depth(n)
  {
    hide RootOf, RootCollision, Depth, NodeAbove;
    if m == n || Depth(m) != Depth(n) {
      forall xs: seq<Bytes>, ys: seq<Bytes> | |xs| == m && |ys| == n && RootOf(h, xs) == RootOf(h, ys)
        ensures xs == ys || (RootCollision(h, xs, ys, 0).Some? &&
          Collides(h, RootCollision(h, xs, ys, 0).value.fst, RootCollision(h, xs, ys, 0).value.snd))
      {
        LeavesBound(h, xs, ys, 0);
        if m == n {
          RootBindsList(h, xs, ys);
        }
      }
    } else {
      var xs, ys := Copies([], m), Copies([], n);
      CopiesTower(h, [], m);
      CopiesTower(h, [], n);
      CopiesGiveNoCollision(h, [], m, n, 0);
      assert |xs| == m && |ys| == n;
    }
  }

  /** The smallest case: three leaves, and the same with the last one repeated. */
  lemma RootOfOddListRepeatsLastLeaf(h: Hash, a: Bytes, b: Bytes, c: Bytes)
    ensures RootOf(h, [a, b, c]) == RootOf(h, [a, b, c, c])
  {
    var three, four := [a, b, c], [a, b, c, c];
    var xs, ys := LeafLevel(h, three), LeafLevel(h, four);
    assert four[..3] == three;
    assert ys == xs + [LeafHash(h, c)];
    LeafLevelAt(h, three, 2);
    assert Parents(h, xs, 1) == Parents(h, ys, 1);
    assert Reduce(h, xs) == Reduce(h, ys);
  }
}
