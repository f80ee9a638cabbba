/**
 The grants table and the recursive ancestor query over it. Rows are kept in the order of
 their insertion; a row's id is its primary key.
 */
module GrantTable {
  import opened ByteStrings
  import opened Wrappers
  import opened Crypto
  import opened Records
  import opened Graph

  /** `GetGrant` */
  function FindGrant(rows: seq<Grant>, id: Bytes): Option<Grant> {
    if |rows| == 0 then None
    else if rows[|rows| - 1].grantId == id then Some(rows[|rows| - 1])
    else FindGrant(rows[..|rows| - 1], id)
  }

  function ReplaceRow(rows: seq<Grant>, g: Grant): seq<Grant> {
    if |rows| == 0 then []
    else if rows[|rows| - 1].grantId == g.grantId then rows[..|rows| - 1] + [g]
    else ReplaceRow(rows[..|rows| - 1], g) + [rows[|rows| - 1]]
  }

  /** `PutGrant`: an insert that overwrites the row with the same id, if there is one. */
  function PutRow(rows: seq<Grant>, g: Grant): seq<Grant> {
    if FindGrant(rows, g.grantId).Some? then ReplaceRow(rows, g) else rows + [g]
  }

  /**
   The rows that `GrantChain` adds in its n-th round: first the row asked for, then, as long
   as there is a parent id, the row with that id.
   */
  function Generation(rows: seq<Grant>, id: Bytes, n: nat): Option<Grant> {
    if n == 0 then FindGrant(rows, id)
    else
      var child := Generation(rows, id, n - 1);
      if child.None? || child.value.parentGrantId == [] then None
      else FindGrant(rows, child.value.parentGrantId)
  }

  /** What the query has collected after a number of rounds, the latest row first. */
  function Ancestors(rows: seq<Grant>, id: Bytes, rounds: nat): seq<Grant>
    decreases rounds
  {
    if rounds == 0 || FindGrant(rows, id).None? then []
    else
      var g := FindGrant(rows, id).value;
      (if g.parentGrantId == [] then [] else Ancestors(rows, g.parentGrantId, rounds - 1)) + [g]
  }

  /** `GrantChain`: a query that ends at all ends within as many rounds as there are rows. */
  function ChainOf(rows: seq<Grant>, id: Bytes): seq<Grant> {
    Ancestors(rows, id, |rows|)
  }

  /** The query adds no row after the given number of rounds. */
  predicate EndsWithin(rows: seq<Grant>, id: Bytes, rounds: nat)
    decreases rounds
  {
    FindGrant(rows, id).None? ||
      (rounds > 0 &&
        var parentId := FindGrant(rows, id).value.parentGrantId;
        parentId == [] || EndsWithin(rows, parentId, rounds - 1))
  }

  /** The query ends: some round adds no row. */
  ghost predicate QueryEnds(rows: seq<Grant>, id: Bytes) {
    exists n: nat :: Generation(rows, id, n).None?
  }

  lemma {:induction false} GenerationAfterFirst(rows: seq<Grant>, id: Bytes, n: nat)
    ensures Generation(rows, id, n + 1) ==
      if FindGrant(rows, id).None? || FindGrant(rows, id).value.parentGrantId == [] then None
      else Generation(rows, FindGrant(rows, id).value.parentGrantId, n)
  {
    if n > 0 {
      GenerationAfterFirst(rows, id, n - 1);
    }
  }

  /** A query that has not ended after some rounds added a row in each round up to then. */
  lemma {:induction false} RoundsAddRows(rows: seq<Grant>, id: Bytes, rounds: nat, n: nat)
    requires n <= rounds
    ensures !EndsWithin(rows, id, rounds) ==> Generation(rows, id, n).Some?
    ensures EndsWithin(rows, id, rounds) ==> Generation(rows, id, rounds).None?
    decreases rounds
  {
    if rounds > 0 {
      GenerationAfterFirst(rows, id, rounds - 1);
    }
    if rounds > 0 && FindGrant(rows, id).Some? {
      var parentId := FindGrant(rows, id).value.parentGrantId;
      if parentId != [] {
        RoundsAddRows(rows, parentId, rounds - 1, if n == 0 then 0 else n - 1);
        if n > 0 {
          GenerationAfterFirst(rows, id, n - 1);
        }
      }
    }
  }

  lemma {:induction false} FoundGrantIsRow(rows: seq<Grant>, id: Bytes)
    requires FindGrant(rows, id).Some?
    ensures FindGrant(rows, id).value in rows
  {
    if rows[|rows| - 1].grantId != id {
      FoundGrantIsRow(rows[..|rows| - 1], id);
    }
  }

  /** More values than places: one comes twice. */
  lemma {:induction false} TwoAlike(xs: seq<Grant>, ys: seq<Grant>) returns (i: nat, j: nat)
    requires |xs| > |ys| && forall x :: x in xs ==> x in ys
    ensures i < j < |xs| && xs[i] == xs[j]
    decreases |xs|
  {
    var last, before := xs[|xs| - 1], xs[..|xs| - 1];
    assert xs == before + [last] && last in xs;
    if last in before {
      i :| 0 <= i < |before| && before[i] == last;
      j := |xs| - 1;
    } else {
      var k :| 0 <= k < |ys| && ys[k] == last;
      var others := ys[..k] + ys[k + 1..];
      forall x | x in before
        ensures x in others
      {
        assert x in xs;
        var p :| 0 <= p < |ys| && ys[p] == x;
        assert others[if p < k then p else p - 1] == x;
      }
      i, j := TwoAlike(before, others);
    }
  }

  /** A row that comes twice comes again and again. */
  lemma {:induction false} RepeatingNeverEnds(rows: seq<Grant>, id: Bytes, i: nat, j: nat, n: nat)
    requires i < j && Generation(rows, id, i) == Generation(rows, id, j)
    requires forall k: nat :: k <= j ==> Generation(rows, id, k).Some?
    ensures Generation(rows, id, n).Some?
    ensures n >= j ==> Generation(rows, id, n) == Generation(rows, id, n - (j - i))
  {
    if n > j {
      RepeatingNeverEnds(rows, id, i, j, n - 1);
      RepeatingNeverEnds(rows, id, i, j, n - (j - i));
    }
  }

  /** The query ends if and only if it ends within as many rounds as the table has rows. */
  lemma QueryEndsExactly(rows: seq<Grant>, id: Bytes)
    ensures QueryEnds(rows, id) <==> EndsWithin(rows, id, |rows|)
  {
    hide FindGrant, EndsWithin, Generation;
    RoundsAddRows(rows, id, |rows|, 0);
    if !EndsWithin(rows, id, |rows|) {
      forall n: nat | n <= |rows|
        ensures Generation(rows, id, n).Some? && Generation(rows, id, n).value in rows
      {
        RoundsAddRows(rows, id, |rows|, n);
        GenerationIsRow(rows, id, n);
      }
      var added := seq(|rows| + 1, n requires 0 <= n <= |rows| => Generation(rows, id, n).value);
      var i, j := TwoAlike(added, rows);
      forall n: nat
        ensures Generation(rows, id, n).Some?
      {
        RepeatingNeverEnds(rows, id, i, j, n);
      }
    }
  }

  lemma GenerationIsRow(rows: seq<Grant>, id: Bytes, n: nat)
    requires Generation(rows, id, n).Some?
    ensures Generation(rows, id, n).value in rows
  {
    hide FindGrant;
    FoundGrantIsRow(rows, if n == 0 then id else Generation(rows, id, n - 1).value.parentGrantId);
  }

  // What the delegation service keeps true of the table

  /** A row that `IssueRootGrant` or `Delegate` may add to the rows before it. */
  predicate IssuedAfter(c: Suite, earlier: seq<Grant>, g: Grant) {
    && g.grantId != []
    && g.expiresAt.None?
    && SignedBy(c, NotaryVerifier(c), g)
    && if g.parentGrantId == [] then g.principalId == g.subjectId
       else
         var parent := FindGrant(earlier, g.parentGrantId);
         && parent.Some?
         && g.projectId == parent.value.projectId
         && g.principalId == parent.value.subjectId
  }

  /** Every row was issued after the rows before it and under an id that they did not have. */
  predicate Issued(c: Suite, rows: seq<Grant>) {
    |rows| == 0 ||
      var g, earlier := rows[|rows| - 1], rows[..|rows| - 1];
      Issued(c, earlier) && IssuedAfter(c, earlier, g) && FindGrant(earlier, g.grantId).None?
  }

  lemma IssuedGrows(c: Suite, rows: seq<Grant>, g: Grant)
    requires Issued(c, rows) && IssuedAfter(c, rows, g) && FindGrant(rows, g.grantId).None?
    ensures Issued(c, PutRow(rows, g)) && PutRow(rows, g) == rows + [g]
  {
    assert (rows + [g])[..|rows|] == rows;
  }

  // How the query runs on such a table

  lemma {:induction false} ParentIsFound(c: Suite, rows: seq<Grant>, id: Bytes)
    requires Issued(c, rows) && FindGrant(rows, id).Some? && FindGrant(rows, id).value.parentGrantId != []
    ensures FindGrant(rows, FindGrant(rows, id).value.parentGrantId).Some?
  {
    hide SignedBy;
    if rows[|rows| - 1].grantId != id {
      ParentIsFound(c, rows[..|rows| - 1], id);
    }
  }

  lemma FreshIdNotFound(c: Suite, rows: seq<Grant>, earlier: seq<Grant>, id: Bytes)
    requires |rows| > 0 && earlier == rows[..|rows| - 1] && Issued(c, rows) && FindGrant(earlier, id).Some?
    ensures rows[|rows| - 1].grantId != id
  {
    hide IssuedAfter;
  }

  /** The last row is no ancestor of an earlier one. */
  lemma {:induction false} EarlierAncestors(c: Suite, rows: seq<Grant>, id: Bytes, rounds: nat)
    requires |rows| > 0 && Issued(c, rows) && FindGrant(rows[..|rows| - 1], id).Some?
    ensures Ancestors(rows, id, rounds) == Ancestors(rows[..|rows| - 1], id, rounds)
    ensures EndsWithin(rows, id, rounds) == EndsWithin(rows[..|rows| - 1], id, rounds)
    decreases rounds
  {
    hide IssuedAfter;
    var earlier := rows[..|rows| - 1];
    FreshIdNotFound(c, rows, earlier, id);
    var parentId := FindGrant(earlier, id).value.parentGrantId;
    if rounds > 0 && parentId != [] {
      ParentIsFound(c, earlier, id);
      EarlierAncestors(c, rows, parentId, rounds - 1);
    }
  }

  /** A chain read off the rows from the last one down, and the rounds that the query needs for it. */
  lemma {:induction false} ChainUnfolds(c: Suite, rows: seq<Grant>, id: Bytes, rounds: nat)
    requires Issued(c, rows) && rounds >= |rows|
    ensures EndsWithin(rows, id, rounds) && Ancestors(rows, id, rounds) == ChainOf(rows, id)
    ensures ChainOf(rows, id) ==
      if |rows| == 0 then []
      else
        var g, earlier := rows[|rows| - 1], rows[..|rows| - 1];
        if g.grantId != id then ChainOf(earlier, id)
        else if g.parentGrantId == [] then [g]
        else ChainOf(earlier, g.parentGrantId) + [g]
  {
    hide SignedBy;
    if FindGrant(rows, id).Some? {
      var g, earlier := rows[|rows| - 1], rows[..|rows| - 1];
      if g.grantId != id {
        EarlierAncestors(c, rows, id, rounds);
        EarlierAncestors(c, rows, id, |rows|);
        ChainUnfolds(c, earlier, id, rounds);
        ChainUnfolds(c, earlier, id, |rows|);
      } else if g.parentGrantId != [] {
        EarlierAncestors(c, rows, g.parentGrantId, rounds - 1);
        EarlierAncestors(c, rows, g.parentGrantId, |rows| - 1);
        ChainUnfolds(c, earlier, g.parentGrantId, rounds - 1);
      }
    }
  }

  /** On the tables of the delegation service every query ends. */
  lemma IssuedQueryEnds(c: Suite, rows: seq<Grant>, id: Bytes)
    requires Issued(c, rows)
    ensures QueryEnds(rows, id)
  {
    ChainUnfolds(c, rows, id, |rows|);
    QueryEndsExactly(rows, id);
  }

  /** Adding a row under a fresh id leaves every other chain as it was. */
  lemma ChainKept(c: Suite, rows: seq<Grant>, g: Grant, id: Bytes)
    requires Issued(c, rows + [g]) && id != g.grantId
    ensures ChainOf(rows + [g], id) == ChainOf(rows, id)
    ensures FindGrant(rows + [g], id) == FindGrant(rows, id)
  {
    hide IssuedAfter, ChainOf;
    assert (rows + [g])[..|rows|] == rows;
    ChainUnfolds(c, rows + [g], id, |rows| + 1);
  }

  /** The chain of a new row is its parent's chain and the row. */
  lemma ChainOfNewRow(c: Suite, rows: seq<Grant>, g: Grant)
    requires Issued(c, rows + [g])
    ensures ChainOf(rows + [g], g.grantId) ==
      if g.parentGrantId == [] then [g] else ChainOf(rows, g.parentGrantId) + [g]
    ensures FindGrant(rows + [g], g.grantId) == Some(g)
  {
    hide IssuedAfter, ChainOf;
    assert (rows + [g])[..|rows|] == rows;
    ChainUnfolds(c, rows + [g], g.grantId, |rows| + 1);
  }

  // The forest

  /** Linked root-first, with one project, each principal the subject of its parent, all signed and unexpiring. */
  ghost predicate Delegated(c: Suite, chain: seq<Grant>) {
    && |chain| > 0
    && chain[0].parentGrantId == []
    && chain[0].principalId == chain[0].subjectId
    && (forall i :: 0 <= i < |chain| ==>
      && chain[i].expiresAt.None?
      && chain[i].projectId == chain[0].projectId
      && SignedBy(c, NotaryVerifier(c), chain[i]))
    && (forall i :: 0 < i < |chain| ==>
      && chain[i].parentGrantId != []
      && chain[i].parentGrantId == chain[i - 1].grantId
      && chain[i].principalId == chain[i - 1].subjectId)
  }

  lemma DelegatedGrows(c: Suite, chain: seq<Grant>, g: Grant)
    requires Delegated(c, chain)
    requires g.expiresAt.None? && g.projectId == chain[|chain| - 1].projectId && SignedBy(c, NotaryVerifier(c), g)
    requires g.parentGrantId != [] && g.parentGrantId == chain[|chain| - 1].grantId
    requires g.principalId == chain[|chain| - 1].subjectId
    ensures Delegated(c, chain + [g])
  {
    hide SignedBy;
  }

  /**
   The grant forest: in every table the service builds, the chain of a stored grant is
   nonempty, delegated root-first, no longer than the table, and ends at that grant.
   */
  lemma {:induction false} ChainIsDelegated(c: Suite, rows: seq<Grant>, id: Bytes)
    requires Issued(c, rows) && FindGrant(rows, id).Some?
    ensures var chain := ChainOf(rows, id);
      && Delegated(c, chain)
      && |chain| <= |rows|
      && FindGrant(rows, id) == Some(chain[|chain| - 1])
      && chain[|chain| - 1].grantId == id
  {
    hide SignedBy, ChainOf;
    var g, earlier := rows[|rows| - 1], rows[..|rows| - 1];
    ChainUnfolds(c, rows, id, |rows|);
    if g.grantId != id {
      ChainIsDelegated(c, earlier, id);
    } else if g.parentGrantId != [] {
      ChainIsDelegated(c, earlier, g.parentGrantId);
      DelegatedGrows(c, ChainOf(earlier, g.parentGrantId), g);
    }
  }

  lemma NoGrantNoChain(rows: seq<Grant>, id: Bytes)
    requires FindGrant(rows, id).None?
    ensures ChainOf(rows, id) == []
  {
  }

  lemma {:induction false} EmptyIdIsNotFound(c: Suite, rows: seq<Grant>)
    requires Issued(c, rows)
    ensures FindGrant(rows, []).None?
  {
    hide IssuedAfter;
    if |rows| > 0 {
      assert rows[|rows| - 1].grantId != [] by {
        assert IssuedAfter(c, rows[..|rows| - 1], rows[|rows| - 1]);
        IssuedIdNotEmpty(c, rows[..|rows| - 1], rows[|rows| - 1]);
      }
      EmptyIdIsNotFound(c, rows[..|rows| - 1]);
    }
  }

  lemma IssuedIdNotEmpty(c: Suite, earlier: seq<Grant>, g: Grant)
    requires IssuedAfter(c, earlier, g)
    ensures g.grantId != []
  {
    hide SignedBy;
  }

  /** The chain of an ancestor is the part of the chain up to it. */
  lemma {:induction false} AncestorChainIsPrefix(c: Suite, rows: seq<Grant>, id: Bytes, k: nat)
    requires Issued(c, rows) && FindGrant(rows, id).Some? && k < |ChainOf(rows, id)|
    ensures var chain := ChainOf(rows, id);
      && ChainOf(rows, chain[k].grantId) == chain[..k + 1]
      && FindGrant(rows, chain[k].grantId) == Some(chain[k])
  {
    hide SignedBy, ChainOf;
    var g, earlier, chain := rows[|rows| - 1], rows[..|rows| - 1], ChainOf(rows, id);
    ChainIsDelegated(c, rows, id);
    ChainUnfolds(c, rows, id, |rows|);
    if k == |chain| - 1 {
      assert chain[..k + 1] == chain;
    } else {
      var next := if g.grantId == id then g.parentGrantId else id;
      AncestorChainIsPrefix(c, earlier, next, k);
      assert chain[..k + 1] == ChainOf(earlier, next)[..k + 1];
      FreshIdNotFound(c, rows, earlier, chain[k].grantId);
      ChainUnfolds(c, rows, chain[k].grantId, |rows|);
    }
  }

  /**
   The recursive query returns the chain and stops: round n adds the n-th row from the
   chain's end, and no row once the root has been added.
   */
  lemma {:induction false} GenerationsAreTheChain(c: Suite, rows: seq<Grant>, id: Bytes, n: nat)
    requires Issued(c, rows) && FindGrant(rows, id).Some?
    ensures var chain := ChainOf(rows, id);
      Generation(rows, id, n) == if n < |chain| then Some(chain[|chain| - 1 - n]) else None
  {
    hide SignedBy;
    var chain := ChainOf(rows, id);
    ChainIsDelegated(c, rows, id);
    if n > 0 {
      GenerationsAreTheChain(c, rows, id, n - 1);
      if n < |chain| {
        AncestorChainIsPrefix(c, rows, id, |chain| - 1 - n);
      }
    }
  }

  // Verification of stored chains

  ghost predicate AllNonWidening(chain: seq<Grant>) {
    forall i :: 0 < i < |chain| ==> NonWidening(chain[i - 1], chain[i])
  }

  /**
   For a stored grant only the depth limit and the capability lists can make `VerifyChain`
   refuse, and it does so at all times or at none.
   */
  lemma StoredChainVerdict(c: Suite, rows: seq<Grant>, id: Bytes, now: int)
    requires Issued(c, rows) && FindGrant(rows, id).Some?
    ensures ChainHolds(c, NotaryVerifier(c), ChainOf(rows, id), now) <==>
      ChainOf(rows, id) != [] && DepthHolds(ChainOf(rows, id)) && AllNonWidening(ChainOf(rows, id))
  {
    hide SignedBy, NonWidening;
    var chain := ChainOf(rows, id);
    ChainIsDelegated(c, rows, id);
    if ChainHolds(c, NotaryVerifier(c), chain, now) {
      forall i | 0 < i < |chain|
        ensures NonWidening(chain[i - 1], chain[i])
      {
        assert LinkHolds(c, NotaryVerifier(c), chain[i - 1], chain[i]);
      }
    }
  }

  /**
   Ancestor closure: when a stored grant's chain verifies, so does each ancestor's, at any time,
   exactly when it is in depth, which only a chain too long for the 32-bit comparison can prevent.
   */
  lemma AncestorChainsVerify(c: Suite, rows: seq<Grant>, id: Bytes, k: nat, now: int, other: int)
    requires Issued(c, rows) && FindGrant(rows, id).Some? && k < |ChainOf(rows, id)|
    requires ChainHolds(c, NotaryVerifier(c), ChainOf(rows, id), now)
    ensures var ancestors := ChainOf(rows, ChainOf(rows, id)[k].grantId);
      && ancestors != []
      && (ChainHolds(c, NotaryVerifier(c), ancestors, other) <==> DepthHolds(ancestors))
      && (|ChainOf(rows, id)| <= TWO_31 ==> DepthHolds(ancestors))
  {
    hide ChainHolds, Issued, ChainOf, DepthHolds;
    var chain := ChainOf(rows, id);
    AncestorChainIsPrefix(c, rows, id, k);
    PrefixHolds(c, NotaryVerifier(c), chain, now, k + 1, now);
    StoredChainVerdict(c, rows, chain[k].grantId, now);
    StoredChainVerdict(c, rows, chain[k].grantId, other);
  }

  /**
   Fresh ids are needed: a child stored under its own parent's id overwrites the parent, and
   then the query's rounds never run out.
   */
  lemma ReusedIdLoops(g: Grant, n: nat)
    requires g.grantId != [] && g.parentGrantId == []
    ensures var child := g.(parentGrantId := g.grantId);
      Generation(PutRow([g], child), g.grantId, n) == Some(child)
  {
    var child := g.(parentGrantId := g.grantId);
    assert PutRow([g], child) == [child];
    if n > 0 {
      ReusedIdLoops(g, n - 1);
    }
  }
}
