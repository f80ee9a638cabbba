/** Reachable states that show what the exact conditions are for. */
module Witnesses {
  import opened ByteStrings
  import opened Wrappers
  import opened Crypto
  import opened Records
  import opened Graph
  import opened Seal
  import opened GrantTable
  import opened EventTable
  import opened LedgerState
  import opened Operations
  import opened Runs
  import opened Receipts
  import opened ReceiptProofs
  import Merkle

  /** A state after a run of operations with fresh ids. */
  ghost predicate Reached(c: Suite, w: Ledger) {
    exists ops :: FreshIds(c, EMPTY_LEDGER, ops) && Run(c, EMPTY_LEDGER, ops) == w
  }

  lemma EmptyReached(c: Suite)
    ensures Reached(c, EMPTY_LEDGER)
  {
    assert FreshIds(c, EMPTY_LEDGER, []) && Run(c, EMPTY_LEDGER, []) == EMPTY_LEDGER;
  }

  lemma ApplyReached(c: Suite, w: Ledger, op: Op)
    requires Reached(c, w) && FreshId(w, op)
    ensures Reached(c, Apply(c, w, op))
  {
    hide Apply, FreshId;
    var ops :| FreshIds(c, EMPTY_LEDGER, ops) && Run(c, EMPTY_LEDGER, ops) == w;
    assert (ops + [op])[..|ops|] == ops;
    assert FreshIds(c, EMPTY_LEDGER, ops + [op]) && Run(c, EMPTY_LEDGER, ops + [op]) == Apply(c, w, op);
  }

  lemma ReachedIsSound(c: Suite, w: Ledger)
    requires Reached(c, w)
    ensures Sound(c, w)
  {
    hide Sound, Run, FreshIds;
    var ops :| FreshIds(c, EMPTY_LEDGER, ops) && Run(c, EMPTY_LEDGER, ops) == w;
    RunIsSound(c, ops);
  }

  function Plain(newId: Bytes): Context {
    Context(true, 0, 0, 0, newId, {})
  }

  // Attenuation

  const ROOT_ID: Bytes := [1]
  const CHILD_ID: Bytes := [2]
  const LEAF_ID: Bytes := [3]
  const READ: Bytes := [114]

  function StoredRoot(c: Suite): Grant {
    StoredGrant(RootGrant(c, RootRequest([], [], None), ROOT_ID))
  }

  /** The child is limited to one capability. */
  function StoredChild(c: Suite): Grant {
    StoredGrant(ChildGrant(c, StoredRoot(c), DelegateRequest(ROOT_ID, [], [READ], None), CHILD_ID))
  }

  /** The leaf is delegated by the child with an empty list. */
  function StoredLeaf(c: Suite): Grant {
    StoredGrant(ChildGrant(c, StoredChild(c), DelegateRequest(CHILD_ID, [], [], None), LEAF_ID))
  }

  lemma GrantFields(c: Suite)
    ensures var g := StoredRoot(c);
      g.grantId == ROOT_ID && g.parentGrantId == [] && g.capabilities == [] && g.GetScope() == EMPTY_SCOPE
    ensures var g := StoredChild(c); g.grantId == CHILD_ID && g.parentGrantId == ROOT_ID && g.capabilities == [READ]
    ensures var g := StoredLeaf(c); g.grantId == LEAF_ID && g.parentGrantId == CHILD_ID && g.capabilities == []
  {
    hide Signature;
  }

  lemma FindLast(rows: seq<Grant>, g: Grant, id: Bytes)
    ensures FindGrant(rows + [g], id) == if g.grantId == id then Some(g) else FindGrant(rows, id)
  {
    assert (rows + [g])[..|rows|] == rows;
  }

  lemma RowFound(c: Suite, id: Bytes)
    ensures FindGrant([StoredRoot(c)], id) == (if id == ROOT_ID then Some(StoredRoot(c)) else None)
    ensures FindGrant([StoredRoot(c), StoredChild(c)], id) ==
      if id == CHILD_ID then Some(StoredChild(c)) else FindGrant([StoredRoot(c)], id)
    ensures FindGrant([StoredRoot(c), StoredChild(c), StoredLeaf(c)], id) ==
      if id == LEAF_ID then Some(StoredLeaf(c)) else FindGrant([StoredRoot(c), StoredChild(c)], id)
  {
    hide StoredRoot, StoredChild, StoredLeaf, FindGrant;
    GrantFields(c);
    var one, two := [StoredRoot(c)], [StoredRoot(c), StoredChild(c)];
    assert [] + one == one && one + [StoredChild(c)] == two;
    assert two + [StoredLeaf(c)] == [StoredRoot(c), StoredChild(c), StoredLeaf(c)];
    FindLast([], StoredRoot(c), id);
    FindNothing(id);
    FindLast(one, StoredChild(c), id);
    FindLast(two, StoredLeaf(c), id);
  }

  lemma RowsFound(c: Suite)
    ensures var one, two := [StoredRoot(c)], [StoredRoot(c), StoredChild(c)];
      && FindGrant(one, ROOT_ID) == Some(StoredRoot(c)) && FindGrant(one, CHILD_ID).None?
      && FindGrant(two, CHILD_ID) == Some(StoredChild(c)) && FindGrant(two, LEAF_ID).None?
    ensures var three := [StoredRoot(c), StoredChild(c), StoredLeaf(c)];
      && FindGrant(three, ROOT_ID) == Some(StoredRoot(c))
      && FindGrant(three, CHILD_ID) == Some(StoredChild(c))
      && FindGrant(three, LEAF_ID) == Some(StoredLeaf(c))
  {
    hide StoredRoot, StoredChild, StoredLeaf, FindGrant;
    assert ROOT_ID[0] != CHILD_ID[0] && CHILD_ID[0] != LEAF_ID[0] && ROOT_ID[0] != LEAF_ID[0];
    RowFound(c, ROOT_ID);
    RowFound(c, CHILD_ID);
    RowFound(c, LEAF_ID);
  }

  lemma FindNothing(id: Bytes)
    ensures FindGrant([], id) == None
  {
  }

  lemma RootReached(c: Suite) returns (w: Ledger)
    ensures Reached(c, w) && w == EMPTY_LEDGER.(grants := [StoredRoot(c)])
  {
    hide Reached, RootGrant, StoredGrant;
    EmptyReached(c);
    GrantFields(c);
    GrantIdsKept(c, RootRequest([], [], None), DelegateRequest([], [], [], None), StoredRoot(c), ROOT_ID);
    var op := OpIssue(RootRequest([], [], None), Plain(ROOT_ID));
    ApplyReached(c, EMPTY_LEDGER, op);
    w := Apply(c, EMPTY_LEDGER, op);
    StoredId(RootGrant(c, RootRequest([], [], None), ROOT_ID));
  }

  lemma StoredId(g: Grant)
    ensures StoredGrant(g).grantId == g.grantId
  {
  }

  lemma DelegateReached(c: Suite, w: Ledger, req: DelegateRequest, parent: Grant, newId: Bytes) returns (after: Ledger)
    requires Reached(c, w) && w.revoked == map[] && newId != [] && FindGrant(w.grants, newId).None?
    requires FindGrant(w.grants, req.parentGrantId) == Some(parent)
    ensures Reached(c, after) && after.revoked == map[]
    ensures after.grants == w.grants + [StoredGrant(ChildGrant(c, parent, req, newId))]
  {
    hide Reached, ChildGrant, RootGrant, StoredGrant, FindGrant;
    GrantIdsKept(c, RootRequest([], [], None), req, parent, newId);
    StoredId(ChildGrant(c, parent, req, newId));
    ApplyReached(c, w, OpDelegate(req, Plain(newId)));
    after := Apply(c, w, OpDelegate(req, Plain(newId)));
  }

  lemma LeafReached(c: Suite) returns (w: Ledger)
    ensures Reached(c, w) && w.grants == [StoredRoot(c), StoredChild(c), StoredLeaf(c)]
  {
    hide Reached, StoredRoot, ChildGrant, StoredGrant, FindGrant;
    RowsFound(c);
    w := RootReached(c);
    w := DelegateReached(c, w, DelegateRequest(ROOT_ID, [], [READ], None), StoredRoot(c), CHILD_ID);
    assert w.grants == [StoredRoot(c), StoredChild(c)];
    w := DelegateReached(c, w, DelegateRequest(CHILD_ID, [], [], None), StoredChild(c), LEAF_ID);
  }

  lemma LeafChain(c: Suite)
    ensures var rows := [StoredRoot(c), StoredChild(c), StoredLeaf(c)]; ChainOf(rows, LEAF_ID) == rows
    ensures FindGrant([StoredRoot(c), StoredChild(c), StoredLeaf(c)], LEAF_ID).Some?
  {
    hide StoredRoot, StoredChild, StoredLeaf, FindGrant;
    GrantFields(c);
    RowsFound(c);
    var rows := [StoredRoot(c), StoredChild(c), StoredLeaf(c)];
    assert Ancestors(rows, ROOT_ID, 1) == [StoredRoot(c)];
    assert Ancestors(rows, CHILD_ID, 2) == [StoredRoot(c), StoredChild(c)];
  }

  /**
   An empty list widens: the service stores a leaf with an empty list under a child limited to one
   capability, and its chain is accepted at every time although the leaf allows everything.
   */
  lemma EmptyListWidens(c: Suite) returns (w: Ledger)
    ensures Reached(c, w)
    ensures var chain := ChainOf(w.grants, LEAF_ID);
      && (forall now :: ChainHolds(c, NotaryVerifier(c), chain, now))
      && |chain| == 3 && chain[1].capabilities == [READ]
      && (forall x :: AllowsCapability(chain[2], x))
      && !NoListDropped(chain) && !Attenuates(chain)
  {
    hide Reached, StoredRoot, StoredChild, StoredLeaf, ChainHolds, ChainOf, FindGrant, Issued, EventsSound,
         AnchorsSound, SessionsSound, KeysUnique, Attenuates;
    w := LeafReached(c);
    var chain := ChainOf(w.grants, LEAF_ID);
    GrantFields(c);
    LeafChain(c);
    ReachedIsSound(c, w);
    forall now
      ensures ChainHolds(c, NotaryVerifier(c), chain, now)
    {
      StoredChainVerdict(c, w.grants, LEAF_ID, now);
    }
    assert chain[2 - 1].capabilities[0] == READ && chain[2].capabilities == [];
    AttenuationExact(c, NotaryVerifier(c), chain, 0);
  }

  // A lost number

  const SESSION_ID: Bytes := [4]
  const LOST_ID: Bytes := [5]
  const EVENT_ID: Bytes := [6]
  const SECOND_DRAFT :=
    ActionEvent(EVENT_ID, [], SESSION_ID, 2, 0, [], [], ROOT_ID, [], [], [], Some(0), [], [], [])
  const REQUEST := ActionRequest(SESSION_ID, ROOT_ID, [], [], [], [], [], [], 0)

  function Numbered(c: Suite, count: int64, events: seq<ActionEvent>, anchors: map<Bytes, Anchor>): Ledger {
    var session := Session(SESSION_ID, [], ROOT_ID, 0, 0, None, count);
    Ledger([StoredRoot(c)], map[], map[SESSION_ID := session], events, anchors)
  }

  function Second(c: Suite): ActionEvent {
    SealedEvent(c, SECOND_DRAFT, None)
  }

  lemma SessionReached(c: Suite) returns (w: Ledger)
    ensures Reached(c, w) && w == Numbered(c, 0, [], map[])
  {
    hide Reached, StoredRoot, FindGrant;
    GrantFields(c);
    RowsFound(c);
    w := RootReached(c);
    var op := OpBegin(ROOT_ID, 0, Plain(SESSION_ID));
    RootProject(c);
    ApplyReached(c, w, op);
    w := Apply(c, w, op);
  }

  lemma RootProject(c: Suite)
    ensures StoredRoot(c).projectId == [] && StoredRoot(c).expiresAt.None?
  {
    hide Signature;
  }

  lemma RootAuthorizes(c: Suite, count: int64, events: seq<ActionEvent>, ctx: Context)
    requires ctx.access && GetSession !in ctx.down && GrantChain !in ctx.down && IsRevoked !in ctx.down
    ensures Authorized(c, Numbered(c, count, events, map[]), REQUEST, ctx) == Ok([StoredRoot(c)])
  {
    hide StoredRoot, FindGrant, SignedBy;
    GrantFields(c);
    RowsFound(c);
    RootProject(c);
    assert ChainOf([StoredRoot(c)], ROOT_ID) == [StoredRoot(c)];
    assert ChainHolds(c, NotaryVerifier(c), [StoredRoot(c)], ctx.checkedAt);
    assert Allows(StoredRoot(c), [], [], 0);
  }

  /** A recording whose insert fails: its number is gone. */
  lemma NumberLost(c: Suite) returns (w: Ledger)
    ensures Reached(c, w) && w == Numbered(c, 1, [], map[])
  {
    hide Reached, StoredRoot, Authorized, SealedEvent;
    w := SessionReached(c);
    var ctx := Plain(LOST_ID).(down := {AppendEvent});
    RootAuthorizes(c, 0, [], ctx);
    ApplyReached(c, w, OpRecord(REQUEST, ctx));
    w := Apply(c, w, OpRecord(REQUEST, ctx));
  }

  /** The next recording succeeds with number 2. */
  lemma SecondRecorded(c: Suite) returns (w: Ledger)
    ensures Reached(c, w) && w.events == [Second(c)] && w.grants == [StoredRoot(c)]
  {
    hide Reached, StoredRoot, Authorized, SealedEvent, StoredEvent, SessionRoot;
    w := NumberLost(c);
    RootAuthorizes(c, 1, [], Plain(EVENT_ID));
    SecondFields(c);
    var op := OpRecord(REQUEST, Plain(EVENT_ID));
    ApplyReached(c, w, op);
    w := Apply(c, w, op);
  }

  lemma SecondFields(c: Suite)
    ensures var e := Second(c);
      e.eventId == EVENT_ID && e.sessionId == SESSION_ID && e.sequence == 2 && StoredEvent(e) == e
  {
    hide SealedEvent;
    SealKeepsFields(c, SECOND_DRAFT, None);
  }

  lemma OneRow(e: ActionEvent)
    ensures FindEvent([e], e.eventId) == Some(e) && |BySession([e], e.sessionId)| == 1
  {
    assert [e][..0] == [];
  }

  /**
   A lost number shifts positions: after a recording whose insert failed, the next one succeeds with
   number 2 as the only row, its leaf index is outside the tree, and it has no proof at any time.
   */
  lemma LostNumberLosesProof(c: Suite) returns (w: Ledger)
    ensures Reached(c, w) && w.events == [Second(c)] && Second(c).sequence == 2
    ensures InclusionProof(c, w, EVENT_ID, {}) == Err(Internal)
    ensures forall now :: !ProofConvinces(c, w, Second(c), {}, now)
  {
    hide Reached, StoredRoot, Second, ChainOf, Merkle.PathOf, Merkle.RootOf, ContentHashes, Convinces;
    w := SecondRecorded(c);
    SecondFields(c);
    OneRow(Second(c));
    assert WrapInt64(1) == 1;
  }
}
