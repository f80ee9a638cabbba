/**
 Reachable overlaps that break what needs turns: two recordings of a session, a recording and an
 ending, and a revocation while a recording is past its check.
 */
module Races {
  import opened ByteStrings
  import opened Wrappers
  import opened Crypto
  import opened Records
  import opened Seal
  import opened GrantTable
  import opened EventTable
  import opened LedgerState
  import opened Operations
  import opened Runs
  import opened LosslessRuns
  import opened Revocation
  import opened Machine
  import opened Concurrency
  import Canon
  import Merkle

  ghost predicate Reachable(c: Suite, m: State) {
    exists actions :: FreshActions(c, INITIAL, actions) && Exec(c, INITIAL, actions) == m
  }

  lemma InitialReachable(c: Suite)
    ensures Reachable(c, INITIAL)
  {
    assert FreshActions(c, INITIAL, []) && Exec(c, INITIAL, []) == INITIAL;
  }

  lemma NextReachable(c: Suite, m: State, a: Action)
    requires Reachable(c, m) && FreshAction(m, a)
    ensures Reachable(c, Next(c, m, a))
  {
    hide Next, FreshAction, Exec;
    var actions :| FreshActions(c, INITIAL, actions) && Exec(c, INITIAL, actions) == m;
    ExecSnoc(c, INITIAL, actions, a);
    assert (actions + [a])[..|actions|] == actions;
    assert FreshActions(c, INITIAL, actions + [a]);
  }

  // One grant, one session, and operations on it that never fail

  const GRANT_ID: Bytes := [1]
  const SESSION_ID: Bytes := [2]
  const FIRST_ID: Bytes := [3]
  const SECOND_ID: Bytes := [4]
  const REQUEST := ActionRequest(SESSION_ID, GRANT_ID, [], [], [], [], [], [], 0)

  function Calm(newId: Bytes): Context {
    Context(true, 0, 0, 0, newId, {})
  }

  function RaceGrant(c: Suite): Grant {
    StoredGrant(RootGrant(c, RootRequest([], [], None), GRANT_ID))
  }

  function RaceSession(count: int64): Session {
    Session(SESSION_ID, [], GRANT_ID, 0, 0, None, count)
  }

  function RaceDraft(sequence: int64, eventId: Bytes): ActionEvent {
    ActionEvent(eventId, [], SESSION_ID, sequence, 0, [], [], GRANT_ID, [], [], [], Some(0), [], [], [])
  }

  function First(c: Suite): ActionEvent {
    SealedEvent(c, RaceDraft(1, FIRST_ID), None)
  }

  function Second(c: Suite): ActionEvent {
    SealedEvent(c, RaceDraft(2, SECOND_ID), None)
  }

  /** Where a race stands: the operations in flight, the rows and the numbers given out. Nothing was lost. */
  ghost predicate At(c: Suite, m: State, ops: map<nat, Pc>, events: seq<ActionEvent>, count: int64) {
    && Reachable(c, m)
    && m.ops == ops && m.lost == INITIAL.lost
    && m.w.grants == [RaceGrant(c)] && m.w.events == events
    && SESSION_ID in m.w.sessions && m.w.sessions[SESSION_ID].(endedAt := None) == RaceSession(count)
  }

  lemma RaceGrantFields(c: Suite)
    ensures var g := RaceGrant(c);
      && g.grantId == GRANT_ID && g.parentGrantId == [] && g.projectId == [] && g.capabilities == []
      && g.GetScope() == EMPTY_SCOPE && g.expiresAt.None?
    ensures ChainOf([RaceGrant(c)], GRANT_ID) == [RaceGrant(c)]
    ensures FindGrant([RaceGrant(c)], GRANT_ID) == Some(RaceGrant(c))
  {
    hide Canon.GrantBytes, Signature;
    var rows := [RaceGrant(c)];
    assert rows[|rows| - 1].grantId == GRANT_ID;
  }

  lemma GrantReachable(c: Suite) returns (m: State)
    ensures Reachable(c, m) && m == INITIAL.(w := EMPTY_LEDGER.(grants := [RaceGrant(c)]))
  {
    hide Exec, Reachable, RootGrant, StoredGrant;
    InitialReachable(c);
    var issue := Single(OpIssue(RootRequest([], [], None), Calm(GRANT_ID)));
    NextReachable(c, INITIAL, issue);
    m := Next(c, INITIAL, issue);
    RaceGrantFields(c);
  }

  lemma SessionReachable(c: Suite) returns (m: State)
    ensures At(c, m, map[], [], 0) && m.w.revoked == map[]
  {
    hide Exec, RaceGrant, Reachable;
    m := GrantReachable(c);
    RaceGrantFields(c);
    var begin := Single(OpBegin(GRANT_ID, 0, Calm(SESSION_ID)));
    NextReachable(c, m, begin);
    m := Next(c, m, begin);
  }

  lemma StartAt(c: Suite, m: State, op: nat, ops: map<nat, Pc>, events: seq<ActionEvent>, count: int64)
    returns (m1: State)
    requires At(c, m, ops, events, count) && op !in ops
    ensures At(c, m1, ops[op := Checking(REQUEST, [RaceGrant(c)], 0)], events, count) && m1.w == m.w
  {
    hide Reachable, RaceGrant, ChainOf;
    RaceGrantFields(c);
    NextReachable(c, m, StartRecord(op, REQUEST, Calm([])));
    m1 := Next(c, m, StartRecord(op, REQUEST, Calm([])));
  }

  lemma CheckAt(c: Suite, m: State, op: nat, ops: map<nat, Pc>, events: seq<ActionEvent>, count: int64)
    returns (m1: State)
    requires At(c, m, ops, events, count) && op in ops && ops[op] == Checking(REQUEST, [RaceGrant(c)], 0)
    requires m.w.revoked == map[]
    ensures At(c, m1, ops[op := Checking(REQUEST, [RaceGrant(c)], 1)], events, count) && m1.w == m.w
  {
    hide Reachable, RaceGrant;
    NextReachable(c, m, CheckGrant(op, Calm([])));
    m1 := Next(c, m, CheckGrant(op, Calm([])));
  }

  lemma NumberAt(c: Suite, m: State, op: nat, eventId: Bytes, ops: map<nat, Pc>, events: seq<ActionEvent>, count: int64)
    returns (m1: State)
    requires At(c, m, ops, events, count) && op in ops && ops[op] == Checking(REQUEST, [RaceGrant(c)], 1)
    requires 0 <= count < 100
    ensures At(c, m1, ops[op := Drafted(RaceDraft(count + 1, eventId))], events, count + 1)
    ensures m1.w.revoked == m.w.revoked
  {
    hide Reachable, RaceGrant;
    RaceGrantFields(c);
    NextReachable(c, m, TakeNumber(op, Calm(eventId)));
    m1 := Next(c, m, TakeNumber(op, Calm(eventId)));
  }

  lemma ReadAt(c: Suite, m: State, op: nat, draft: ActionEvent, ops: map<nat, Pc>, count: int64) returns (m1: State)
    requires At(c, m, ops, [], count) && op in ops && ops[op] == Drafted(draft)
    ensures At(c, m1, ops[op := Signing(SealedEvent(c, draft, None))], [], count) && m1.w == m.w
    ensures m1 == Next(c, m, ReadLast(op, Calm([])))
  {
    hide Reachable, RaceGrant, SealedEvent;
    NextReachable(c, m, ReadLast(op, Calm([])));
    m1 := Next(c, m, ReadLast(op, Calm([])));
  }

  lemma InsertAt(c: Suite, m: State, op: nat, e: ActionEvent, ops: map<nat, Pc>, events: seq<ActionEvent>, count: int64)
    returns (m1: State)
    requires At(c, m, ops, events, count) && op in ops && ops[op] == Signing(e)
    requires !Refused(events, e) && StoredEvent(e) == e && e.sessionId == SESSION_ID
    ensures At(c, m1, ops[op := Checkpointing(SESSION_ID)], events + [e], count)
    ensures m1.w.sessions == m.w.sessions && m1 == Next(c, m, Insert(op, Calm([])))
  {
    hide Reachable, RaceGrant, Refused, StoredEvent;
    NextReachable(c, m, Insert(op, Calm([])));
    m1 := Next(c, m, Insert(op, Calm([])));
  }

  lemma RowsAt(c: Suite, m: State, op: nat, ops: map<nat, Pc>, events: seq<ActionEvent>, count: int64)
    returns (m1: State)
    requires At(c, m, ops, events, count) && op in ops && ops[op] == Checkpointing(SESSION_ID)
    ensures At(c, m1, ops[op := Rooted(SESSION_ID, SessionRoot(c, events, SESSION_ID))], events, count)
    ensures m1.w.sessions == m.w.sessions && m1.w.revoked == m.w.revoked
  {
    hide Reachable, RaceGrant, SessionRoot;
    NextReachable(c, m, ReadRows(op, Calm([])));
    m1 := Next(c, m, ReadRows(op, Calm([])));
  }

  lemma PublishAt(c: Suite, m: State, op: nat, root: Bytes, ops: map<nat, Pc>, events: seq<ActionEvent>, count: int64)
    returns (m1: State)
    requires At(c, m, ops, events, count) && op in ops && ops[op] == Rooted(SESSION_ID, root)
    ensures At(c, m1, ops - {op}, events, count) && m1.w.sessions == m.w.sessions && m1.w.revoked == m.w.revoked
    ensures SESSION_ID in m1.w.anchors && m1.w.anchors[SESSION_ID].root == root
  {
    hide Reachable, RaceGrant;
    NextReachable(c, m, Publish(op, Calm([])));
    m1 := Next(c, m, Publish(op, Calm([])));
  }

  lemma EndAt(c: Suite, m: State, op: nat, ops: map<nat, Pc>, events: seq<ActionEvent>, count: int64)
    returns (m1: State)
    requires At(c, m, ops, events, count) && op !in ops
    ensures At(c, m1, ops[op := Checkpointing(SESSION_ID)], events, count)
    ensures SESSION_ID in m1.w.sessions && m1.w.sessions[SESSION_ID].endedAt.Some? && m1.w.revoked == m.w.revoked
  {
    hide Reachable, RaceGrant;
    NextReachable(c, m, StartEnd(op, SESSION_ID, Calm([])));
    m1 := Next(c, m, StartEnd(op, SESSION_ID, Calm([])));
  }

  lemma RaceEventFields(c: Suite)
    ensures First(c).eventId == FIRST_ID && First(c).sessionId == SESSION_ID && First(c).sequence == 1
    ensures Second(c).eventId == SECOND_ID && Second(c).sessionId == SESSION_ID && Second(c).sequence == 2
    ensures First(c).grantId == GRANT_ID
    ensures Second(c).prevHash == ZERO32 && StoredEvent(First(c)) == First(c) && StoredEvent(Second(c)) == Second(c)
  {
    hide SealedEvent;
    SealKeepsFields(c, RaceDraft(1, FIRST_ID), None);
    SealKeepsFields(c, RaceDraft(2, SECOND_ID), None);
  }

  /** A recording that has passed its check and taken the next number. */
  lemma DraftReachable(c: Suite, m: State, op: nat, eventId: Bytes, ops: map<nat, Pc>, count: int64) returns (m1: State)
    requires At(c, m, ops, [], count) && op !in ops && m.w.revoked == map[] && 0 <= count < 100
    ensures At(c, m1, ops[op := Drafted(RaceDraft(count + 1, eventId))], [], count + 1) && m1.w.revoked == map[]
  {
    hide At;
    m1 := StartAt(c, m, op, ops, [], count);
    var started := ops[op := Checking(REQUEST, [RaceGrant(c)], 0)];
    m1 := CheckAt(c, m1, op, started, [], count);
    var checked := ops[op := Checking(REQUEST, [RaceGrant(c)], 1)];
    assert started[op := Checking(REQUEST, [RaceGrant(c)], 1)] == checked;
    m1 := NumberAt(c, m1, op, eventId, checked, [], count);
    assert checked[op := Drafted(RaceDraft(count + 1, eventId))] == ops[op := Drafted(RaceDraft(count + 1, eventId))];
  }

  // Two recordings

  lemma RaceLogs(c: Suite)
    ensures BySession([First(c)], SESSION_ID) == [First(c)]
    ensures BySession([First(c), Second(c)], SESSION_ID) == [First(c), Second(c)]
  {
    hide First, Second;
    RaceEventFields(c);
    assert [First(c), Second(c)][..1] == [First(c)] && [First(c)][..0] == [];
  }

  lemma OneLeafRoot(h: Hash, a: Bytes)
    ensures Merkle.RootOf(h, [a]) == h.Of(Merkle.LeafPreimage(a))
  {
    assert [a][..0] == [];
  }

  lemma TwoLeafRoot(h: Hash, a: Bytes, b: Bytes)
    ensures Merkle.RootOf(h, [a, b]) == h.Of(Merkle.NodePreimage(Merkle.LeafHash(h, a), Merkle.LeafHash(h, b)))
  {
    var level := Merkle.LeafLevel(h, [a, b]);
    Merkle.LeafLevelAt(h, [a, b], 0);
    Merkle.LeafLevelAt(h, [a, b], 1);
    assert Merkle.Parents(h, level, 1) == [Merkle.Parent(h, level, 0)];
    var above := Merkle.Reduce(h, level);
    assert above == [Merkle.Parent(h, level, 0)];
    assert Merkle.Top(h, level) == Merkle.Top(h, above) == above[0];
  }

  /** Both have read that there is no event yet. */
  lemma BothSignedReachable(c: Suite) returns (m: State)
    ensures At(c, m, map[1 := Signing(First(c)), 2 := Signing(Second(c))], [], 2)
  {
    hide At, SealedEvent;
    var one, two := Drafted(RaceDraft(1, FIRST_ID)), Drafted(RaceDraft(2, SECOND_ID));
    m := SessionReachable(c);
    m := DraftReachable(c, m, 1, FIRST_ID, map[], 0);
    assert map[][1 := one] == map[1 := one];
    m := DraftReachable(c, m, 2, SECOND_ID, map[1 := one], 1);
    assert map[1 := one][2 := two] == map[1 := one, 2 := two];
    m := ReadAt(c, m, 1, RaceDraft(1, FIRST_ID), map[1 := one, 2 := two], 2);
    assert map[1 := one, 2 := two][1 := Signing(First(c))] == map[1 := Signing(First(c)), 2 := two];
    m := ReadAt(c, m, 2, RaceDraft(2, SECOND_ID), map[1 := Signing(First(c)), 2 := two], 2);
    assert map[1 := Signing(First(c)), 2 := two][2 := Signing(Second(c))]
        == map[1 := Signing(First(c)), 2 := Signing(Second(c))];
  }

  /** The first has computed its root when the second inserts, stores its own root, and is overwritten. */
  lemma RaceReachable(c: Suite) returns (m: State)
    ensures At(c, m, map[], [First(c), Second(c)], 2)
    ensures SESSION_ID in m.w.anchors && m.w.anchors[SESSION_ID].root == SessionRoot(c, [First(c)], SESSION_ID)
  {
    hide At, First, Second, SessionRoot, StoredEvent;
    RaceEventFields(c);
    var one, both := [First(c)], [First(c), Second(c)];
    var signing := Signing(Second(c));
    var stale := Rooted(SESSION_ID, SessionRoot(c, one, SESSION_ID));
    var current := Rooted(SESSION_ID, SessionRoot(c, both, SESSION_ID));
    m := BothSignedReachable(c);
    var ops := map[1 := Signing(First(c)), 2 := signing];
    m := InsertAt(c, m, 1, First(c), ops, [], 2);
    assert [] + [First(c)] == one;
    ops := ops[1 := Checkpointing(SESSION_ID)];
    m := RowsAt(c, m, 1, ops, one, 2);
    ops := ops[1 := stale];
    m := InsertAt(c, m, 2, Second(c), ops, one, 2);
    assert one + [Second(c)] == both;
    ops := ops[2 := Checkpointing(SESSION_ID)];
    m := RowsAt(c, m, 2, ops, both, 2);
    ops := ops[2 := current];
    m := PublishAt(c, m, 2, current.root, ops, both, 2);
    ops := ops - {2};
    m := PublishAt(c, m, 1, stale.root, ops, both, 2);
    assert ops - {1} == map[];
  }

  /** What is hashed to the root of both rows. */
  function BothPreimage(c: Suite): Bytes {
    Merkle.NodePreimage(Merkle.LeafHash(c.hash, First(c).contentHash), Merkle.LeafHash(c.hash, Second(c).contentHash))
  }

  /** The root of the first row is that of both only if their preimages collide. */
  lemma OldRootCollides(c: Suite)
    requires SessionRoot(c, [First(c)], SESSION_ID) == SessionRoot(c, [First(c), Second(c)], SESSION_ID)
    ensures Collides(c.hash, Merkle.LeafPreimage(First(c).contentHash), BothPreimage(c))
  {
    hide First, Second, BySession, Merkle.RootOf, Merkle.LeafHash;
    RaceLogs(c);
    var a, b := First(c).contentHash, Second(c).contentHash;
    assert [First(c), Second(c)][..1] == [First(c)] && [First(c)][..0] == [];
    assert ContentHashes([First(c)]) == [a] && ContentHashes([First(c), Second(c)]) == [a, b];
    OneLeafRoot(c.hash, a);
    TwoLeafRoot(c.hash, a, b);
    assert Merkle.LeafPreimage(a)[0] != Merkle.NodePreimage(Merkle.LeafHash(c.hash, a), Merkle.LeafHash(c.hash, b))[0];
  }

  /**
   Overlapping recordings: after this run, with nothing failed or lost and no operation left in
   flight, the second event passes `VerifyLink` against the first only if the first has the zero
   content hash, and the stored anchor is the root of the present rows only if the two computed
   preimages collide.
   */
  lemma OverlapBreaksChainAndAnchor(c: Suite) returns (m: State)
    ensures Reachable(c, m) && m.lost == INITIAL.lost && m.ops == map[]
    ensures var log := BySession(m.w.events, SESSION_ID);
      && log == [First(c), Second(c)]
      && (Linked(c, log[1], Some(log[0])) ==> log[0].contentHash == ZERO32)
    ensures AnchoredNow(c, m.w, SESSION_ID) ==>
      Collides(c.hash, Merkle.LeafPreimage(First(c).contentHash), BothPreimage(c))
  {
    hide Reachable, First, Second, BySession, ContentSealed, SignatureSealed, Merkle.RootOf, RaceGrant, Merkle.LeafHash,
         Merkle.LeafPreimage, BothPreimage, SessionRoot;
    m := RaceReachable(c);
    RaceEventFields(c);
    RaceLogs(c);
    if AnchoredNow(c, m.w, SESSION_ID) {
      OldRootCollides(c);
    }
  }

  // A recording and an ending

  /** The ending has read the rows when the recording inserts, and stores its root last. */
  lemma EndRaceReachable(c: Suite) returns (m: State)
    ensures At(c, m, map[], [First(c)], 1)
    ensures SESSION_ID in m.w.sessions && m.w.sessions[SESSION_ID].endedAt.Some?
    ensures SESSION_ID in m.w.anchors && m.w.anchors[SESSION_ID].root == SessionRoot(c, [], SESSION_ID)
  {
    hide At, First, SealedEvent, SessionRoot, StoredEvent, Reachable, Next;
    RaceEventFields(c);
    var stale := Rooted(SESSION_ID, SessionRoot(c, [], SESSION_ID));
    var current := Rooted(SESSION_ID, SessionRoot(c, [First(c)], SESSION_ID));
    m := SignedReachable(c);
    var ops := map[1 := Signing(First(c))];
    m := EndAt(c, m, 2, ops, [], 1);
    ops := ops[2 := Checkpointing(SESSION_ID)];
    m := RowsAt(c, m, 2, ops, [], 1);
    ops := ops[2 := stale];
    m := InsertAt(c, m, 1, First(c), ops, [], 1);
    assert [] + [First(c)] == [First(c)];
    ops := ops[1 := Checkpointing(SESSION_ID)];
    m := RowsAt(c, m, 1, ops, [First(c)], 1);
    ops := ops[1 := current];
    m := PublishAt(c, m, 1, current.root, ops, [First(c)], 1);
    ops := ops - {1};
    m := PublishAt(c, m, 2, stale.root, ops, [First(c)], 1);
    assert ops - {2} == map[];
  }

  lemma SignedReachable(c: Suite) returns (m: State)
    ensures At(c, m, map[1 := Signing(First(c))], [], 1) && m.w.revoked == map[]
  {
    hide At, SealedEvent;
    var draft := Drafted(RaceDraft(1, FIRST_ID));
    m := SessionReachable(c);
    m := DraftReachable(c, m, 1, FIRST_ID, map[], 0);
    assert map[][1 := draft] == map[1 := draft];
    m := ReadAt(c, m, 1, RaceDraft(1, FIRST_ID), map[1 := draft], 1);
    assert map[1 := draft][1 := Signing(First(c))] == map[1 := Signing(First(c))];
  }

  /**
   One recording and one ending that overlap are enough: after this run, with nothing failed or
   lost and nothing in flight, the stored anchor is the root of the present rows only if the
   computed leaf preimage has a digest of 32 zero bytes. The event came after the session ended.
   */
  lemma EndOverlapBreaksAnchor(c: Suite) returns (m: State)
    ensures Reachable(c, m) && m.lost == INITIAL.lost && m.ops == map[]
    ensures m.w.events == [First(c)] && SESSION_ID in m.w.sessions && m.w.sessions[SESSION_ID].endedAt.Some?
    ensures AnchoredNow(c, m.w, SESSION_ID) ==> c.hash.Of(Merkle.LeafPreimage(First(c).contentHash)) == ZERO32
  {
    hide Reachable, First, BySession, Merkle.RootOf, RaceGrant, SessionRoot, Merkle.LeafPreimage;
    m := EndRaceReachable(c);
    RaceLogs(c);
    RootOfFirst(c);
  }

  lemma RootOfFirst(c: Suite)
    ensures SessionRoot(c, [First(c)], SESSION_ID) == c.hash.Of(Merkle.LeafPreimage(First(c).contentHash))
    ensures SessionRoot(c, [], SESSION_ID) == ZERO32
  {
    hide First, BySession, Merkle.RootOf;
    RaceLogs(c);
    NoRows(c);
    assert [First(c)][..0] == [];
    assert ContentHashes([First(c)]) == [First(c).contentHash];
    OneLeafRoot(c.hash, First(c).contentHash);
  }

  lemma NoRows(c: Suite)
    ensures SessionRoot(c, [], SESSION_ID) == ZERO32
  {
  }

  // A revocation after the check

  /**
   A recording past its check outlives the revocation: from this reachable state, in which the
   grant is revoked and the table is empty, its last two steps append a row under that grant.
   */
  lemma RevokedGrantRecords(c: Suite) returns (m: State, after: State)
    ensures Reachable(c, m) && GRANT_ID in m.w.revoked && m.w.events == []
    ensures after == Exec(c, m, [ReadLast(1, Calm([])), Insert(1, Calm([]))])
    ensures after.w.events == [First(c)] && InChain(after.w.grants, First(c).grantId, GRANT_ID)
  {
    hide Reachable, SealedEvent, RaceGrant, StoredEvent, ChainOf;
    RaceEventFields(c);
    RaceGrantFields(c);
    var draft := Drafted(RaceDraft(1, FIRST_ID));
    m := SessionReachable(c);
    m := DraftReachable(c, m, 1, FIRST_ID, map[], 0);
    m := RevokeAt(c, m, map[][1 := draft], [], 1);
    var read := ReadAt(c, m, 1, RaceDraft(1, FIRST_ID), map[][1 := draft], 1);
    after := InsertAt(c, read, 1, First(c), map[][1 := draft][1 := Signing(First(c))], [], 1);
    assert [] + [First(c)] == [First(c)];
    TwoSteps(c, m, ReadLast(1, Calm([])), Insert(1, Calm([])));
    assert ChainOf(after.w.grants, GRANT_ID)[0].grantId == GRANT_ID;
  }

  lemma RevokeAt(c: Suite, m: State, ops: map<nat, Pc>, events: seq<ActionEvent>, count: int64) returns (m1: State)
    requires At(c, m, ops, events, count)
    ensures At(c, m1, ops, events, count) && GRANT_ID in m1.w.revoked
  {
    hide Reachable, RaceGrant;
    RaceGrantFields(c);
    var revoke := Single(OpRevoke(GRANT_ID, [], Calm([])));
    NextReachable(c, m, revoke);
    m1 := Next(c, m, revoke);
  }

  lemma TwoSteps(c: Suite, m: State, a: Action, b: Action)
    ensures Exec(c, m, [a, b]) == Next(c, Next(c, m, a), b)
  {
    hide Next;
    ExecSnoc(c, m, [a], b);
    ExecSnoc(c, m, [], a);
    assert [a] + [b] == [a, b] && [] + [a] == [a];
  }

  // An ended session

  lemma EndedReachable(c: Suite) returns (m: State)
    ensures At(c, m, map[], [], 0) && m.w.revoked == map[]
    ensures SESSION_ID in m.w.sessions && m.w.sessions[SESSION_ID].endedAt.Some?
  {
    hide At, SessionRoot, Next;
    m := SessionReachable(c);
    m := EndAt(c, m, 1, map[], [], 0);
    var ops := map[][1 := Checkpointing(SESSION_ID)];
    m := RowsAt(c, m, 1, ops, [], 0);
    ops := ops[1 := Rooted(SESSION_ID, SessionRoot(c, [], SESSION_ID))];
    m := PublishAt(c, m, 1, SessionRoot(c, [], SESSION_ID), ops, [], 0);
    assert ops - {1} == map[];
  }

  /** A recording that starts after its session has ended succeeds all the same. */
  lemma EndedSessionRecords(c: Suite) returns (m: State)
    ensures Reachable(c, m) && m.ops == map[] && m.w.events == []
    ensures SESSION_ID in m.w.sessions && m.w.sessions[SESSION_ID].endedAt.Some?
    ensures Record(c, m.w, REQUEST, Calm(FIRST_ID)).1.Ok?
    ensures Record(c, m.w, REQUEST, Calm(FIRST_ID)).0.events == [First(c)]
  {
    hide Reachable, RaceGrant, ChainOf, SealedEvent, StoredEvent, SessionRoot;
    m := EndedReachable(c);
    RaceGrantFields(c);
    RaceEventFields(c);
    assert RequestDraft(m.w, REQUEST, Calm(FIRST_ID)) == RaceDraft(1, FIRST_ID);
  }
}
