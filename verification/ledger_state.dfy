/** The state behind the services, all tables together, and what every operation keeps true of it. */
module LedgerState {
  import opened ByteStrings
  import opened Wrappers
  import opened Crypto
  import opened Records
  import opened Graph
  import opened Seal
  import opened GrantTable
  import opened EventTable
  import Merkle

  const MAX_COUNT: int64 := 0x7FFF_FFFF_FFFF_FFFF

  /** Revocations map a grant id to the reason given last. */
  datatype Ledger = Ledger(
    grants: seq<Grant>,
    revoked: map<Bytes, Bytes>,
    sessions: map<Bytes, Session>,
    events: seq<ActionEvent>,
    anchors: map<Bytes, Anchor>)

  const EMPTY_LEDGER := Ledger([], map[], map[], [], map[])

  // Updates of one table

  function WithSession(w: Ledger, sessionId: Bytes, s: Session): Ledger {
    w.(sessions := w.sessions[sessionId := s])
  }

  /** A session can be given one more sequence number. */
  predicate Countable(w: Ledger, sessionId: Bytes) {
    sessionId in w.sessions && w.sessions[sessionId].eventCount < MAX_COUNT
  }

  /** `NextSequence` */
  function WithNextSequence(w: Ledger, sessionId: Bytes): Ledger
    requires Countable(w, sessionId)
  {
    WithSession(w, sessionId, w.sessions[sessionId].(eventCount := w.sessions[sessionId].eventCount + 1))
  }

  function WithEvent(w: Ledger, e: ActionEvent): Ledger {
    w.(events := w.events + [StoredEvent(e)])
  }

  function WithAnchor(w: Ledger, sessionId: Bytes, a: Anchor): Ledger {
    w.(anchors := w.anchors[sessionId := a])
  }

  function WithGrant(w: Ledger, g: Grant): Ledger {
    w.(grants := PutRow(w.grants, StoredGrant(g)))
  }

  function WithRevocation(w: Ledger, grantId: Bytes, reason: Bytes): Ledger {
    w.(revoked := w.revoked[grantId := reason])
  }

  /** The root that a checkpoint of the session computes from the rows. */
  function SessionRoot(c: Suite, rows: seq<ActionEvent>, sessionId: Bytes): Bytes {
    Merkle.RootOf(c.hash, ContentHashes(BySession(rows, sessionId)))
  }

  // The invariant

  /** The grant is stored and its chain verifies; without expiries the time does not matter. */
  predicate ChainAccepted(c: Suite, grants: seq<Grant>, grantId: Bytes) {
    FindGrant(grants, grantId).Some? && ChainHolds(c, NotaryVerifier(c), ChainOf(grants, grantId), 0)
  }

  /** The event has a number that its session gave out, and its session's project and surface. */
  predicate OfSession(sessions: map<Bytes, Session>, e: ActionEvent) {
    && e.sessionId in sessions
    && 1 <= e.sequence <= sessions[e.sessionId].eventCount
    && e.projectId == sessions[e.sessionId].projectId
    && e.surface == sessions[e.sessionId].surface
  }

  /** The grant is stored and belongs to the project. */
  predicate GrantOfProject(grants: seq<Grant>, grantId: Bytes, projectId: Bytes) {
    FindGrant(grants, grantId).Some? && FindGrant(grants, grantId).value.projectId == projectId
  }

  /** The event's grant is stored, its chain verifies, and it belongs to the event's project. */
  predicate MadeUnder(c: Suite, grants: seq<Grant>, e: ActionEvent) {
    ChainAccepted(c, grants, e.grantId) && GrantOfProject(grants, e.grantId, e.projectId)
  }

  /** A logged event is one of its session, is sealed, and was made under an accepted chain of its project. */
  ghost predicate EventSound(c: Suite, grants: seq<Grant>, sessions: map<Bytes, Session>, e: ActionEvent) {
    && OfSession(sessions, e)
    && ContentSealed(c, e)
    && SignatureSealed(c, NotaryVerifier(c), e)
    && MadeUnder(c, grants, e)
  }

  /** The previous hash is zero or the content hash of a row of the same session. */
  ghost predicate PrevIn(rows: seq<ActionEvent>, sessionId: Bytes, prevHash: Bytes) {
    prevHash == ZERO32
    || exists j :: 0 <= j < |rows| && rows[j].sessionId == sessionId && rows[j].contentHash == prevHash
  }

  /** The root is that of the session's rows at some moment of the table's history. */
  ghost predicate RootPast(c: Suite, rows: seq<ActionEvent>, sessionId: Bytes, root: Bytes) {
    exists k :: 0 <= k <= |rows| && root == SessionRoot(c, rows[..k], sessionId)
  }

  ghost predicate EventsSound(c: Suite, w: Ledger) {
    && (forall i :: 0 <= i < |w.events| ==> EventSound(c, w.grants, w.sessions, w.events[i]))
    && (forall i :: 0 <= i < |w.events| ==> PrevIn(w.events[..i], w.events[i].sessionId, w.events[i].prevHash))
  }

  ghost predicate AnchorsSound(c: Suite, w: Ledger) {
    forall sessionId :: sessionId in w.anchors ==> RootPast(c, w.events, sessionId, w.anchors[sessionId].root)
  }

  ghost predicate SessionsSound(w: Ledger) {
    forall sessionId :: sessionId in w.sessions ==>
      w.sessions[sessionId].sessionId == sessionId && w.sessions[sessionId].eventCount >= 0
  }

  ghost predicate Sound(c: Suite, w: Ledger) {
    && Issued(c, w.grants)
    && SessionsSound(w)
    && KeysUnique(w.events)
    && EventsSound(c, w)
    && AnchorsSound(c, w)
  }

  // What keeps it

  /** Sessions stay, and only give out more numbers. */
  ghost predicate SessionsGrow(before: map<Bytes, Session>, after: map<Bytes, Session>) {
    forall sessionId :: sessionId in before ==>
      && sessionId in after
      && before[sessionId].eventCount <= after[sessionId].eventCount
      && before[sessionId].projectId == after[sessionId].projectId
      && before[sessionId].surface == after[sessionId].surface
  }

  /** Grants are only ever appended. */
  ghost predicate GrantsGrow(c: Suite, before: seq<Grant>, after: seq<Grant>) {
    Issued(c, before) && Issued(c, after) && before <= after
  }

  lemma {:induction false} ChainKeptByGrowth(c: Suite, before: seq<Grant>, after: seq<Grant>, id: Bytes)
    requires GrantsGrow(c, before, after) && FindGrant(before, id).Some?
    ensures ChainOf(after, id) == ChainOf(before, id) && FindGrant(after, id) == FindGrant(before, id)
    decreases |after|
  {
    hide IssuedAfter;
    if |before| < |after| {
      var shorter, g := after[..|after| - 1], after[|after| - 1];
      ChainKeptByGrowth(c, before, shorter, id);
      FreshIdNotFound(c, after, shorter, id);
      assert after == shorter + [g];
      ChainKept(c, shorter, g, id);
    } else {
      assert before == after;
    }
  }

  lemma AcceptedKeptByGrowth(c: Suite, before: seq<Grant>, after: seq<Grant>, id: Bytes)
    requires GrantsGrow(c, before, after) && ChainAccepted(c, before, id)
    ensures ChainAccepted(c, after, id)
  {
    hide Issued, ChainHolds;
    ChainKeptByGrowth(c, before, after, id);
  }

  lemma GrantOfProjectKept(c: Suite, before: seq<Grant>, after: seq<Grant>, id: Bytes, projectId: Bytes)
    requires GrantsGrow(c, before, after) && GrantOfProject(before, id, projectId)
    ensures GrantOfProject(after, id, projectId)
  {
    hide Issued, ChainOf;
    ChainKeptByGrowth(c, before, after, id);
  }

  lemma EventSoundKept(c: Suite, w: Ledger, grants: seq<Grant>, sessions: map<Bytes, Session>, e: ActionEvent)
    requires EventSound(c, w.grants, w.sessions, e)
    requires GrantsGrow(c, w.grants, grants) && SessionsGrow(w.sessions, sessions)
    ensures EventSound(c, grants, sessions, e)
  {
    hide ContentSealed, SignatureSealed, ChainAccepted, GrantOfProject, GrantsGrow;
    AcceptedKeptByGrowth(c, w.grants, grants, e.grantId);
    GrantOfProjectKept(c, w.grants, grants, e.grantId, e.projectId);
  }

  lemma GrowthKeepsSound(c: Suite, w: Ledger, grants: seq<Grant>, sessions: map<Bytes, Session>)
    requires Sound(c, w) && GrantsGrow(c, w.grants, grants) && SessionsGrow(w.sessions, sessions)
    requires SessionsSound(w.(sessions := sessions))
    ensures Sound(c, w.(grants := grants, sessions := sessions))
  {
    hide EventSound, PrevIn, RootPast, Issued, KeysUnique, SessionsGrow;
    var after := w.(grants := grants, sessions := sessions);
    forall i | 0 <= i < |after.events|
      ensures EventSound(c, grants, sessions, after.events[i])
    {
      EventSoundKept(c, w, grants, sessions, w.events[i]);
    }
  }

  lemma NextSequenceKeepsSound(c: Suite, w: Ledger, sessionId: Bytes)
    requires Sound(c, w) && Countable(w, sessionId)
    ensures Sound(c, WithNextSequence(w, sessionId))
    ensures SessionsGrow(w.sessions, WithNextSequence(w, sessionId).sessions)
  {
    hide EventsSound, AnchorsSound, Issued, KeysUnique;
    var after := WithNextSequence(w, sessionId);
    GrowthKeepsSound(c, w, w.grants, after.sessions);
    assert after == w.(grants := w.grants, sessions := after.sessions);
  }

  lemma CreateKeepsSound(c: Suite, w: Ledger, s: Session)
    requires Sound(c, w) && s.sessionId !in w.sessions && s.eventCount >= 0
    ensures Sound(c, WithSession(w, s.sessionId, s))
    ensures SessionsGrow(w.sessions, WithSession(w, s.sessionId, s).sessions)
  {
    hide EventsSound, AnchorsSound, Issued, KeysUnique;
    var after := WithSession(w, s.sessionId, s);
    GrowthKeepsSound(c, w, w.grants, after.sessions);
    assert after == w.(grants := w.grants, sessions := after.sessions);
  }

  lemma EndKeepsSound(c: Suite, w: Ledger, sessionId: Bytes, at: Option<int>)
    requires Sound(c, w) && sessionId in w.sessions
    ensures Sound(c, WithSession(w, sessionId, w.sessions[sessionId].(endedAt := at)))
    ensures SessionsGrow(w.sessions, WithSession(w, sessionId, w.sessions[sessionId].(endedAt := at)).sessions)
  {
    hide EventsSound, AnchorsSound, Issued, KeysUnique;
    var after := WithSession(w, sessionId, w.sessions[sessionId].(endedAt := at));
    GrowthKeepsSound(c, w, w.grants, after.sessions);
    assert after == w.(grants := w.grants, sessions := after.sessions);
  }

  lemma StoredGrantIssued(c: Suite, earlier: seq<Grant>, g: Grant)
    requires IssuedAfter(c, earlier, g)
    ensures IssuedAfter(c, earlier, StoredGrant(g))
  {
    assert StoredGrant(g).GetScope() == g.GetScope();
  }

  lemma GrantKeepsSound(c: Suite, w: Ledger, g: Grant)
    requires Sound(c, w) && IssuedAfter(c, w.grants, g) && FindGrant(w.grants, g.grantId).None?
    ensures Sound(c, WithGrant(w, g)) && GrantsGrow(c, w.grants, WithGrant(w, g).grants)
    ensures WithGrant(w, g).grants == w.grants + [StoredGrant(g)]
  {
    hide EventsSound, AnchorsSound, KeysUnique, IssuedAfter;
    StoredGrantIssued(c, w.grants, g);
    IssuedGrows(c, w.grants, StoredGrant(g));
    GrowthKeepsSound(c, w, WithGrant(w, g).grants, w.sessions);
    assert WithGrant(w, g) == w.(grants := WithGrant(w, g).grants, sessions := w.sessions);
  }

  lemma RootPastKept(c: Suite, rows: seq<ActionEvent>, e: ActionEvent, sessionId: Bytes, root: Bytes)
    requires RootPast(c, rows, sessionId, root)
    ensures RootPast(c, rows + [e], sessionId, root)
  {
    hide SessionRoot;
    var k :| 0 <= k <= |rows| && root == SessionRoot(c, rows[..k], sessionId);
    assert (rows + [e])[..k] == rows[..k];
  }

  lemma RootNowIsPast(c: Suite, rows: seq<ActionEvent>, sessionId: Bytes)
    ensures RootPast(c, rows, sessionId, SessionRoot(c, rows, sessionId))
  {
    hide SessionRoot;
    assert rows[..|rows|] == rows;
  }

  /** Appending a sound event that the keys do not refuse. */
  lemma AppendKeepsSound(c: Suite, w: Ledger, e: ActionEvent)
    requires Sound(c, w) && !Refused(w.events, e) && StoredEvent(e) == e
    requires EventSound(c, w.grants, w.sessions, e) && PrevIn(w.events, e.sessionId, e.prevHash)
    ensures Sound(c, WithEvent(w, e)) && WithEvent(w, e).events == w.events + [e]
  {
    hide EventSound, PrevIn, RootPast, Issued, KeysUnique, Refused;
    var after := WithEvent(w, e);
    InsertKeepsKeysUnique(w.events, e);
    forall i | 0 <= i < |after.events|
      ensures PrevIn(after.events[..i], after.events[i].sessionId, after.events[i].prevHash)
    {
      assert after.events[..i] == w.events[..i];
      assert w.events[..|w.events|] == w.events;
    }
    forall sessionId | sessionId in after.anchors
      ensures RootPast(c, after.events, sessionId, after.anchors[sessionId].root)
    {
      RootPastKept(c, w.events, e, sessionId, w.anchors[sessionId].root);
    }
  }

  lemma AnchorKeepsSound(c: Suite, w: Ledger, sessionId: Bytes, a: Anchor)
    requires Sound(c, w) && RootPast(c, w.events, sessionId, a.root)
    ensures Sound(c, WithAnchor(w, sessionId, a))
  {
    hide EventSound, PrevIn, RootPast, Issued, KeysUnique;
  }

  lemma RevocationKeepsSound(c: Suite, w: Ledger, grantId: Bytes, reason: Bytes)
    requires Sound(c, w)
    ensures Sound(c, WithRevocation(w, grantId, reason))
  {
    hide EventSound, PrevIn, RootPast, Issued, KeysUnique;
  }

  lemma EmptyIsSound(c: Suite)
    ensures Sound(c, EMPTY_LEDGER)
  {
  }

  /** In a sound state an accepted chain verifies at every time. */
  lemma AcceptedAtAnyTime(c: Suite, grants: seq<Grant>, grantId: Bytes, now: int)
    requires Issued(c, grants)
    ensures ChainAccepted(c, grants, grantId) <==>
      FindGrant(grants, grantId).Some? && ChainHolds(c, NotaryVerifier(c), ChainOf(grants, grantId), now)
  {
    hide Issued, ChainHolds, ChainOf;
    if FindGrant(grants, grantId).Some? {
      StoredChainVerdict(c, grants, grantId, 0);
      StoredChainVerdict(c, grants, grantId, now);
    }
  }
}
