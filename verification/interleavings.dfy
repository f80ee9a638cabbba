/** What every interleaving keeps. */
module Interleavings {
  import opened ByteStrings
  import opened Wrappers
  import opened Crypto
  import opened Records
  import opened Graph
  import opened Seal
  import opened GrantTable
  import opened EventTable
  import opened LedgerState
  import opened Operations
  import opened Runs
  import opened Machine
  import ReceiptProofs
  import Merkle

  // The invariant

  /** What an operation in flight holds in memory fits the tables. */
  ghost predicate PcSound(c: Suite, w: Ledger, pc: Pc) {
    match pc
    case Checking(req, chain, checked) =>
      && chain == ChainOf(w.grants, req.grantId)
      && ChainAccepted(c, w.grants, req.grantId)
      && checked <= |chain|
      && req.sessionId in w.sessions
      && GrantOfProject(w.grants, req.grantId, w.sessions[req.sessionId].projectId)
    case Drafted(draft) =>
      OfSession(w.sessions, draft) && MadeUnder(c, w.grants, draft) && WholeMicros(draft)
    case Signing(e) =>
      EventSound(c, w.grants, w.sessions, e) && PrevIn(w.events, e.sessionId, e.prevHash) && StoredEvent(e) == e
    case Checkpointing(sessionId) => true
    case Rooted(sessionId, root) => RootPast(c, w.events, sessionId, root)
    case Granting(g) => IssuedAfter(c, w.grants, g)
  }

  ghost predicate PcsSound(c: Suite, m: State) {
    forall op :: op in m.ops ==> PcSound(c, m.w, m.ops[op])
  }

  /** The session has given this number out. */
  predicate Given(w: Ledger, s: Slot) {
    s.sessionId in w.sessions && 1 <= s.sequence <= w.sessions[s.sessionId].eventCount
  }

  predicate HasRow(rows: seq<ActionEvent>, s: Slot) {
    Logged(rows, s.sessionId, s.sequence)
  }

  predicate Holds(m: State, op: nat, s: Slot) {
    op in m.ops && SlotOf(m.ops[op]) == Some(s)
  }

  /**
   Every number given out is in exactly one place: in a row, held by one operation in flight,
   or lost.
   */
  ghost predicate SlotsSound(m: State) {
    && (forall op, s :: Holds(m, op, s) ==> Given(m.w, s) && !HasRow(m.w.events, s) && s !in m.lost)
    && (forall op, other, s :: Holds(m, op, s) && Holds(m, other, s) ==> op == other)
    && (forall s :: s in m.lost ==> Given(m.w, s) && !HasRow(m.w.events, s))
    && (forall s :: Given(m.w, s) ==> HasRow(m.w.events, s) || s in m.lost || exists op :: Holds(m, op, s))
  }

  ghost predicate Inv(c: Suite, m: State) {
    Sound(c, m.w) && PcsSound(c, m) && SlotsSound(m)
  }

  // Growth of the tables keeps what operations hold

  ghost predicate Extends(c: Suite, w: Ledger, after: Ledger) {
    GrantsGrow(c, w.grants, after.grants) && SessionsGrow(w.sessions, after.sessions) && w.events <= after.events
  }

  lemma PrevInPrefix(rows: seq<ActionEvent>, more: seq<ActionEvent>, sessionId: Bytes, prevHash: Bytes)
    requires rows <= more && PrevIn(rows, sessionId, prevHash)
    ensures PrevIn(more, sessionId, prevHash)
  {
    if prevHash != ZERO32 {
      var j :| 0 <= j < |rows| && rows[j].sessionId == sessionId && rows[j].contentHash == prevHash;
      assert more[j] == rows[j];
    }
  }

  lemma RootPastPrefix(c: Suite, rows: seq<ActionEvent>, more: seq<ActionEvent>, sessionId: Bytes, root: Bytes)
    requires rows <= more && RootPast(c, rows, sessionId, root)
    ensures RootPast(c, more, sessionId, root)
  {
    hide SessionRoot;
    var k :| 0 <= k <= |rows| && root == SessionRoot(c, rows[..k], sessionId);
    assert more[..k] == rows[..k];
  }

  lemma IssuedAfterKept(c: Suite, before: seq<Grant>, after: seq<Grant>, g: Grant)
    requires GrantsGrow(c, before, after) && IssuedAfter(c, before, g)
    ensures IssuedAfter(c, after, g)
  {
    hide Issued, SignedBy;
    if g.parentGrantId != [] {
      ChainKeptByGrowth(c, before, after, g.parentGrantId);
    }
  }

  lemma PcSoundKept(c: Suite, w: Ledger, after: Ledger, pc: Pc)
    requires PcSound(c, w, pc) && Extends(c, w, after)
    ensures PcSound(c, after, pc)
  {
    hide ChainAccepted, ChainOf, PrevIn, RootPast, IssuedAfter, GrantsGrow, EventSound, FindGrant;
    match pc
    case Checking(req, chain, checked) =>
      AcceptedKeptByGrowth(c, w.grants, after.grants, req.grantId);
      AcceptedIsFound(c, w.grants, req.grantId);
      ChainKeptByGrowth(c, w.grants, after.grants, req.grantId);
    case Drafted(draft) =>
      AcceptedKeptByGrowth(c, w.grants, after.grants, draft.grantId);
      GrantOfProjectKept(c, w.grants, after.grants, draft.grantId, draft.projectId);
    case Signing(e) =>
      EventSoundKept(c, w, after.grants, after.sessions, e);
      PrevInPrefix(w.events, after.events, e.sessionId, e.prevHash);
    case Checkpointing(sessionId) =>
    case Rooted(sessionId, root) => RootPastPrefix(c, w.events, after.events, sessionId, root);
    case Granting(g) => IssuedAfterKept(c, w.grants, after.grants, g);
  }

  lemma AcceptedIsFound(c: Suite, grants: seq<Grant>, id: Bytes)
    requires ChainAccepted(c, grants, id)
    ensures FindGrant(grants, id).Some? && |ChainOf(grants, id)| > 0
  {
  }

  /** The tables grew, one operation moved to a sound place or ended, and the others stayed where they were. */
  lemma MoveKeepsPcs(c: Suite, m: State, after: State, op: nat)
    requires PcsSound(c, m) && Extends(c, m.w, after.w)
    requires forall other :: other in after.ops && other != op ==> other in m.ops && after.ops[other] == m.ops[other]
    requires op in after.ops ==> PcSound(c, after.w, after.ops[op])
    ensures PcsSound(c, after)
  {
    hide PcSound, Extends;
    forall other | other in after.ops
      ensures PcSound(c, after.w, after.ops[other])
    {
      if other != op {
        PcSoundKept(c, m.w, after.w, m.ops[other]);
      }
    }
  }

  // How steps change the places of the numbers

  /** No number changes its place. */
  lemma SameSlots(m: State, after: State)
    requires SlotsSound(m)
    requires after.w.events == m.w.events && after.lost == m.lost
    requires forall s :: Given(after.w, s) <==> Given(m.w, s)
    requires forall op, s :: Holds(after, op, s) <==> Holds(m, op, s)
    ensures SlotsSound(after)
  {
    hide Given, HasRow, Holds;
    forall s | Given(after.w, s)
      ensures HasRow(after.w.events, s) || s in after.lost || exists op :: Holds(after, op, s)
    {
      if op :| Holds(m, op, s) {
        assert Holds(after, op, s);
      }
    }
  }

  /** An operation takes the next number. */
  lemma TakeSlot(m: State, after: State, op: nat, s: Slot)
    requires SlotsSound(m) && !Given(m.w, s) && !HasRow(m.w.events, s)
    requires after.w.events == m.w.events && after.lost == m.lost
    requires forall t :: Given(after.w, t) <==> Given(m.w, t) || t == s
    requires forall other, t :: Holds(after, other, t) <==> Holds(m, other, t) || (other == op && t == s)
    ensures SlotsSound(after)
  {
    hide Given, HasRow, Holds;
    forall t | Given(after.w, t)
      ensures HasRow(after.w.events, t) || t in after.lost || exists other :: Holds(after, other, t)
    {
      if t == s {
        assert Holds(after, op, s);
      } else if other :| Holds(m, other, t) {
        assert Holds(after, other, t);
      }
    }
  }

  /** The number that an operation holds gets its row. */
  lemma FillSlot(m: State, after: State, op: nat, s: Slot)
    requires SlotsSound(m) && Holds(m, op, s) && after.lost == m.lost
    requires forall t :: HasRow(after.w.events, t) <==> HasRow(m.w.events, t) || t == s
    requires forall t :: Given(after.w, t) <==> Given(m.w, t)
    requires forall other, t :: Holds(after, other, t) <==> Holds(m, other, t) && other != op
    ensures SlotsSound(after)
  {
    hide Given, HasRow, Holds;
    forall t | Given(after.w, t)
      ensures HasRow(after.w.events, t) || t in after.lost || exists other :: Holds(after, other, t)
    {
      if other :| Holds(m, other, t) {
        if other != op {
          assert Holds(after, other, t);
        } else {
          HoldsOne(m, op, s, t);
        }
      }
    }
  }

  lemma HoldsOne(m: State, op: nat, s: Slot, t: Slot)
    requires Holds(m, op, s) && Holds(m, op, t)
    ensures s == t
  {
  }

  /** The number that an operation holds, if it holds one, is lost. */
  lemma LoseSlot(m: State, after: State, op: nat)
    requires SlotsSound(m) && after.w == m.w
    requires forall t :: t in after.lost <==> t in m.lost || Holds(m, op, t)
    requires forall other, t :: Holds(after, other, t) <==> Holds(m, other, t) && other != op
    ensures SlotsSound(after)
  {
    hide Given, HasRow, Holds;
    forall t | Given(after.w, t)
      ensures HasRow(after.w.events, t) || t in after.lost || exists other :: Holds(after, other, t)
    {
      if other :| Holds(m, other, t) {
        if other != op {
          assert Holds(after, other, t);
        }
      }
    }
  }

  lemma StopKeepsSlots(m: State, op: nat)
    requires SlotsSound(m) && op in m.ops
    ensures SlotsSound(Stop(m, op))
  {
    hide SlotsSound;
    LoseSlot(m, Stop(m, op), op);
  }

  lemma StopKeepsInv(c: Suite, m: State, op: nat)
    requires Inv(c, m) && op in m.ops
    ensures Inv(c, Stop(m, op))
  {
    hide Sound, SlotsSound, PcSound;
    StopKeepsSlots(m, op);
  }

  /** An operation without a number moves to another place without one. */
  lemma GotoKeepsSlots(m: State, op: nat, pc: Pc)
    requires SlotsSound(m) && SlotOf(pc) == (if op in m.ops then SlotOf(m.ops[op]) else None)
    ensures SlotsSound(Goto(m, op, pc))
  {
    hide SlotsSound;
    SameSlots(m, Goto(m, op, pc));
  }

  lemma GotoKeepsInv(c: Suite, m: State, op: nat, pc: Pc)
    requires Inv(c, m) && PcSound(c, m.w, pc)
    requires SlotOf(pc) == (if op in m.ops then SlotOf(m.ops[op]) else None)
    ensures Inv(c, Goto(m, op, pc))
  {
    hide Sound, SlotsSound, PcSound;
    GotoKeepsSlots(m, op, pc);
  }

  // The steps

  lemma StartRecordKeepsInv(c: Suite, m: State, op: nat, req: ActionRequest, ctx: Context)
    requires Inv(c, m)
    ensures Inv(c, StartRecordStep(c, m, op, req, ctx))
  {
    hide SlotsSound, PcsSound, EventsSound, AnchorsSound, SessionsSound, KeysUnique, Issued, ChainHolds, ChainOf,
         Delegated;
    var admitted := Admitted(c, m.w, req, ctx);
    if op !in m.ops && admitted.Ok? {
      if FindGrant(m.w.grants, req.grantId).None? {
        NoGrantNoChain(m.w.grants, req.grantId);
      }
      AcceptedAtAnyTime(c, m.w.grants, req.grantId, ctx.checkedAt);
      ChainIsDelegated(c, m.w.grants, req.grantId);
      GotoKeepsInv(c, m, op, Checking(req, admitted.value, 0));
    }
  }

  lemma CheckGrantKeepsInv(c: Suite, m: State, op: nat, ctx: Context)
    requires Inv(c, m)
    ensures Inv(c, CheckGrantStep(m, op, ctx))
  {
    hide SlotsSound, Sound, ChainAccepted, ChainOf;
    if op in m.ops && m.ops[op].Checking? && m.ops[op].checked < |m.ops[op].chain| {
      var pc := m.ops[op];
      assert PcSound(c, m.w, pc);
      if IsRevoked in ctx.down || pc.chain[pc.checked].grantId in m.w.revoked {
        StopKeepsInv(c, m, op);
      } else {
        GotoKeepsInv(c, m, op, pc.(checked := pc.checked + 1));
      }
    }
  }

  lemma EventSlotsAreGiven(c: Suite, w: Ledger, s: Slot)
    requires Sound(c, w) && HasRow(w.events, s)
    ensures Given(w, s)
  {
    hide Issued, KeysUnique, AnchorsSound, SessionsSound, ContentSealed, SignatureSealed, ChainAccepted, PrevIn;
    var i :| 0 <= i < |w.events| && w.events[i].sessionId == s.sessionId && w.events[i].sequence == s.sequence;
    assert EventSound(c, w.grants, w.sessions, w.events[i]);
  }

  lemma NumberedSlots(c: Suite, m: State, op: nat, req: ActionRequest, ctx: Context)
    requires Sound(c, m.w) && SlotsSound(m) && Countable(m.w, req.sessionId)
    requires op in m.ops && m.ops[op].Checking?
    ensures SlotsSound(Goto(m.(w := WithNextSequence(m.w, req.sessionId)), op, Drafted(RequestDraft(m.w, req, ctx))))
  {
    hide Sound, SlotsSound, HasRow;
    var s := Slot(req.sessionId, m.w.sessions[req.sessionId].eventCount + 1);
    var after := Goto(m.(w := WithNextSequence(m.w, req.sessionId)), op, Drafted(RequestDraft(m.w, req, ctx)));
    SoundCounts(c, m.w, req.sessionId);
    if HasRow(m.w.events, s) {
      EventSlotsAreGiven(c, m.w, s);
    }
    TakeSlot(m, after, op, s);
  }

  lemma SoundCounts(c: Suite, w: Ledger, sessionId: Bytes)
    requires Sound(c, w) && sessionId in w.sessions
    ensures w.sessions[sessionId].eventCount >= 0
  {
    hide EventsSound, AnchorsSound, KeysUnique, Issued;
  }

  lemma TakeNumberKeepsInv(c: Suite, m: State, op: nat, ctx: Context)
    requires Inv(c, m)
    ensures Inv(c, TakeNumberStep(m, op, ctx))
  {
    hide SlotsSound, Sound, ChainAccepted, ChainOf, Allows, OfSession, WholeMicros, Extends;
    if op in m.ops && m.ops[op].Checking? && m.ops[op].checked == |m.ops[op].chain| {
      var after := TakeNumberStep(m, op, ctx);
      if op !in after.ops {
        StopKeepsInv(c, m, op);
      } else {
        var req := m.ops[op].req;
        assert PcSound(c, m.w, m.ops[op]);
        NumberedSlots(c, m, op, req, ctx);
        NextSequenceKeepsSound(c, m.w, req.sessionId);
        DraftIsNumbered(c, m.w, req, ctx);
        NextSequenceExtends(c, m.w, req.sessionId);
        MoveKeepsPcs(c, m, after, op);
      }
    }
  }

  lemma NextSequenceExtends(c: Suite, w: Ledger, sessionId: Bytes)
    requires Sound(c, w) && Countable(w, sessionId)
    ensures Extends(c, w, WithNextSequence(w, sessionId))
  {
    hide EventsSound, AnchorsSound, KeysUnique, Issued;
  }

  lemma ReadLastKeepsInv(c: Suite, m: State, op: nat, ctx: Context)
    requires Inv(c, m)
    ensures Inv(c, ReadLastStep(c, m, op, ctx))
  {
    hide SlotsSound, Sound, ChainAccepted, OfSession, WholeMicros, SealedEvent, LastOf, EventSound, PrevIn,
         StoredEvent;
    if op in m.ops && m.ops[op].Drafted? {
      var draft := m.ops[op].draft;
      var prev := if LastEvent in ctx.down then None else LastOf(m.w.events, draft.sessionId);
      assert PcSound(c, m.w, m.ops[op]);
      if prev.Some? {
        LastIsLogged(m.w.events, draft.sessionId);
      }
      SealedDraftIsSound(c, m.w, draft, prev);
      WholeMicrosStoredAsIs(c, draft, prev);
      SealKeepsFields(c, draft, prev);
      GotoKeepsInv(c, m, op, Signing(SealedEvent(c, draft, prev)));
    }
  }

  lemma AppendedRows(rows: seq<ActionEvent>, e: ActionEvent, t: Slot)
    ensures HasRow(rows + [e], t) <==> HasRow(rows, t) || t == Slot(e.sessionId, e.sequence)
  {
    if HasRow(rows, t) {
      var i :| 0 <= i < |rows| && rows[i].sessionId == t.sessionId && rows[i].sequence == t.sequence;
      assert (rows + [e])[i] == rows[i];
    }
    assert (rows + [e])[|rows|] == e;
  }

  lemma InsertedSlots(m: State, op: nat)
    requires SlotsSound(m) && op in m.ops && m.ops[op].Signing? && StoredEvent(m.ops[op].event) == m.ops[op].event
    ensures var e := m.ops[op].event;
      SlotsSound(Goto(m.(w := WithEvent(m.w, e)), op, Checkpointing(e.sessionId)))
  {
    hide SlotsSound, StoredEvent, HasRow;
    var e := m.ops[op].event;
    var after := Goto(m.(w := WithEvent(m.w, e)), op, Checkpointing(e.sessionId));
    var s := Slot(e.sessionId, e.sequence);
    forall t
      ensures HasRow(after.w.events, t) <==> HasRow(m.w.events, t) || t == s
    {
      AppendedRows(m.w.events, e, t);
    }
    FillSlot(m, after, op, s);
  }

  lemma AppendExtends(c: Suite, w: Ledger, e: ActionEvent)
    requires Sound(c, w)
    ensures Extends(c, w, WithEvent(w, e))
  {
    hide EventsSound, AnchorsSound, KeysUnique, SessionsSound, Issued;
  }

  lemma InsertKeepsInv(c: Suite, m: State, op: nat, ctx: Context)
    requires Inv(c, m)
    ensures Inv(c, InsertStep(m, op, ctx))
  {
    hide SlotsSound, Sound, EventSound, PrevIn, StoredEvent, Refused, Extends;
    if op in m.ops && m.ops[op].Signing? {
      var e := m.ops[op].event;
      assert PcSound(c, m.w, m.ops[op]);
      if AppendEvent in ctx.down || Refused(m.w.events, e) {
        StopKeepsInv(c, m, op);
      } else {
        var after := Goto(m.(w := WithEvent(m.w, e)), op, Checkpointing(e.sessionId));
        AppendKeepsSound(c, m.w, e);
        InsertedSlots(m, op);
        AppendExtends(c, m.w, e);
        MoveKeepsPcs(c, m, after, op);
      }
    }
  }

  lemma ReadRowsKeepsInv(c: Suite, m: State, op: nat, ctx: Context)
    requires Inv(c, m)
    ensures Inv(c, ReadRowsStep(c, m, op, ctx))
  {
    hide SlotsSound, Sound, SessionRoot, RootPast;
    if op in m.ops && m.ops[op].Checkpointing? {
      var sessionId := m.ops[op].sessionId;
      if Call.EventsBySession in ctx.down {
        StopKeepsInv(c, m, op);
      } else {
        RootNowIsPast(c, m.w.events, sessionId);
        GotoKeepsInv(c, m, op, Rooted(sessionId, SessionRoot(c, m.w.events, sessionId)));
      }
    }
  }

  /** The tables grow without a new row or number, and no operation moves. */
  lemma TablesKeepInv(c: Suite, m: State, w: Ledger)
    requires Inv(c, m) && Sound(c, w) && Extends(c, m.w, w) && w.events == m.w.events
    requires forall s :: Given(w, s) <==> Given(m.w, s)
    ensures Inv(c, m.(w := w))
  {
    hide SlotsSound, Sound, PcSound, Extends, Given;
    SameSlots(m, m.(w := w));
    forall op | op in m.ops
      ensures PcSound(c, w, m.ops[op])
    {
      PcSoundKept(c, m.w, w, m.ops[op]);
    }
  }

  lemma PublishKeepsInv(c: Suite, m: State, op: nat, ctx: Context)
    requires Inv(c, m)
    ensures Inv(c, PublishStep(m, op, ctx))
  {
    hide SlotsSound, RootPast, EventsSound, Issued, KeysUnique, SessionsSound, AnchorsSound, Given;
    if op in m.ops && m.ops[op].Rooted? {
      if UpsertAnchor in ctx.down {
        StopKeepsInv(c, m, op);
      } else {
        assert PcSound(c, m.w, m.ops[op]);
        var a := Anchor(m.ops[op].root, ctx.anchoredAt);
        var w := WithAnchor(m.w, m.ops[op].rootedId, a);
        AnchorKeepsSound(c, m.w, m.ops[op].rootedId, a);
        SameGiven(m.w, w);
        TablesKeepInv(c, m, w);
        StopKeepsInv(c, m.(w := w), op);
      }
    }
  }

  lemma SameGiven(w: Ledger, after: Ledger)
    requires forall id :: id in after.sessions <==> id in w.sessions
    requires forall id :: id in w.sessions ==> after.sessions[id].eventCount == w.sessions[id].eventCount
    ensures forall s :: Given(after, s) <==> Given(w, s)
  {
  }

  lemma StartEndKeepsInv(c: Suite, m: State, op: nat, sessionId: Bytes, ctx: Context)
    requires Inv(c, m)
    ensures Inv(c, StartEndStep(m, op, sessionId, ctx))
  {
    hide SlotsSound, PcsSound, EventsSound, Issued, KeysUnique, SessionsSound, AnchorsSound, Given;
    if op !in m.ops && sessionId in m.w.sessions {
      var w := WithSession(m.w, sessionId, m.w.sessions[sessionId].(endedAt := StoredTime(Some(ctx.recordedAt))));
      EndKeepsSound(c, m.w, sessionId, StoredTime(Some(ctx.recordedAt)));
      SameGiven(m.w, w);
      TablesKeepInv(c, m, w);
      GotoKeepsInv(c, m.(w := w), op, Checkpointing(sessionId));
    }
  }

  lemma StartDelegateKeepsInv(c: Suite, m: State, op: nat, req: DelegateRequest, ctx: Context)
    requires Inv(c, m) && ctx.newId != []
    ensures Inv(c, StartDelegateStep(c, m, op, req, ctx))
  {
    hide SlotsSound, PcsSound, EventsSound, KeysUnique, SessionsSound, AnchorsSound, IssuedAfter, ChildGrant;
    if op !in m.ops && Delegable(c, m.w, req, ctx).Ok? {
      ChildGrantIssued(c, m.w.grants, req.parentGrantId, req, ctx.newId);
      GotoKeepsInv(c, m, op, Granting(Delegable(c, m.w, req, ctx).value));
    }
  }

  lemma StoreGrantKeepsInv(c: Suite, m: State, op: nat, ctx: Context)
    requires Inv(c, m)
    requires op in m.ops && m.ops[op].Granting? ==> FindGrant(m.w.grants, m.ops[op].grant.grantId).None?
    ensures Inv(c, StoreGrantStep(m, op, ctx))
  {
    hide SlotsSound, EventsSound, KeysUnique, SessionsSound, AnchorsSound, IssuedAfter, Given, WithGrant;
    if op in m.ops && m.ops[op].Granting? {
      if PutGrant in ctx.down {
        StopKeepsInv(c, m, op);
      } else {
        var g := m.ops[op].grant;
        assert PcSound(c, m.w, m.ops[op]);
        GrantKeepsSound(c, m.w, g);
        GrantOnly(m.w, g);
        SameGiven(m.w, WithGrant(m.w, g));
        TablesKeepInv(c, m, WithGrant(m.w, g));
        StopKeepsInv(c, m.(w := WithGrant(m.w, g)), op);
      }
    }
  }

  lemma GrantOnly(w: Ledger, g: Grant)
    ensures WithGrant(w, g) == w.(grants := WithGrant(w, g).grants)
  {
  }

  lemma IssueKeepsInv(c: Suite, m: State, req: RootRequest, ctx: Context)
    requires Inv(c, m) && ctx.newId != [] && FindGrant(m.w.grants, ctx.newId).None?
    ensures Inv(c, m.(w := IssueRoot(c, m.w, req, ctx).0))
  {
    hide SlotsSound, PcsSound, EventsSound, KeysUnique, SessionsSound, AnchorsSound, IssuedAfter, Given, WithGrant,
         RootGrant, ChildGrant;
    if ctx.access && PutGrant !in ctx.down {
      var g := RootGrant(c, req, ctx.newId);
      RootGrantIssued(c, m.w.grants, req, ctx.newId);
      GrantIdsKept(c, req, DelegateRequest([], [], [], None), g, ctx.newId);
      GrantKeepsSound(c, m.w, g);
      GrantOnly(m.w, g);
      SameGiven(m.w, WithGrant(m.w, g));
      TablesKeepInv(c, m, WithGrant(m.w, g));
    }
  }

  lemma RevokeKeepsInv(c: Suite, m: State, grantId: Bytes, reason: Bytes, ctx: Context)
    requires Inv(c, m)
    ensures Inv(c, m.(w := Revoke(m.w, grantId, reason, ctx).0))
  {
    hide SlotsSound, PcsSound, EventsSound, KeysUnique, SessionsSound, AnchorsSound, Issued, Given;
    var w := Revoke(m.w, grantId, reason, ctx).0;
    RevokeKeepsSound(c, m.w, grantId, reason, ctx);
    SameGiven(m.w, w);
    TablesKeepInv(c, m, w);
  }

  lemma BeginKeepsInv(c: Suite, m: State, rootGrantId: Bytes, surface: int32, ctx: Context)
    requires Inv(c, m)
    ensures Inv(c, m.(w := Begin(m.w, rootGrantId, surface, ctx).0))
  {
    hide SlotsSound, PcsSound, EventsSound, KeysUnique, AnchorsSound, Issued;
    var (w, r) := Begin(m.w, rootGrantId, surface, ctx);
    if r.Ok? {
      CreateKeepsSound(c, m.w, StoredSession(r.value));
      TablesKeepInv(c, m, w);
    }
  }

  lemma SingleKeepsInv(c: Suite, m: State, whole: Op)
    requires Inv(c, m) && OneStep(whole) && FreshId(m.w, whole)
    ensures Inv(c, m.(w := Apply(c, m.w, whole)))
  {
    hide Inv, IssueRoot, Revoke, Begin;
    match whole
    case OpIssue(req, ctx) => IssueKeepsInv(c, m, req, ctx);
    case OpRevoke(grantId, reason, ctx) => RevokeKeepsInv(c, m, grantId, reason, ctx);
    case OpBegin(rootGrantId, surface, ctx) => BeginKeepsInv(c, m, rootGrantId, surface, ctx);
    case _ =>
  }

  lemma NextKeepsInv(c: Suite, m: State, a: Action)
    requires Inv(c, m) && FreshAction(m, a)
    ensures Inv(c, Next(c, m, a))
  {
    hide Inv, StartRecordStep, CheckGrantStep, TakeNumberStep, ReadLastStep, InsertStep, ReadRowsStep, PublishStep,
         StartEndStep, StartDelegateStep, StoreGrantStep, Stop, Apply;
    match a
    case StartRecord(op, req, ctx) => StartRecordKeepsInv(c, m, op, req, ctx);
    case CheckGrant(op, ctx) => CheckGrantKeepsInv(c, m, op, ctx);
    case TakeNumber(op, ctx) => TakeNumberKeepsInv(c, m, op, ctx);
    case ReadLast(op, ctx) => ReadLastKeepsInv(c, m, op, ctx);
    case Insert(op, ctx) => InsertKeepsInv(c, m, op, ctx);
    case ReadRows(op, ctx) => ReadRowsKeepsInv(c, m, op, ctx);
    case Publish(op, ctx) => PublishKeepsInv(c, m, op, ctx);
    case StartEnd(op, sessionId, ctx) => StartEndKeepsInv(c, m, op, sessionId, ctx);
    case StartDelegate(op, req, ctx) => StartDelegateKeepsInv(c, m, op, req, ctx);
    case StoreGrant(op, ctx) => StoreGrantKeepsInv(c, m, op, ctx);
    case Abort(op) =>
      if op in m.ops {
        StopKeepsInv(c, m, op);
      }
    case Single(whole) =>
      if OneStep(whole) {
        SingleKeepsInv(c, m, whole);
      }
  }

  lemma InitialInv(c: Suite)
    ensures Inv(c, INITIAL)
  {
    hide Sound;
    EmptyIsSound(c);
  }

  /**
   Interleaved safety: in every interleaving of any operations, stopped or failing wherever
   they may, the tables stay sound (appended sequences are distinct and given out, each
   previous hash is zero or the content hash of an earlier row of the session, each anchor is
   the root of the session's rows at some past moment), and every number given out is in
   exactly one place.
   */
  lemma {:induction false} EveryInterleavingKeepsInv(c: Suite, actions: seq<Action>)
    requires FreshActions(c, INITIAL, actions)
    ensures Inv(c, Exec(c, INITIAL, actions))
  {
    hide Inv, Next, FreshAction;
    if |actions| == 0 {
      InitialInv(c);
    } else {
      EveryInterleavingKeepsInv(c, actions[..|actions| - 1]);
      NextKeepsInv(c, Exec(c, INITIAL, actions[..|actions| - 1]), actions[|actions| - 1]);
    }
  }

  // What the invariant gives

  /** The unique key on (session, sequence) never refuses an insert: only a reused event id can. */
  lemma InsertRefusedOnlyById(c: Suite, m: State, op: nat)
    requires Inv(c, m) && op in m.ops && m.ops[op].Signing?
    ensures Refused(m.w.events, m.ops[op].event) <==>
      exists i :: 0 <= i < |m.w.events| && m.w.events[i].eventId == m.ops[op].event.eventId
  {
    hide Sound, PcsSound, Given;
    var e := m.ops[op].event;
    var s := Slot(e.sessionId, e.sequence);
    assert Holds(m, op, s);
    assert !HasRow(m.w.events, s);
  }

  /** No operation holds a number of the session and none was lost. */
  ghost predicate Quiescent(m: State, sessionId: Bytes) {
    && (forall op, s :: Holds(m, op, s) ==> s.sessionId != sessionId)
    && (forall s :: s in m.lost ==> s.sessionId != sessionId)
  }

  lemma NothingMissingWhenQuiescent(c: Suite, m: State, sessionId: Bytes, v: int)
    requires Inv(c, m) && Quiescent(m, sessionId) && sessionId in m.w.sessions
    requires v <= m.w.sessions[sessionId].eventCount + 1
    ensures MissingBelow(m.w.events, sessionId, v) == 0
  {
    hide Sound, PcsSound, MissingBelow, Holds;
    forall u | 1 <= u < v
      ensures Logged(m.w.events, sessionId, u)
    {
      assert Given(m.w, Slot(sessionId, u));
      assert HasRow(m.w.events, Slot(sessionId, u));
    }
    NothingMissing(m.w.events, sessionId, v);
  }

  /**
   Interleaved recording at rest: when no operation holds a number of a session and none of its
   numbers was lost, its rows carry exactly the sequences 1 to n, and the path at index
   sequence - 1 verifies for each of them against the root of all of them.
   */
  lemma QuiescentSessionIsWhole(c: Suite, m: State, e: ActionEvent)
    requires Inv(c, m) && e in m.w.events && Quiescent(m, e.sessionId)
    ensures var log := BySession(m.w.events, e.sessionId);
      && 0 <= e.sequence - 1 < |log|
      && log[e.sequence - 1] == e
      && Merkle.Verifies(c.hash, e.contentHash, Merkle.PathOf(c.hash, ContentHashes(log), e.sequence - 1),
                         SessionRoot(c, m.w.events, e.sessionId), e.sequence - 1)
  {
    hide Sound, PcsSound, SlotsSound, Quiescent, BySession, ContentHashes, MissingBelow, Merkle.Verifies, Merkle.PathOf,
         Merkle.RootOf;
    EventIsGiven(c, m.w, e);
    NothingMissingWhenQuiescent(c, m, e.sessionId, e.sequence);
    ReceiptProofs.RightIndexIncluded(c, m.w, e);
  }

  lemma EventIsGiven(c: Suite, w: Ledger, e: ActionEvent)
    requires Sound(c, w) && e in w.events
    ensures OfSession(w.sessions, e)
  {
    hide Sound, ContentSealed, SignatureSealed, ChainAccepted;
    ReceiptProofs.LoggedEventIsSound(c, w, e);
  }

  /** At rest a session has as many rows as numbers given out. */
  lemma QuiescentSessionCount(c: Suite, m: State, sessionId: Bytes)
    requires Inv(c, m) && Quiescent(m, sessionId) && sessionId in m.w.sessions
    ensures |BySession(m.w.events, sessionId)| == m.w.sessions[sessionId].eventCount
  {
    hide Sound, PcsSound, BySession, MissingBelow, Logged, Holds;
    var log, n := BySession(m.w.events, sessionId), m.w.sessions[sessionId].eventCount;
    SoundCounts(c, m.w, sessionId);
    KeysAreUnique(c, m.w);
    ReceiptProofs.SequencesPositive(c, m.w, sessionId);
    if n > 0 {
      assert Given(m.w, Slot(sessionId, n));
      assert HasRow(m.w.events, Slot(sessionId, n));
      var j := LoggedPosition(m.w.events, sessionId, n);
      SequenceGap(m.w.events, sessionId, j);
      NothingMissingWhenQuiescent(c, m, sessionId, n);
    }
    if |log| > 0 {
      var last := |log| - 1;
      MemberIsLogged(m.w.events, sessionId, last);
      EventIsGiven(c, m.w, log[last]);
      SequenceGap(m.w.events, sessionId, last);
    }
  }

  lemma KeysAreUnique(c: Suite, w: Ledger)
    requires Sound(c, w)
    ensures KeysUnique(w.events)
  {
    hide EventsSound, AnchorsSound, SessionsSound, Issued, KeysUnique;
  }
}
