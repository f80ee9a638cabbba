/**
 Interleavings in which a session has one operation in flight at a time, from taking its number
 (or ending the session) to storing its anchor, while operations of other sessions overlap freely.
 */
module Exclusive {
  import opened ByteStrings
  import opened Wrappers
  import opened Crypto
  import opened Records
  import opened Graph
  import opened Seal
  import opened GrantTable
  import opened EventTable
  import opened LedgerState
  import opened Operations
  import opened Runs
  import opened LosslessRuns
  import opened Machine
  import opened Interleavings
  import opened ReceiptProofs
  import opened HashClashes
  import opened Overlap

  /** The session that an operation has a number, a row or a root of. */
  function SessionOf(pc: Pc): Option<Bytes> {
    match pc
    case Drafted(e) => Some(e.sessionId)
    case Signing(e) => Some(e.sessionId)
    case Checkpointing(sessionId) => Some(sessionId)
    case Rooted(sessionId, root) => Some(sessionId)
    case _ => None
  }

  predicate Busy(m: State, op: nat, sessionId: Bytes) {
    op in m.ops && SessionOf(m.ops[op]) == Some(sessionId)
  }

  ghost predicate OneAtATime(m: State, sessionId: Bytes) {
    forall op, other :: Busy(m, op, sessionId) && Busy(m, other, sessionId) ==> op == other
  }

  ghost predicate AlwaysOneAtATime(c: Suite, m: State, actions: seq<Action>, sessionId: Bytes) {
    && OneAtATime(Exec(c, m, actions), sessionId)
    && (|actions| > 0 ==> AlwaysOneAtATime(c, m, actions[..|actions| - 1], sessionId))
  }

  // What holds while operations take turns

  function Count(w: Ledger, sessionId: Bytes): int {
    if sessionId in w.sessions then w.sessions[sessionId].eventCount else 0
  }

  /** An operation of the session holds the highest number, or the root of the present rows. */
  predicate InTurn(c: Suite, w: Ledger, sessionId: Bytes, pc: Pc) {
    SessionOf(pc) == Some(sessionId) ==>
      match pc
      case Drafted(e) => e.sequence == Count(w, sessionId)
      case Signing(e) => e.sequence == Count(w, sessionId)
      case Rooted(_, root) => root == SessionRoot(c, w.events, sessionId)
      case _ => true
  }

  ghost predicate TakingTurns(c: Suite, m: State, sessionId: Bytes) {
    forall op :: op in m.ops ==> InTurn(c, m.w, sessionId, m.ops[op])
  }

  /** The step is one of an operation of the session, or makes an operation one. */
  predicate Touches(m: State, a: Action, sessionId: Bytes) {
    match a
    case TakeNumber(op, ctx) => op in m.ops && m.ops[op].Checking? && m.ops[op].req.sessionId == sessionId
    case ReadLast(op, ctx) => Busy(m, op, sessionId)
    case Insert(op, ctx) => Busy(m, op, sessionId)
    case ReadRows(op, ctx) => Busy(m, op, sessionId)
    case Publish(op, ctx) => Busy(m, op, sessionId)
    case StartEnd(op, id, ctx) => id == sessionId
    case _ => false
  }

  /** Rows, count and anchor of the session stay, and no operation of the session moves, except to end. */
  ghost predicate Untouched(m: State, after: State, sessionId: Bytes) {
    && BySession(after.w.events, sessionId) == BySession(m.w.events, sessionId)
    && Count(after.w, sessionId) == Count(m.w, sessionId)
    && (sessionId in after.w.anchors <==> sessionId in m.w.anchors)
    && (sessionId in m.w.anchors ==> after.w.anchors[sessionId] == m.w.anchors[sessionId])
    && (forall op :: op in after.ops && SessionOf(after.ops[op]) == Some(sessionId) ==>
          op in m.ops && m.ops[op] == after.ops[op])
  }

  lemma OtherSessionsRow(rows: seq<ActionEvent>, e: ActionEvent, sessionId: Bytes)
    requires e.sessionId != sessionId
    ensures BySession(rows + [e], sessionId) == BySession(rows, sessionId)
  {
    assert (rows + [e])[..|rows|] == rows;
  }

  lemma OtherNumberUntouched(c: Suite, m: State, op: nat, ctx: Context, sessionId: Bytes)
    requires Inv(c, m) && !Touches(m, TakeNumber(op, ctx), sessionId)
    ensures Untouched(m, TakeNumberStep(m, op, ctx), sessionId)
  {
    hide Inv, Allows, BySession;
    if op in m.ops && m.ops[op].Checking? && Countable(m.w, m.ops[op].req.sessionId) {
      DraftSession(m.w, m.ops[op].req, ctx);
    }
  }

  lemma OtherReadUntouched(c: Suite, m: State, op: nat, ctx: Context, sessionId: Bytes)
    requires !Busy(m, op, sessionId)
    ensures Untouched(m, ReadLastStep(c, m, op, ctx), sessionId)
  {
    hide BySession, SealedEvent, LastOf;
    if op in m.ops && m.ops[op].Drafted? {
      var draft := m.ops[op].draft;
      SealKeepsFields(c, draft, if LastEvent in ctx.down then None else LastOf(m.w.events, draft.sessionId));
    }
  }

  lemma OtherInsertUntouched(m: State, op: nat, ctx: Context, sessionId: Bytes)
    requires !Busy(m, op, sessionId)
    ensures Untouched(m, InsertStep(m, op, ctx), sessionId)
  {
    hide BySession, Refused;
    if op in m.ops && m.ops[op].Signing? {
      OtherSessionsRow(m.w.events, StoredEvent(m.ops[op].event), sessionId);
    }
  }

  lemma SingleUntouched(c: Suite, m: State, whole: Op, sessionId: Bytes)
    requires OneStep(whole)
    ensures Untouched(m, m.(w := Apply(c, m.w, whole)), sessionId)
  {
    hide BySession, RootGrant, StoredGrant, PutRow;
  }

  lemma OtherPublishUntouched(m: State, op: nat, ctx: Context, sessionId: Bytes)
    requires !Busy(m, op, sessionId)
    ensures Untouched(m, PublishStep(m, op, ctx), sessionId)
  {
    hide BySession;
  }

  lemma OtherEndUntouched(m: State, op: nat, id: Bytes, ctx: Context, sessionId: Bytes)
    requires id != sessionId
    ensures Untouched(m, StartEndStep(m, op, id, ctx), sessionId)
  {
    hide BySession;
  }

  lemma OthersUntouched(c: Suite, m: State, a: Action, sessionId: Bytes)
    requires Inv(c, m) && !Touches(m, a, sessionId)
    ensures Untouched(m, Next(c, m, a), sessionId)
  {
    hide Inv, BySession, Apply, TakeNumberStep, ReadLastStep, InsertStep, PublishStep, StartEndStep, SessionRoot,
         Admitted, Delegable, WithGrant, Count;
    match a
    case TakeNumber(op, ctx) => OtherNumberUntouched(c, m, op, ctx, sessionId);
    case ReadLast(op, ctx) => OtherReadUntouched(c, m, op, ctx, sessionId);
    case Insert(op, ctx) => OtherInsertUntouched(m, op, ctx, sessionId);
    case Publish(op, ctx) => OtherPublishUntouched(m, op, ctx, sessionId);
    case StartEnd(op, id, ctx) => OtherEndUntouched(m, op, id, ctx, sessionId);
    case Single(whole) =>
      if OneStep(whole) {
        SingleUntouched(c, m, whole, sessionId);
      }
    case StoreGrant(op, ctx) =>
      if op in m.ops && m.ops[op].Granting? {
        GrantOnly(m.w, m.ops[op].grant);
        SameCount(m.w, WithGrant(m.w, m.ops[op].grant), sessionId);
      }
    case _ =>
  }

  lemma SameCount(w: Ledger, after: Ledger, sessionId: Bytes)
    requires after.sessions == w.sessions
    ensures Count(after, sessionId) == Count(w, sessionId)
  {
  }

  lemma UntouchedKeepsTurns(c: Suite, m: State, after: State, sessionId: Bytes)
    requires TakingTurns(c, m, sessionId) && Untouched(m, after, sessionId)
    ensures TakingTurns(c, after, sessionId)
  {
    hide BySession, SessionRoot, Count;
    SessionRootKept(c, m.w.events, after.w.events, sessionId);
  }

  /** After a step of an operation of the session no other operation is one. */
  ghost predicate Alone(after: State, op: nat, sessionId: Bytes) {
    forall other :: Busy(after, other, sessionId) ==> other == op
  }

  lemma AloneStaysAlone(m: State, after: State, op: nat, sessionId: Bytes)
    requires OneAtATime(m, sessionId) && Busy(m, op, sessionId)
    requires forall other :: other in after.ops && other != op ==> other in m.ops && after.ops[other] == m.ops[other]
    ensures Alone(after, op, sessionId)
  {
    hide SessionOf;
    forall other | Busy(after, other, sessionId)
      ensures other == op
    {
      assert other != op ==> Busy(m, other, sessionId);
    }
  }

  lemma TouchingIsAlone(c: Suite, m: State, a: Action, sessionId: Bytes)
    requires Touches(m, a, sessionId) && OneAtATime(m, sessionId) && OneAtATime(Next(c, m, a), sessionId)
    ensures a.TakeNumber? || a.ReadLast? || a.Insert? || a.ReadRows? || a.Publish? || a.StartEnd?
    ensures Busy(m, a.op, sessionId) || Busy(Next(c, m, a), a.op, sessionId) ==> Alone(Next(c, m, a), a.op, sessionId)
  {
    hide SessionOf, Allows, RequestDraft, SealedEvent, LastOf, Refused, SessionRoot, StoredEvent, OneAtATime;
    if Busy(m, a.op, sessionId) {
      AloneStaysAlone(m, Next(c, m, a), a.op, sessionId);
    } else if Busy(Next(c, m, a), a.op, sessionId) {
      AloneAfter(Next(c, m, a), a.op, sessionId);
    }
  }

  lemma AloneAfter(m: State, op: nat, sessionId: Bytes)
    requires OneAtATime(m, sessionId) && Busy(m, op, sessionId)
    ensures Alone(m, op, sessionId)
  {
  }

  lemma NumberInTurn(c: Suite, m: State, op: nat, ctx: Context, sessionId: Bytes)
    requires Touches(m, TakeNumber(op, ctx), sessionId)
    ensures var after := TakeNumberStep(m, op, ctx);
      op in after.ops ==> InTurn(c, after.w, sessionId, after.ops[op])
  {
    hide Allows, SessionRoot;
  }

  lemma ReadInTurn(c: Suite, m: State, op: nat, ctx: Context, sessionId: Bytes)
    requires op in m.ops && InTurn(c, m.w, sessionId, m.ops[op])
    ensures var after := ReadLastStep(c, m, op, ctx);
      op in after.ops ==> InTurn(c, after.w, sessionId, after.ops[op])
  {
    hide SessionRoot, SealedEvent, LastOf;
    if m.ops[op].Drafted? {
      var draft := m.ops[op].draft;
      SealKeepsFields(c, draft, if LastEvent in ctx.down then None else LastOf(m.w.events, draft.sessionId));
    }
  }

  lemma MoverInTurn(c: Suite, m: State, a: Action, sessionId: Bytes)
    requires Touches(m, a, sessionId) && TakingTurns(c, m, sessionId)
    ensures a.TakeNumber? || a.ReadLast? || a.Insert? || a.ReadRows? || a.Publish? || a.StartEnd?
    ensures var after := Next(c, m, a); a.op in after.ops ==> InTurn(c, after.w, sessionId, after.ops[a.op])
  {
    hide SessionRoot, TakeNumberStep, ReadLastStep, Refused, StoredEvent;
    match a
    case TakeNumber(op, ctx) => NumberInTurn(c, m, op, ctx, sessionId);
    case ReadLast(op, ctx) => ReadInTurn(c, m, op, ctx, sessionId);
    case _ =>
  }

  lemma IdleStep(c: Suite, m: State, a: Action, sessionId: Bytes)
    requires Touches(m, a, sessionId)
    requires a.TakeNumber? || a.ReadLast? || a.Insert? || a.ReadRows? || a.Publish? || a.StartEnd?
    requires !Busy(m, a.op, sessionId) && !Busy(Next(c, m, a), a.op, sessionId)
    ensures Untouched(m, Next(c, m, a), sessionId)
  {
    hide SessionRoot, Allows, RequestDraft, SealedEvent, LastOf, Refused, StoredEvent;
    if a.TakeNumber? && m.ops[a.op].Checking? && Countable(m.w, sessionId) {
      DraftSession(m.w, m.ops[a.op].req, a.ctx);
    }
  }

  lemma NextKeepsTurns(c: Suite, m: State, a: Action, sessionId: Bytes)
    requires Inv(c, m) && TakingTurns(c, m, sessionId)
    requires OneAtATime(m, sessionId) && OneAtATime(Next(c, m, a), sessionId)
    ensures TakingTurns(c, Next(c, m, a), sessionId)
  {
    hide Inv, Next, Untouched, OneAtATime, SessionRoot;
    if !Touches(m, a, sessionId) {
      OthersUntouched(c, m, a, sessionId);
      UntouchedKeepsTurns(c, m, Next(c, m, a), sessionId);
    } else {
      TouchingIsAlone(c, m, a, sessionId);
      MoverInTurn(c, m, a, sessionId);
      if !Busy(m, a.op, sessionId) && !Busy(Next(c, m, a), a.op, sessionId) {
        IdleStep(c, m, a, sessionId);
        UntouchedKeepsTurns(c, m, Next(c, m, a), sessionId);
      } else {
        forall other | other in Next(c, m, a).ops
          ensures InTurn(c, Next(c, m, a).w, sessionId, Next(c, m, a).ops[other])
        {
          assert other != a.op ==> !Busy(Next(c, m, a), other, sessionId);
        }
      }
    }
  }

  lemma {:induction false} TurnsAreTaken(c: Suite, actions: seq<Action>, sessionId: Bytes)
    requires FreshActions(c, INITIAL, actions) && AlwaysOneAtATime(c, INITIAL, actions, sessionId)
    ensures Inv(c, Exec(c, INITIAL, actions)) && TakingTurns(c, Exec(c, INITIAL, actions), sessionId)
  {
    hide Inv, Next, FreshAction, TakingTurns, OneAtATime;
    EveryInterleavingKeepsInv(c, actions);
    if |actions| == 0 {
      InitialTurns(c, sessionId);
    } else {
      var before, a := Exec(c, INITIAL, actions[..|actions| - 1]), actions[|actions| - 1];
      TurnsAreTaken(c, actions[..|actions| - 1], sessionId);
      NextKeepsTurns(c, before, a, sessionId);
    }
  }

  lemma InitialTurns(c: Suite, sessionId: Bytes)
    ensures TakingTurns(c, INITIAL, sessionId)
  {
  }

  // The hash chain

  /** The log is linked, and what is about to be inserted is sealed after its last event. */
  ghost predicate Chained(c: Suite, m: State, sessionId: Bytes) {
    && ChainLinked(c, BySession(m.w.events, sessionId))
    && forall op :: op in m.ops && m.ops[op].Signing? && m.ops[op].event.sessionId == sessionId ==>
         m.ops[op].event.prevHash == PrevHashOf(LastOf(m.w.events, sessionId))
  }

  /** The read of the session's last event fails only when there is none. */
  predicate LastIsReadable(m: State, a: Action, sessionId: Bytes) {
    a.ReadLast? && Busy(m, a.op, sessionId) && LastEvent in a.ctx.down ==> LastOf(m.w.events, sessionId).None?
  }

  ghost predicate LastAlwaysReadable(c: Suite, m: State, actions: seq<Action>, sessionId: Bytes) {
    |actions| > 0 ==>
      && LastAlwaysReadable(c, m, actions[..|actions| - 1], sessionId)
      && LastIsReadable(Exec(c, m, actions[..|actions| - 1]), actions[|actions| - 1], sessionId)
  }

  lemma UntouchedKeepsChained(c: Suite, m: State, after: State, sessionId: Bytes)
    requires Chained(c, m, sessionId) && Untouched(m, after, sessionId)
    ensures Chained(c, after, sessionId)
  {
    hide BySession, ChainLinked;
  }

  /** An operation whose turn it is inserts above all rows of its session. */
  lemma NextInTurnIsHighest(c: Suite, m: State, op: nat)
    requires Inv(c, m) && op in m.ops && m.ops[op].Signing?
    requires InTurn(c, m.w, m.ops[op].event.sessionId, m.ops[op])
    ensures NoneHigher(m.w.events, m.ops[op].event)
  {
    hide Inv, SessionRoot, ContentSealed, SignatureSealed, StoredEvent;
    var e := m.ops[op].event;
    InvSigning(c, m, op);
    forall x | x in m.w.events && x.sessionId == e.sessionId
      ensures x.sequence < e.sequence
    {
      InvNumbered(c, m, x);
      var i :| 0 <= i < |m.w.events| && m.w.events[i] == x;
    }
  }

  lemma InvNumbered(c: Suite, m: State, x: ActionEvent)
    requires Inv(c, m) && x in m.w.events
    ensures OfSession(m.w.sessions, x)
  {
    hide Sound, PcsSound, SlotsSound, OfSession;
    EventIsGiven(c, m.w, x);
  }

  lemma InsertInTurn(c: Suite, m: State, op: nat, ctx: Context, sessionId: Bytes)
    requires Inv(c, m) && TakingTurns(c, m, sessionId) && Chained(c, m, sessionId)
    requires op in m.ops && m.ops[op].Signing? && m.ops[op].event.sessionId == sessionId
    ensures ChainLinked(c, BySession(InsertStep(m, op, ctx).w.events, sessionId))
  {
    hide Inv, BySession, ContentSealed, SignatureSealed, StoredEvent, OfSession, SessionRoot, InTurn, NoneHigher,
         HasRow, Refused;
    var e, log := m.ops[op].event, BySession(m.w.events, sessionId);
    InvSigning(c, m, op);
    NextInTurnIsHighest(c, m, op);
    HighestIsAppended(m.w.events, e);
    ChainLinkedGrows(c, log, e);
  }

  lemma HighestIsAppended(rows: seq<ActionEvent>, e: ActionEvent)
    requires NoneHigher(rows, e)
    ensures BySession(rows + [e], e.sessionId) == BySession(rows, e.sessionId) + [e]
  {
    hide BySession;
    BySessionAppends(rows, e, e.sessionId);
  }

  lemma ReadInTurnChains(c: Suite, m: State, op: nat, ctx: Context, sessionId: Bytes)
    requires Busy(m, op, sessionId) && m.ops[op].Drafted? && LastIsReadable(m, ReadLast(op, ctx), sessionId)
    ensures var after := ReadLastStep(c, m, op, ctx);
      && after.w == m.w && op in after.ops && after.ops[op].Signing?
      && after.ops[op].event.prevHash == PrevHashOf(LastOf(m.w.events, sessionId))
  {
    hide LastOf, SealedEvent;
    SealKeepsFields(c, m.ops[op].draft, if LastEvent in ctx.down then None else LastOf(m.w.events, sessionId));
  }

  lemma NextKeepsChained(c: Suite, m: State, a: Action, sessionId: Bytes)
    requires Inv(c, m) && TakingTurns(c, m, sessionId) && Chained(c, m, sessionId)
    requires OneAtATime(m, sessionId) && OneAtATime(Next(c, m, a), sessionId) && LastIsReadable(m, a, sessionId)
    ensures Chained(c, Next(c, m, a), sessionId)
  {
    hide Inv, TakingTurns, Untouched, OneAtATime, LastOf, BySession, ChainLinked, TakeNumberStep, ReadLastStep,
         InsertStep, ReadRowsStep, PublishStep, StartEndStep, Apply, Admitted, Delegable;
    var after := Next(c, m, a);
    if !Touches(m, a, sessionId) {
      OthersUntouched(c, m, a, sessionId);
      UntouchedKeepsChained(c, m, after, sessionId);
    } else {
      TouchingIsAlone(c, m, a, sessionId);
      if !Busy(m, a.op, sessionId) && !Busy(after, a.op, sessionId) {
        IdleStep(c, m, a, sessionId);
        UntouchedKeepsChained(c, m, after, sessionId);
      } else {
        MoverChains(c, m, a, sessionId);
        forall op | op in after.ops && after.ops[op].Signing? && after.ops[op].event.sessionId == sessionId
          ensures op == a.op
        {
          assert Busy(after, op, sessionId);
        }
      }
    }
  }

  lemma MoverChains(c: Suite, m: State, a: Action, sessionId: Bytes)
    requires Inv(c, m) && TakingTurns(c, m, sessionId) && Chained(c, m, sessionId)
    requires Touches(m, a, sessionId) && LastIsReadable(m, a, sessionId)
    ensures a.TakeNumber? || a.ReadLast? || a.Insert? || a.ReadRows? || a.Publish? || a.StartEnd?
    ensures ChainLinked(c, BySession(Next(c, m, a).w.events, sessionId))
    ensures var after := Next(c, m, a);
      a.op in after.ops && after.ops[a.op].Signing? && after.ops[a.op].event.sessionId == sessionId ==>
        after.ops[a.op].event.prevHash == PrevHashOf(LastOf(after.w.events, sessionId))
  {
    hide Inv, TakingTurns, LastOf, BySession, ChainLinked, Allows, RequestDraft, SealedEvent, Refused, SessionRoot,
         StoredEvent;
    match a
    case ReadLast(op, ctx) =>
      if m.ops[op].Drafted? {
        ReadInTurnChains(c, m, op, ctx, sessionId);
      }
    case Insert(op, ctx) =>
      if m.ops[op].Signing? {
        InsertInTurn(c, m, op, ctx, sessionId);
      }
    case _ =>
  }

  /**
   The hash chain under interleaving: in every interleaving that works on the session with one
   operation at a time and reads its last event unless it has none, every event of the session
   passes `VerifyLink` against its predecessor, whatever overlaps in other sessions, whatever
   numbers were lost and whatever checkpoints failed.
   */
  lemma {:induction false} ExclusiveSessionIsChained(c: Suite, actions: seq<Action>, sessionId: Bytes)
    requires FreshActions(c, INITIAL, actions) && AlwaysOneAtATime(c, INITIAL, actions, sessionId)
    requires LastAlwaysReadable(c, INITIAL, actions, sessionId)
    ensures Chained(c, Exec(c, INITIAL, actions), sessionId)
  {
    hide Inv, Next, FreshAction, TakingTurns, OneAtATime, Chained, LastIsReadable;
    if |actions| == 0 {
      InitialChained(c, sessionId);
    } else {
      var before, a := Exec(c, INITIAL, actions[..|actions| - 1]), actions[|actions| - 1];
      TurnsAreTaken(c, actions[..|actions| - 1], sessionId);
      ExclusiveSessionIsChained(c, actions[..|actions| - 1], sessionId);
      NextKeepsChained(c, before, a, sessionId);
    }
  }

  lemma InitialChained(c: Suite, sessionId: Bytes)
    ensures Chained(c, INITIAL, sessionId)
  {
  }

  // The anchor

  /** An operation of the session has inserted or ended, and has yet to store the anchor. */
  predicate Pending(m: State, op: nat, sessionId: Bytes) {
    Busy(m, op, sessionId) && (m.ops[op].Checkpointing? || m.ops[op].Rooted?)
  }

  ghost predicate AnchoredUnlessPending(c: Suite, m: State, sessionId: Bytes) {
    (exists op :: Pending(m, op, sessionId)) || AnchoredNow(c, m.w, sessionId)
  }

  /** The step ends a checkpoint of the session that has not stored its anchor. */
  predicate DropsCheckpoint(m: State, a: Action, sessionId: Bytes) {
    match a
    case Abort(op) => Pending(m, op, sessionId)
    case ReadRows(op, ctx) => Pending(m, op, sessionId) && m.ops[op].Checkpointing? && Call.EventsBySession in ctx.down
    case Publish(op, ctx) => Pending(m, op, sessionId) && m.ops[op].Rooted? && UpsertAnchor in ctx.down
    case _ => false
  }

  ghost predicate CheckpointsComplete(c: Suite, m: State, actions: seq<Action>, sessionId: Bytes) {
    |actions| > 0 ==>
      && CheckpointsComplete(c, m, actions[..|actions| - 1], sessionId)
      && !DropsCheckpoint(Exec(c, m, actions[..|actions| - 1]), actions[|actions| - 1], sessionId)
  }

  /** A pending checkpoint of the session goes on until it stores the anchor. */
  lemma PendingStays(c: Suite, m: State, a: Action, op: nat, sessionId: Bytes)
    requires Pending(m, op, sessionId) && !DropsCheckpoint(m, a, sessionId)
    requires !(a.Publish? && a.op == op && m.ops[op].Rooted?)
    ensures Pending(Next(c, m, a), op, sessionId)
  {
    hide SessionRoot, Allows, RequestDraft, SealedEvent, LastOf, Refused, StoredEvent, Admitted, Delegable, Apply,
         WithGrant;
  }

  lemma AnchoredKept(c: Suite, w: Ledger, after: Ledger, sessionId: Bytes)
    requires AnchoredNow(c, w, sessionId) && BySession(after.events, sessionId) == BySession(w.events, sessionId)
    requires sessionId in after.anchors <==> sessionId in w.anchors
    requires sessionId in w.anchors ==> after.anchors[sessionId] == w.anchors[sessionId]
    ensures AnchoredNow(c, after, sessionId)
  {
    hide BySession, SessionRoot;
    SessionRootKept(c, w.events, after.events, sessionId);
  }

  /** A stored root is the present one when operations take turns, whatever failed before. */
  lemma PublishInTurnAnchors(c: Suite, m: State, op: nat, ctx: Context, sessionId: Bytes)
    requires TakingTurns(c, m, sessionId) && Busy(m, op, sessionId) && m.ops[op].Rooted? && UpsertAnchor !in ctx.down
    ensures AnchoredNow(c, Next(c, m, Publish(op, ctx)).w, sessionId)
  {
    hide BySession, SessionRoot;
    assert InTurn(c, m.w, sessionId, m.ops[op]);
  }

  /** A step of the session that neither inserts, nor ends, nor stores an anchor keeps log and anchor. */
  lemma MoverKeepsAnchor(c: Suite, m: State, a: Action, sessionId: Bytes)
    requires Touches(m, a, sessionId) && !DropsCheckpoint(m, a, sessionId)
    requires !(a.Publish? && m.ops[a.op].Rooted?)
    ensures a.TakeNumber? || a.ReadLast? || a.Insert? || a.ReadRows? || a.Publish? || a.StartEnd?
    ensures var after := Next(c, m, a);
      Pending(after, a.op, sessionId) ||
        (after.w.events == m.w.events && after.w.anchors == m.w.anchors)
  {
    hide SessionRoot, Allows, RequestDraft, SealedEvent, LastOf, Refused, StoredEvent;
  }

  lemma NextKeepsAnchored(c: Suite, m: State, a: Action, sessionId: Bytes)
    requires Inv(c, m) && TakingTurns(c, m, sessionId) && AnchoredUnlessPending(c, m, sessionId)
    requires !DropsCheckpoint(m, a, sessionId)
    ensures AnchoredUnlessPending(c, Next(c, m, a), sessionId)
  {
    hide Inv, Next, TakingTurns, AnchoredNow, Touches, DropsCheckpoint, Pending, BySession, SessionRoot;
    var after := Next(c, m, a);
    if a.Publish? && Busy(m, a.op, sessionId) && m.ops[a.op].Rooted? {
      StoredUnlessDropped(m, a, sessionId);
      PublishInTurnAnchors(c, m, a.op, a.ctx, sessionId);
    } else if op :| Pending(m, op, sessionId) {
      PendingIsBusy(m, op, sessionId);
      PendingStays(c, m, a, op, sessionId);
    } else if Touches(m, a, sessionId) {
      TouchesOwn(m, a, sessionId);
      MoverKeepsAnchor(c, m, a, sessionId);
      if after.w.events == m.w.events && after.w.anchors == m.w.anchors {
        AnchoredKept(c, m.w, after.w, sessionId);
      }
    } else {
      OthersUntouched(c, m, a, sessionId);
      AnchoredKept(c, m.w, after.w, sessionId);
    }
  }

  lemma StoredUnlessDropped(m: State, a: Action, sessionId: Bytes)
    requires a.Publish? && Busy(m, a.op, sessionId) && m.ops[a.op].Rooted? && !DropsCheckpoint(m, a, sessionId)
    ensures UpsertAnchor !in a.ctx.down
  {
  }

  lemma PendingIsBusy(m: State, op: nat, sessionId: Bytes)
    requires Pending(m, op, sessionId)
    ensures Busy(m, op, sessionId)
  {
  }

  lemma TouchesOwn(m: State, a: Action, sessionId: Bytes)
    requires Touches(m, a, sessionId)
    ensures a.Publish? ==> Busy(m, a.op, sessionId)
  {
  }

  /**
   The anchor under interleaving: in every interleaving that works on the session with one
   operation at a time and drops none of its checkpoints, the session's anchor is the root of its
   present rows whenever no operation has yet to store it.
   */
  lemma {:induction false} ExclusiveSessionIsAnchored(c: Suite, actions: seq<Action>, sessionId: Bytes)
    requires FreshActions(c, INITIAL, actions) && AlwaysOneAtATime(c, INITIAL, actions, sessionId)
    requires CheckpointsComplete(c, INITIAL, actions, sessionId)
    ensures AnchoredUnlessPending(c, Exec(c, INITIAL, actions), sessionId)
  {
    hide Inv, Next, FreshAction, TakingTurns, OneAtATime, DropsCheckpoint, AnchoredUnlessPending;
    if |actions| == 0 {
      InitialAnchored(c, sessionId);
    } else {
      var before, a := Exec(c, INITIAL, actions[..|actions| - 1]), actions[|actions| - 1];
      TurnsAreTaken(c, actions[..|actions| - 1], sessionId);
      ExclusiveSessionIsAnchored(c, actions[..|actions| - 1], sessionId);
      NextKeepsAnchored(c, before, a, sessionId);
    }
  }

  lemma InitialAnchored(c: Suite, sessionId: Bytes)
    ensures AnchoredUnlessPending(c, INITIAL, sessionId)
  {
  }

  // Receipts

  /**
   Receipt completeness under interleaving: when a session worked on in this way is at rest
   with none of its numbers lost, the receipt of each of its events gets a true verdict at every
   time, whatever operations of other sessions are in flight, overlap, fail or stop.
   */
  lemma ExclusiveSessionConvinces(c: Suite, actions: seq<Action>, e: ActionEvent, now: int)
    requires FreshActions(c, INITIAL, actions) && AlwaysOneAtATime(c, INITIAL, actions, e.sessionId)
    requires CheckpointsComplete(c, INITIAL, actions, e.sessionId)
    requires var m := Exec(c, INITIAL, actions);
      e in m.w.events && Quiescent(m, e.sessionId) && forall op :: !Pending(m, op, e.sessionId)
    ensures var w := Exec(c, INITIAL, actions).w;
      ProofConvinces(c, w, e, {}, now) && InclusionProof(c, w, e.eventId, {}).value.event == e
  {
    hide Inv, Exec, FreshActions, AlwaysOneAtATime, CheckpointsComplete, Quiescent, AnchoredNow, Pending,
         ProofConvinces, InclusionProof;
    var m := Exec(c, INITIAL, actions);
    EveryInterleavingKeepsInv(c, actions);
    ExclusiveSessionIsAnchored(c, actions, e.sessionId);
    InvSound(c, m);
    NothingLostWhenQuiescent(c, m, e);
    ProvableConvinces(c, m.w, e, now);
  }

  lemma InvSound(c: Suite, m: State)
    requires Inv(c, m)
    ensures Sound(c, m.w)
  {
    hide Sound, PcsSound, SlotsSound;
  }

  lemma NothingLostWhenQuiescent(c: Suite, m: State, e: ActionEvent)
    requires Inv(c, m) && e in m.w.events && Quiescent(m, e.sessionId) && AnchoredNow(c, m.w, e.sessionId)
    ensures Provable(c, m.w, e)
  {
    hide Sound, PcsSound, SlotsSound, Quiescent, BySession, MissingBelow, SessionRoot;
    EventIsGiven(c, m.w, e);
    NothingMissingWhenQuiescent(c, m, e.sessionId, e.sequence);
    BySessionMembers(m.w.events, e.sessionId, e);
  }
}
