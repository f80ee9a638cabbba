/**
 Exactly when a step keeps the hash links and the anchor of its session, whatever other
 operations did between the step and the read that it rests on.
 */
module Overlap {
  import opened ByteStrings
  import opened Crypto
  import opened Records
  import opened Seal
  import opened GrantTable
  import opened EventTable
  import opened LedgerState
  import opened Operations
  import opened Runs
  import opened LosslessRuns
  import opened Machine
  import opened Interleavings
  import opened Growth
  import opened CanonDecoding
  import opened ReceiptProofs
  import opened HashClashes

  ghost predicate AllSized(rows: seq<ActionEvent>) {
    forall e :: e in rows ==> Sized(e)
  }

  /** An operation read something in m0, and is still where it went then in m, after other steps. */
  ghost predicate HeldSince(c: Suite, m0: State, read: Action, op: nat, actions: seq<Action>, m: State) {
    var m1 := Next(c, m0, read);
    && Inv(c, m0) && FreshAction(m0, read) && FreshActions(c, m1, actions)
    && m == Exec(c, m1, actions) && op in m1.ops && op in m.ops && m.ops[op] == m1.ops[op]
  }

  lemma HeldGrows(c: Suite, m0: State, read: Action, op: nat, actions: seq<Action>, m: State)
    requires HeldSince(c, m0, read, op, actions, m)
    ensures Inv(c, m) && m0.w.events <= m.w.events
  {
    hide Inv, Next, FreshAction, GrantsGrow, SessionsGrow;
    NextKeepsInv(c, m0, read);
    NextGrows(c, m0, read);
    ExecGrows(c, Next(c, m0, read), actions);
  }

  lemma InvTables(c: Suite, m: State)
    requires Inv(c, m)
    ensures KeysUnique(m.w.events) && PrevsEarlier(m.w.events)
    ensures forall e :: e in m.w.events ==> ContentSealed(c, e)
  {
    hide Issued, AnchorsSound, SessionsSound, KeysUnique, PcsSound, SlotsSound, OfSession, ContentSealed,
         SignatureSealed, ChainAccepted, PrevIn;
    forall e | e in m.w.events
      ensures ContentSealed(c, e)
    {
      var i :| 0 <= i < |m.w.events| && m.w.events[i] == e;
      assert EventSound(c, m.w.grants, m.w.sessions, m.w.events[i]);
    }
  }

  lemma InvSigning(c: Suite, m: State, op: nat)
    requires Inv(c, m) && op in m.ops && m.ops[op].Signing?
    ensures var e := m.ops[op].event;
      && ContentSealed(c, e) && SignatureSealed(c, NotaryVerifier(c), e) && StoredEvent(e) == e
      && OfSession(m.w.sessions, e) && !HasRow(m.w.events, Slot(e.sessionId, e.sequence))
  {
    hide Sound, ContentSealed, SignatureSealed, OfSession, ChainAccepted, PrevIn, StoredEvent, HasRow, Given;
    var e := m.ops[op].event;
    assert PcSound(c, m.w, m.ops[op]);
    assert Holds(m, op, Slot(e.sessionId, e.sequence));
  }

  lemma LogIsSealed(c: Suite, rows: seq<ActionEvent>, sessionId: Bytes)
    requires AllSized(rows) && forall e :: e in rows ==> ContentSealed(c, e)
    ensures SealedLog(c, BySession(rows, sessionId))
  {
    hide BySession, ContentSealed, Sized;
    forall e | e in BySession(rows, sessionId)
      ensures e in rows
    {
      BySessionMembers(rows, sessionId, e);
    }
  }

  /** The log after an insert, and what it gives away. */
  lemma InsertedLogClash(c: Suite, m: State, e: ActionEvent)
    requires Inv(c, m) && ContentSealed(c, e) && !Refused(m.w.events, e) && AllSized(m.w.events + [e])
    ensures var log := BySession(m.w.events + [e], e.sessionId);
      if Clash(log) == NoEvidence then HashesApart(log) else Genuine(c.hash, Clash(log))
  {
    hide Inv, ContentSealed, Sized, Refused, KeysUnique, PrevsEarlier, BySession, Clash, HashesApart, Genuine,
         SealedLog;
    InvTables(c, m);
    InsertKeepsKeysUnique(m.w.events, e);
    LogIsSealed(c, m.w.events + [e], e.sessionId);
    BySessionAscends(m.w.events + [e], e.sessionId);
    ClashIsGenuine(c, BySession(m.w.events + [e], e.sessionId));
  }

  /**
   Links under any interleaving: an operation that read the last event in m0 and inserts now keeps
   a linked log linked if and only if no row of the session came since its read and none has a
   higher number (after a failed read: the session has no row), or the computed evidence is genuine.
   */
  lemma InsertKeepsLinkedExactly(c: Suite, m0: State, op: nat, readCtx: Context, actions: seq<Action>, m: State,
                                 ctx: Context)
    requires op in m0.ops && m0.ops[op].Drafted? && op in m.ops && m.ops[op].Signing?
    requires HeldSince(c, m0, ReadLast(op, readCtx), op, actions, m)
    requires AppendEvent !in ctx.down && !Refused(m.w.events, m.ops[op].event)
    requires AllSized(m.w.events + [m.ops[op].event])
    requires ChainLinked(c, BySession(m.w.events, m.ops[op].event.sessionId))
    ensures var e := m.ops[op].event;
      var log := BySession(Next(c, m, Insert(op, ctx)).w.events, e.sessionId);
      Genuine(c.hash, Clash(log)) ||
        (ChainLinked(c, log) <==> ReadIsCurrent(m.w.events, |m0.w.events|, e, LastEvent in readCtx.down))
  {
    hide Inv, FreshAction, Exec, ContentSealed, SignatureSealed, Refused, KeysUnique, PrevsEarlier, BySession, Clash,
         HashesApart, Genuine, ChainLinked, ReadIsCurrent, StoredEvent, AllSized, OfSession, SealedEvent;
    var e, k := m.ops[op].event, |m0.w.events|;
    var failed := LastEvent in readCtx.down;
    HeldGrows(c, m0, ReadLast(op, readCtx), op, actions, m);
    InvTables(c, m);
    InvSigning(c, m, op);
    assert m.w.events[..k] == m0.w.events;
    SealKeepsFields(c, m0.ops[op].draft, LastRead(m.w.events, k, m0.ops[op].draft.sessionId, failed));
    InsertedLogClash(c, m, e);
    if Clash(BySession(m.w.events + [e], e.sessionId)) == NoEvidence {
      InsertLinksExactly(c, m.w.events, e, k, failed);
    }
  }

  /**
   Anchors under any interleaving: an operation that read the session's rows in m0 and publishes
   their root now leaves the root of the present rows if and only if no row of the session came
   since its read, or the computed evidence is genuine.
   */
  lemma PublishAnchorsExactly(c: Suite, m0: State, op: nat, readCtx: Context, actions: seq<Action>, m: State,
                              ctx: Context)
    requires op in m0.ops && m0.ops[op].Checkpointing? && op in m.ops && m.ops[op].Rooted?
    requires HeldSince(c, m0, ReadRows(op, readCtx), op, actions, m)
    requires UpsertAnchor !in ctx.down && AllSized(m.w.events)
    ensures var sessionId := m0.ops[op].sessionId;
      Genuine(c.hash, StaleRoot(c.hash, m0.w.events, m.w.events, sessionId)) ||
        (AnchoredNow(c, Next(c, m, Publish(op, ctx)).w, sessionId) <==>
         NoRowSince(m.w.events, |m0.w.events|, sessionId))
  {
    hide Inv, FreshAction, Exec, KeysUnique, PrevsEarlier, BySession, Genuine, StaleRoot, NoRowSince, SessionRoot,
         AllSized, ContentSealed, SealedLog;
    var sessionId, k := m0.ops[op].sessionId, |m0.w.events|;
    HeldGrows(c, m0, ReadRows(op, readCtx), op, actions, m);
    InvTables(c, m);
    LogIsSealed(c, m.w.events, sessionId);
    assert m.w.events[..k] == m0.w.events;
    if NoRowSince(m.w.events, k, sessionId) {
      RowsSince(m.w.events, k, sessionId);
      SessionRootKept(c, m.w.events, m0.w.events, sessionId);
    } else if SessionRoot(c, m.w.events, sessionId) == SessionRoot(c, m0.w.events, sessionId) {
      StaleRootIsGenuine(c, m.w.events, k, sessionId);
    }
  }
}
