/** Runs without losses: the sequences of a session have no gaps and its anchor is current. */
module LosslessRuns {
  import opened ByteStrings
  import opened Wrappers
  import opened Crypto
  import opened Records
  import opened Seal
  import opened GrantTable
  import opened EventTable
  import opened LedgerState
  import opened Operations
  import opened Runs

  /** Nothing fails between taking the sequence number and storing the anchor, and event ids are not reused. */
  predicate Lossless(w: Ledger, op: Op) {
    op.OpRecord? ==>
      && op.ctx.down !! {AppendEvent, EventsBySession, UpsertAnchor}
      && forall i | 0 <= i < |w.events| :: w.events[i].eventId != op.ctx.newId
  }

  predicate AllLossless(c: Suite, w: Ledger, ops: seq<Op>) {
    |ops| > 0 ==> AllLossless(c, w, ops[..|ops| - 1]) && Lossless(Run(c, w, ops[..|ops| - 1]), ops[|ops| - 1])
  }

  /** The session's rows carry exactly the sequences 1 to its event count, in order. */
  ghost predicate Contiguous(w: Ledger, sessionId: Bytes) {
    var log := BySession(w.events, sessionId);
    && |log| == (if sessionId in w.sessions then w.sessions[sessionId].eventCount else 0)
    && forall i :: 0 <= i < |log| ==> log[i].sequence == i + 1
  }

  /** A session with rows has an anchor, and an anchor is the root of the session's present rows. */
  ghost predicate AnchoredNow(c: Suite, w: Ledger, sessionId: Bytes) {
    && (BySession(w.events, sessionId) != [] ==> sessionId in w.anchors)
    && (sessionId in w.anchors ==> w.anchors[sessionId].root == SessionRoot(c, w.events, sessionId))
  }

  ghost predicate Complete(c: Suite, w: Ledger) {
    forall sessionId :: Contiguous(w, sessionId) && AnchoredNow(c, w, sessionId)
  }

  /** Anchor agreement: a completed recording or ending leaves the root of the session's present rows. */
  lemma CompletedOperationAnchors(c: Suite, w: Ledger, req: ActionRequest, sessionId: Bytes, ctx: Context)
    ensures var (after, r) := Record(c, w, req, ctx);
      r.Ok? ==>
        && req.sessionId in after.anchors
        && after.anchors[req.sessionId].root == SessionRoot(c, after.events, req.sessionId)
    ensures var (after, r) := End(c, w, sessionId, ctx);
      r.Ok? ==>
        && sessionId in after.anchors
        && after.anchors[sessionId].root == SessionRoot(c, after.events, sessionId)
  {
    hide SessionRoot, Authorized, LastOf, Refused, SealedEvent, StoredEvent, RequestDraft;
    if Countable(w, req.sessionId) {
      DraftSession(w, req, ctx);
      var prev := if LastEvent in ctx.down then None else LastOf(w.events, req.sessionId);
      SealKeepsFields(c, RequestDraft(w, req, ctx), prev);
    }
  }

  // One recording

  lemma LosslessInsertAccepted(c: Suite, w: Ledger, req: ActionRequest, ctx: Context)
    requires Sound(c, w) && Countable(w, req.sessionId) && Lossless(w, OpRecord(req, ctx))
    ensures !Refused(w.events, NewEvent(c, w, req, ctx))
  {
    hide Sound, NewEvent, Linked, StoredEvent, LastOf;
    NewEventFields(c, w, req, ctx);
    NewSequenceIsHighest(c, w, req, ctx);
  }

  /** A lossless recording either changes nothing or does all of it: number, event and anchor. */
  lemma LosslessRecordIsWhole(c: Suite, w: Ledger, req: ActionRequest, ctx: Context)
    requires Sound(c, w) && Lossless(w, OpRecord(req, ctx))
    ensures Record(c, w, req, ctx).0 ==
      if !Appends(c, w, req, ctx) then w
      else
        var events := w.events + [NewEvent(c, w, req, ctx)];
        WithAnchor(WithNextSequence(w, req.sessionId).(events := events), req.sessionId,
                   Anchor(SessionRoot(c, events, req.sessionId), ctx.anchoredAt))
  {
    hide Sound, Authorized, LastOf, Refused, SealedEvent, StoredEvent, RequestDraft, SessionRoot;
    if Authorized(c, w, req, ctx).Ok? && Countable(w, req.sessionId) {
      LosslessInsertAccepted(c, w, req, ctx);
      NewEventFields(c, w, req, ctx);
      DraftSession(w, req, ctx);
    }
  }

  lemma SessionRootKept(c: Suite, rows: seq<ActionEvent>, more: seq<ActionEvent>, sessionId: Bytes)
    requires BySession(rows, sessionId) == BySession(more, sessionId)
    ensures SessionRoot(c, rows, sessionId) == SessionRoot(c, more, sessionId)
  {
  }

  lemma LosslessRecordKeepsComplete(c: Suite, w: Ledger, req: ActionRequest, ctx: Context, sessionId: Bytes)
    requires Sound(c, w) && Lossless(w, OpRecord(req, ctx))
    requires Contiguous(w, sessionId) && AnchoredNow(c, w, sessionId)
    ensures var after := Record(c, w, req, ctx).0; Contiguous(after, sessionId) && AnchoredNow(c, after, sessionId)
  {
    hide Sound, Record, Authorized, Refused, BySession, SessionRoot, NewEvent, Linked, StoredEvent, LastOf, Lossless;
    LosslessRecordIsWhole(c, w, req, ctx);
    RecordAppendsAtEnd(c, w, req, ctx, sessionId);
    if Appends(c, w, req, ctx) {
      NewEventFields(c, w, req, ctx);
      if sessionId != req.sessionId {
        SessionRootKept(c, w.events, Record(c, w, req, ctx).0.events, sessionId);
      }
    }
  }

  // The other operations

  lemma EndKeepsAnchored(c: Suite, w: Ledger, ended: Bytes, ctx: Context, sessionId: Bytes)
    requires AnchoredNow(c, w, sessionId) && Contiguous(w, sessionId)
    ensures AnchoredNow(c, End(c, w, ended, ctx).0, sessionId) && Contiguous(End(c, w, ended, ctx).0, sessionId)
  {
    hide BySession, SessionRoot;
  }

  lemma OthersKeepComplete(c: Suite, w: Ledger, op: Op, sessionId: Bytes)
    requires !op.OpRecord? && Contiguous(w, sessionId) && AnchoredNow(c, w, sessionId)
    ensures Contiguous(Apply(c, w, op), sessionId) && AnchoredNow(c, Apply(c, w, op), sessionId)
  {
    hide BySession, SessionRoot, RootGrant, ChildGrant, StoredGrant, PutRow, Delegable, End;
    if op.OpEnd? {
      EndKeepsAnchored(c, w, op.sessionId, op.ctx, sessionId);
    }
  }

  lemma ApplyKeepsComplete(c: Suite, w: Ledger, op: Op)
    requires Sound(c, w) && Complete(c, w) && Lossless(w, op)
    ensures Complete(c, Apply(c, w, op))
  {
    hide Sound, Record, Contiguous, AnchoredNow, Lossless;
    forall sessionId
      ensures Contiguous(Apply(c, w, op), sessionId) && AnchoredNow(c, Apply(c, w, op), sessionId)
    {
      assert Contiguous(w, sessionId) && AnchoredNow(c, w, sessionId);
      if op.OpRecord? {
        LosslessRecordKeepsComplete(c, w, op.action, op.ctx, sessionId);
      } else {
        OthersKeepComplete(c, w, op, sessionId);
      }
    }
  }

  /**
   In every lossless run of non-overlapping operations each session's rows carry exactly the
   sequences 1 to n, and its anchor is the root of all of them.
   */
  lemma {:induction false} RunIsComplete(c: Suite, ops: seq<Op>)
    requires FreshIds(c, EMPTY_LEDGER, ops) && AllLossless(c, EMPTY_LEDGER, ops)
    ensures Complete(c, Run(c, EMPTY_LEDGER, ops))
  {
    hide Sound, Apply, Complete, Lossless;
    if |ops| == 0 {
      EmptyIsComplete(c);
    } else {
      RunIsSound(c, ops[..|ops| - 1]);
      RunIsComplete(c, ops[..|ops| - 1]);
      ApplyKeepsComplete(c, Run(c, EMPTY_LEDGER, ops[..|ops| - 1]), ops[|ops| - 1]);
    }
  }

  lemma EmptyIsComplete(c: Suite)
    ensures Complete(c, EMPTY_LEDGER)
  {
  }
}
