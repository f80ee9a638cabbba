/** Revocation over runs of non-overlapping operations. */
module Revocation {
  import opened ByteStrings
  import opened Wrappers
  import opened Crypto
  import opened Records
  import opened GrantTable
  import opened LedgerState
  import opened Operations
  import opened Runs
  import opened EventTable
  import opened Graph
  import opened Seal

  ghost predicate InChain(grants: seq<Grant>, grantId: Bytes, g: Bytes) {
    exists k :: 0 <= k < |ChainOf(grants, grantId)| && ChainOf(grants, grantId)[k].grantId == g
  }

  /** No event from position `from` on was recorded under a chain that contains g. */
  ghost predicate AvoidedSince(w: Ledger, from: nat, g: Bytes) {
    forall i :: from <= i < |w.events| ==> !InChain(w.grants, w.events[i].grantId, g)
  }

  /** Grants and events are only appended, and no revocation is taken back. */
  ghost predicate Grows(c: Suite, w: Ledger, after: Ledger) {
    && GrantsGrow(c, w.grants, after.grants)
    && w.revoked.Keys <= after.revoked.Keys
    && w.events <= after.events
  }

  lemma IssueGrows(c: Suite, w: Ledger, req: RootRequest, ctx: Context)
    requires Sound(c, w) && ctx.newId != [] && FindGrant(w.grants, ctx.newId).None?
    ensures Grows(c, w, IssueRoot(c, w, req, ctx).0)
  {
    hide EventsSound, AnchorsSound, SessionsSound, KeysUnique, RootGrant, ChildGrant, IssuedAfter, StoredGrant, PutRow;
    RootGrantIssued(c, w.grants, req, ctx.newId);
    GrantIdsKept(c, req, DelegateRequest([], [], [], None), RootGrant(c, req, ctx.newId), ctx.newId);
    GrantKeepsSound(c, w, RootGrant(c, req, ctx.newId));
  }

  lemma DelegateGrows(c: Suite, w: Ledger, req: DelegateRequest, ctx: Context)
    requires Sound(c, w) && ctx.newId != [] && FindGrant(w.grants, ctx.newId).None?
    ensures Grows(c, w, Delegate(c, w, req, ctx).0)
  {
    hide EventsSound, AnchorsSound, SessionsSound, KeysUnique, RootGrant, ChildGrant, IssuedAfter, StoredGrant, PutRow;
    if FindGrant(w.grants, req.parentGrantId).Some? {
      var parent := FindGrant(w.grants, req.parentGrantId).value;
      ChildGrantIssued(c, w.grants, req.parentGrantId, req, ctx.newId);
      GrantIdsKept(c, RootRequest([], [], None), req, parent, ctx.newId);
      GrantKeepsSound(c, w, ChildGrant(c, parent, req, ctx.newId));
    }
  }

  lemma ApplyGrows(c: Suite, w: Ledger, op: Op)
    requires Sound(c, w) && FreshId(w, op)
    ensures Grows(c, w, Apply(c, w, op))
  {
    hide EventsSound, AnchorsSound, SessionsSound, KeysUnique, Issued, IssueRoot, Delegate, Record, SessionRoot;
    match op
    case OpIssue(req, ctx) => IssueGrows(c, w, req, ctx);
    case OpDelegate(req, ctx) => DelegateGrows(c, w, req, ctx);
    case OpRevoke(grantId, reason, ctx) =>
    case OpBegin(rootGrantId, surface, ctx) =>
    case OpRecord(req, ctx) => RecordEvents(c, w, req, ctx);
    case OpEnd(sessionId, ctx) =>
  }

  /** A recording that appends was authorized by a chain without a revoked grant. */
  lemma AppendedChainNotRevoked(c: Suite, w: Ledger, req: ActionRequest, ctx: Context, g: Bytes)
    requires Sound(c, w) && g in w.revoked && Appends(c, w, req, ctx)
    ensures !InChain(w.grants, NewEvent(c, w, req, ctx).grantId, g)
  {
    hide EventsSound, AnchorsSound, SessionsSound, KeysUnique, Issued, ChainOf, ChainAccepted, NewEvent, Refused,
         Admitted, Linked, StoredEvent, LastOf, Allows;
    NewEventFields(c, w, req, ctx);
    AuthorizedChainAccepted(c, w, req, ctx);
  }

  lemma ApplyAvoids(c: Suite, w: Ledger, op: Op, from: nat, g: Bytes)
    requires Sound(c, w) && FreshId(w, op) && g in w.revoked && from <= |w.events|
    requires AvoidedSince(w, from, g)
    ensures AvoidedSince(Apply(c, w, op), from, g)
  {
    hide AnchorsSound, SessionsSound, KeysUnique, Apply, InChain, GrantsGrow, ChainAccepted, Appends, NewEvent, FreshId;
    var after := Apply(c, w, op);
    ApplyGrows(c, w, op);
    forall i | from <= i < |after.events|
      ensures !InChain(after.grants, after.events[i].grantId, g)
    {
      if i < |w.events| {
        assert EventSound(c, w.grants, w.sessions, w.events[i]);
        LoggedChainKept(c, w.grants, after.grants, w.events[i].grantId, g);
      } else {
        NewEventAvoids(c, w, op, i, g);
      }
    }
  }

  lemma LoggedChainKept(c: Suite, before: seq<Grant>, after: seq<Grant>, grantId: Bytes, g: Bytes)
    requires GrantsGrow(c, before, after) && ChainAccepted(c, before, grantId)
    ensures InChain(after, grantId, g) <==> InChain(before, grantId, g)
  {
    hide GrantsGrow, ChainOf;
    ChainKeptByGrowth(c, before, after, grantId);
  }

  lemma NewEventAvoids(c: Suite, w: Ledger, op: Op, i: nat, g: Bytes)
    requires Sound(c, w) && g in w.revoked && |w.events| <= i < |Apply(c, w, op).events|
    ensures !InChain(Apply(c, w, op).grants, Apply(c, w, op).events[i].grantId, g)
  {
    hide Sound, Record, NewEvent, Authorized, Refused, InChain;
    if op.OpRecord? {
      RecordEvents(c, w, op.action, op.ctx);
      AppendedChainNotRevoked(c, w, op.action, op.ctx, g);
    } else {
      OthersKeepEvents(c, w, op);
    }
  }

  /**
   Revocation safety: once g is revoked, no later operation of any run records an event under
   a grant whose chain contains g, however and whenever that grant was delegated.
   */
  lemma {:induction false} NothingRecordedUnderRevoked(c: Suite, w: Ledger, ops: seq<Op>, g: Bytes)
    requires Sound(c, w) && FreshIds(c, w, ops) && g in w.revoked
    ensures Sound(c, Run(c, w, ops)) && g in Run(c, w, ops).revoked && w.events <= Run(c, w, ops).events
    ensures AvoidedSince(Run(c, w, ops), |w.events|, g)
  {
    hide Sound, Apply, FreshId, GrantsGrow;
    if |ops| > 0 {
      var before, op := Run(c, w, ops[..|ops| - 1]), ops[|ops| - 1];
      NothingRecordedUnderRevoked(c, w, ops[..|ops| - 1], g);
      ApplyKeepsSound(c, before, op);
      ApplyGrows(c, before, op);
      ApplyAvoids(c, before, op, |w.events|, g);
    }
  }
}
