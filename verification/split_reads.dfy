/**
 Why the steps of an operation may join its first reads, or a read and the write after it. Here
 the reads are made on an earlier state than the rest of the step, with anything in between: when
 they let the operation go on, the joined step does the same on the later state, and when they do
 not, the operation has written nothing and no step is taken.
 */
module SplitReads {
  import opened ByteStrings
  import opened Wrappers
  import opened Crypto
  import opened Records
  import opened Graph
  import opened GrantTable
  import opened LedgerState
  import opened Operations
  import opened Growth

  /** What was found stays as it was found. */
  lemma EarlierReadsHold(c: Suite, earlier: Ledger, later: Ledger, grantId: Bytes, sessionId: Bytes)
    requires Grown(c, earlier, later)
    ensures FindGrant(earlier.grants, grantId).Some? ==>
      && FindGrant(later.grants, grantId) == FindGrant(earlier.grants, grantId)
      && ChainOf(later.grants, grantId) == ChainOf(earlier.grants, grantId)
    ensures sessionId in earlier.sessions ==>
      && sessionId in later.sessions
      && later.sessions[sessionId].projectId == earlier.sessions[sessionId].projectId
      && later.sessions[sessionId].surface == earlier.sessions[sessionId].surface
  {
    hide GrantsGrow, ChainOf, FindGrant;
    if FindGrant(earlier.grants, grantId).Some? {
      ChainKeptByGrowth(c, earlier.grants, later.grants, grantId);
    }
  }

  /** The session is read first, the chain later. */
  function AdmittedAcross(c: Suite, earlier: Ledger, later: Ledger, req: ActionRequest, ctx: Context)
    : Result<seq<Grant>, Error>
  {
    if GetSession in ctx.down then Err(Internal)
    else if req.sessionId !in earlier.sessions then Err(NotFound)
    else if GrantChain in ctx.down then Err(Internal)
    else
      var chain := ChainOf(later.grants, req.grantId);
      if |chain| == 0 then Err(NotFound)
      else if !ctx.access then Err(PermissionDenied)
      else if earlier.sessions[req.sessionId].projectId != chain[|chain| - 1].projectId then Err(PermissionDenied)
      else if !ChainHolds(c, NotaryVerifier(c), chain, ctx.checkedAt) then Err(PermissionDenied)
      else Ok(chain)
  }

  lemma RecordReadsMerge(c: Suite, earlier: Ledger, later: Ledger, req: ActionRequest, ctx: Context, sequence: int64)
    requires Grown(c, earlier, later) && AdmittedAcross(c, earlier, later, req, ctx).Ok?
    ensures Admitted(c, later, req, ctx) == AdmittedAcross(c, earlier, later, req, ctx)
    ensures req.sessionId in earlier.sessions && req.sessionId in later.sessions
    ensures Draft(earlier.sessions[req.sessionId], req, sequence, ctx.recordedAt, ctx.newId)
         == Draft(later.sessions[req.sessionId], req, sequence, ctx.recordedAt, ctx.newId)
  {
    hide Grown, ChainOf, ChainHolds;
    EarlierReadsHold(c, earlier, later, req.grantId, req.sessionId);
  }

  /** The parent is read first, its revocation later. */
  function DelegableAcross(c: Suite, earlier: Ledger, later: Ledger, req: DelegateRequest, ctx: Context)
    : Result<Grant, Error>
  {
    if GetGrant in ctx.down then Err(Internal)
    else if FindGrant(earlier.grants, req.parentGrantId).None? then Err(NotFound)
    else if !ctx.access then Err(PermissionDenied)
    else if IsRevoked in ctx.down then Err(Internal)
    else
      var parent := FindGrant(earlier.grants, req.parentGrantId).value;
      if parent.grantId in later.revoked then Err(FailedPrecondition) else Ok(ChildGrant(c, parent, req, ctx.newId))
  }

  lemma DelegateReadsMerge(c: Suite, earlier: Ledger, later: Ledger, req: DelegateRequest, ctx: Context)
    requires Grown(c, earlier, later) && DelegableAcross(c, earlier, later, req, ctx).Ok?
    ensures Delegable(c, later, req, ctx) == DelegableAcross(c, earlier, later, req, ctx)
  {
    hide Grown, ChainOf, FindGrant, ChildGrant;
    EarlierReadsHold(c, earlier, later, req.parentGrantId, []);
  }

  /** The grant is read first, the revocation written later. */
  function RevokeAcross(earlier: Ledger, later: Ledger, grantId: Bytes, reason: Bytes, ctx: Context)
    : (Ledger, Result<bool, Error>)
  {
    if GetGrant in ctx.down then (later, Err(Internal))
    else if FindGrant(earlier.grants, grantId).None? then (later, Err(NotFound))
    else if !ctx.access then (later, Err(PermissionDenied))
    else if PutRevocation in ctx.down then (later, Err(Internal))
    else (WithRevocation(later, grantId, reason), Ok(true))
  }

  /** The grant is read first, the session created later. */
  function BeginAcross(earlier: Ledger, later: Ledger, rootGrantId: Bytes, surface: int32, ctx: Context)
    : (Ledger, Result<Session, Error>)
  {
    if GetGrant in ctx.down then (later, Err(Internal))
    else if FindGrant(earlier.grants, rootGrantId).None? then (later, Err(NotFound))
    else if !ctx.access then (later, Err(PermissionDenied))
    else
      var s := Session(ctx.newId, FindGrant(earlier.grants, rootGrantId).value.projectId, rootGrantId, surface,
                       ctx.recordedAt, None, 0);
      if CreateSession in ctx.down || s.sessionId in later.sessions then (later, Err(Internal))
      else (WithSession(later, s.sessionId, StoredSession(s)), Ok(s))
  }

  lemma SingleReadsMerge(c: Suite, earlier: Ledger, later: Ledger, grantId: Bytes, reason: Bytes, surface: int32,
                         ctx: Context)
    requires Grown(c, earlier, later)
    ensures var (after, r) := RevokeAcross(earlier, later, grantId, reason, ctx);
      if r.Ok? then Revoke(later, grantId, reason, ctx) == (after, r) else after == later
    ensures var (after, r) := BeginAcross(earlier, later, grantId, surface, ctx);
      if r.Ok? then Begin(later, grantId, surface, ctx) == (after, r) else after == later
  {
    hide Grown, ChainOf, FindGrant;
    EarlierReadsHold(c, earlier, later, grantId, []);
  }

  /** The session is read first, and ended with its checkpoint later. */
  function EndAcross(c: Suite, earlier: Ledger, later: Ledger, sessionId: Bytes, ctx: Context)
    : (Ledger, Result<Session, Error>)
  {
    if GetSession in ctx.down then (later, Err(Internal))
    else if sessionId !in earlier.sessions then (later, Err(NotFound))
    else if !ctx.access then (later, Err(PermissionDenied))
    else if EndSession in ctx.down then (later, Err(Internal))
    else if sessionId !in later.sessions then (later, Err(NotFound))
    else
      var s := later.sessions[sessionId].(endedAt := StoredTime(Some(ctx.recordedAt)));
      var (after, anchored) := Checkpoint(c, WithSession(later, sessionId, s), sessionId, ctx);
      (after, if anchored.Err? then Err(anchored.error) else Ok(s))
  }

  lemma EndReadsMerge(c: Suite, earlier: Ledger, later: Ledger, sessionId: Bytes, ctx: Context)
    requires Grown(c, earlier, later)
    ensures if sessionId in earlier.sessions || GetSession in ctx.down
      then End(c, later, sessionId, ctx) == EndAcross(c, earlier, later, sessionId, ctx)
      else EndAcross(c, earlier, later, sessionId, ctx).0 == later
  {
    hide Grown, Checkpoint;
    EarlierReadsHold(c, earlier, later, [], sessionId);
  }
}
