/**
 The operations of the delegation and capture services as functions of the state, each run
 from start to end with nothing in between. `Call` names the store calls of an operation;
 the calls in `down` fail on the database and change nothing.
 */
module Operations {
  import opened ByteStrings
  import opened Wrappers
  import opened Crypto
  import opened Records
  import opened Graph
  import opened Seal
  import opened GrantTable
  import opened EventTable
  import opened LedgerState
  import Canon
  import Merkle

  datatype Error =
    | NotFound
    | PermissionDenied
    | FailedPrecondition
    | Internal

  datatype Call =
    | GetGrant
    | GrantChain
    | IsRevoked
    | PutGrant
    | PutRevocation
    | GetSession
    | CreateSession
    | EndSession
    | NextSequence
    | LastEvent
    | AppendEvent
    | EventsBySession
    | UpsertAnchor
    | GetAnchor
    | GetEvent

  /**
   What an operation takes from its surroundings: whether the caller may access the project,
   the readings of the clock, the generated id and the failing store calls.
   */
  datatype Context = Context(
    access: bool,
    checkedAt: int,
    recordedAt: int,
    anchoredAt: int,
    newId: Bytes,
    down: set<Call>)

  // Delegation

  datatype RootRequest = RootRequest(projectId: Bytes, principalId: Bytes, scope: Option<Scope>)

  datatype DelegateRequest = DelegateRequest(
    parentGrantId: Bytes,
    subjectId: Bytes,
    capabilities: seq<Bytes>,
    scope: Option<Scope>)

  function Signed(c: Suite, g: Grant): Grant {
    g.(parentSignature := Signature(c, Canon.GrantBytes(g)))
  }

  function RootGrant(c: Suite, req: RootRequest, newId: Bytes): Grant {
    Signed(c, Grant(newId, req.projectId, [], req.principalId, req.principalId, [], req.scope, None, []))
  }

  function ChildGrant(c: Suite, parent: Grant, req: DelegateRequest, newId: Bytes): Grant {
    Signed(c, Grant(newId, parent.projectId, parent.grantId, parent.subjectId, req.subjectId,
                    req.capabilities, req.scope, None, []))
  }

  function IssueRoot(c: Suite, w: Ledger, req: RootRequest, ctx: Context): (Ledger, Result<Grant, Error>) {
    if !ctx.access then (w, Err(PermissionDenied))
    else if PutGrant in ctx.down then (w, Err(Internal))
    else (WithGrant(w, RootGrant(c, req, ctx.newId)), Ok(RootGrant(c, req, ctx.newId)))
  }

  /** The reads of `Delegate`: the grant that it goes on to store. */
  function Delegable(c: Suite, w: Ledger, req: DelegateRequest, ctx: Context): Result<Grant, Error> {
    if GetGrant in ctx.down then Err(Internal)
    else if FindGrant(w.grants, req.parentGrantId).None? then Err(NotFound)
    else if !ctx.access then Err(PermissionDenied)
    else if IsRevoked in ctx.down then Err(Internal)
    else
      var parent := FindGrant(w.grants, req.parentGrantId).value;
      if parent.grantId in w.revoked then Err(FailedPrecondition) else Ok(ChildGrant(c, parent, req, ctx.newId))
  }

  function Delegate(c: Suite, w: Ledger, req: DelegateRequest, ctx: Context): (Ledger, Result<Grant, Error>) {
    var child := Delegable(c, w, req, ctx);
    if child.Err? then (w, child)
    else if PutGrant in ctx.down then (w, Err(Internal))
    else (WithGrant(w, child.value), child)
  }

  function Revoke(w: Ledger, grantId: Bytes, reason: Bytes, ctx: Context): (Ledger, Result<bool, Error>) {
    if GetGrant in ctx.down then (w, Err(Internal))
    else if FindGrant(w.grants, grantId).None? then (w, Err(NotFound))
    else if !ctx.access then (w, Err(PermissionDenied))
    else if PutRevocation in ctx.down then (w, Err(Internal))
    else (WithRevocation(w, grantId, reason), Ok(true))
  }

  // Capture

  function Begin(w: Ledger, rootGrantId: Bytes, surface: int32, ctx: Context): (Ledger, Result<Session, Error>) {
    if GetGrant in ctx.down then (w, Err(Internal))
    else if FindGrant(w.grants, rootGrantId).None? then (w, Err(NotFound))
    else if !ctx.access then (w, Err(PermissionDenied))
    else
      var s := Session(ctx.newId, FindGrant(w.grants, rootGrantId).value.projectId, rootGrantId, surface,
                       ctx.recordedAt, None, 0);
      if CreateSession in ctx.down || s.sessionId in w.sessions then (w, Err(Internal))
      else (WithSession(w, s.sessionId, StoredSession(s)), Ok(s))
  }

  datatype ActionRequest = ActionRequest(
    sessionId: Bytes,
    grantId: Bytes,
    actionType: Bytes,
    actionPayload: Bytes,
    preStateHash: Bytes,
    postStateHash: Bytes,
    recordingRef: Bytes,
    resource: Bytes,
    valueCents: int64)

  /** The first reads of `RecordAction` and the check of the chain. */
  function Admitted(c: Suite, w: Ledger, req: ActionRequest, ctx: Context): (r: Result<seq<Grant>, Error>)
    ensures r.Ok? ==> |r.value| > 0
  {
    if GetSession in ctx.down then Err(Internal)
    else if req.sessionId !in w.sessions then Err(NotFound)
    else if GrantChain in ctx.down then Err(Internal)
    else
      var chain := ChainOf(w.grants, req.grantId);
      if |chain| == 0 then Err(NotFound)
      else if !ctx.access then Err(PermissionDenied)
      else if w.sessions[req.sessionId].projectId != chain[|chain| - 1].projectId then Err(PermissionDenied)
      else if !ChainHolds(c, NotaryVerifier(c), chain, ctx.checkedAt) then Err(PermissionDenied)
      else Ok(chain)
  }

  predicate AnyRevoked(revoked: map<Bytes, Bytes>, chain: seq<Grant>) {
    exists i | 0 <= i < |chain| :: chain[i].grantId in revoked
  }

  /** Everything that `RecordAction` checks before it takes a sequence number. */
  function Authorized(c: Suite, w: Ledger, req: ActionRequest, ctx: Context): Result<seq<Grant>, Error> {
    var admitted := Admitted(c, w, req, ctx);
    if admitted.Err? then admitted
    else if IsRevoked in ctx.down then Err(Internal)
    else if AnyRevoked(w.revoked, admitted.value) then Err(PermissionDenied)
    else if !Allows(admitted.value[|admitted.value| - 1], req.actionType, req.resource, req.valueCents) then
      Err(PermissionDenied)
    else admitted
  }

  /** The event before it is sealed; the clock reading is cut to whole microseconds. */
  function Draft(session: Session, req: ActionRequest, sequence: int64, recordedAt: int, newId: Bytes): ActionEvent {
    ActionEvent(newId, session.projectId, req.sessionId, sequence, session.surface, req.actionType, req.actionPayload,
                req.grantId, req.preStateHash, req.postStateHash, req.recordingRef,
                Some(recordedAt - recordedAt % 1000), [], [], [])
  }

  /** The draft of a request, with the number that its session gives out next. */
  function RequestDraft(w: Ledger, req: ActionRequest, ctx: Context): ActionEvent
    requires Countable(w, req.sessionId)
  {
    var session := w.sessions[req.sessionId];
    Draft(session, req, session.eventCount + 1, ctx.recordedAt, ctx.newId)
  }

  function Checkpoint(c: Suite, w: Ledger, sessionId: Bytes, ctx: Context): (Ledger, Result<Anchor, Error>) {
    if EventsBySession in ctx.down then (w, Err(Internal))
    else
      var a := Anchor(SessionRoot(c, w.events, sessionId), ctx.anchoredAt);
      if UpsertAnchor in ctx.down then (w, Err(Internal)) else (WithAnchor(w, sessionId, a), Ok(a))
  }

  /** `Notarize`: a failing read of the last event counts as there being none. */
  function Notarize(c: Suite, w: Ledger, draft: ActionEvent, ctx: Context): (Ledger, Result<ActionEvent, Error>) {
    var prev := if LastEvent in ctx.down then None else LastOf(w.events, draft.sessionId);
    var sealed := SealedEvent(c, draft, prev);
    if AppendEvent in ctx.down || Refused(w.events, sealed) then (w, Err(Internal))
    else
      var (after, anchored) := Checkpoint(c, WithEvent(w, sealed), sealed.sessionId, ctx);
      (after, if anchored.Err? then Err(anchored.error) else Ok(sealed))
  }

  function Record(c: Suite, w: Ledger, req: ActionRequest, ctx: Context): (Ledger, Result<ActionEvent, Error>) {
    var authorized := Authorized(c, w, req, ctx);
    if authorized.Err? then (w, Err(authorized.error))
    else if NextSequence in ctx.down || !Countable(w, req.sessionId) then (w, Err(Internal))
    else Notarize(c, WithNextSequence(w, req.sessionId), RequestDraft(w, req, ctx), ctx)
  }

  function End(c: Suite, w: Ledger, sessionId: Bytes, ctx: Context): (Ledger, Result<Session, Error>) {
    if GetSession in ctx.down then (w, Err(Internal))
    else if sessionId !in w.sessions then (w, Err(NotFound))
    else if !ctx.access then (w, Err(PermissionDenied))
    else if EndSession in ctx.down then (w, Err(Internal))
    else
      var s := w.sessions[sessionId].(endedAt := StoredTime(Some(ctx.recordedAt)));
      var (after, anchored) := Checkpoint(c, WithSession(w, sessionId, s), sessionId, ctx);
      (after, if anchored.Err? then Err(anchored.error) else Ok(s))
  }

  // Proofs

  /**
   `GetInclusionProof`: the leaf index is the sequence minus one. A failing read of the anchor
   or of the chain leaves that part of the proof empty.
   */
  function InclusionProof(c: Suite, w: Ledger, eventId: Bytes, down: set<Call>): Result<Proof, Error> {
    var found := FindEvent(w.events, eventId);
    if GetEvent in down then Err(Internal)
    else if found.None? then Err(NotFound)
    else if EventsBySession in down then Err(Internal)
    else
      var ev := found.value;
      var leaves := ContentHashes(BySession(w.events, ev.sessionId));
      var index := WrapInt64(ev.sequence - 1);
      if !(0 <= index < |leaves|) then Err(Internal)
      else
        Ok(Proof(ev, Merkle.PathOf(c.hash, leaves, index), Merkle.RootOf(c.hash, leaves),
                 if GetAnchor !in down && ev.sessionId in w.anchors then Some(w.anchors[ev.sessionId]) else None,
                 if GrantChain in down then [] else ChainOf(w.grants, ev.grantId)))
  }
}
