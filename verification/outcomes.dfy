/**
 When each operation succeeds and what it leaves, from the request and the tables: projects, times,
 amounts, names and errors.
 */
module Outcomes {
  import opened ByteStrings
  import opened Wrappers
  import opened Crypto
  import opened Records
  import opened Graph
  import opened Seal
  import opened GrantTable
  import opened EventTable
  import opened LedgerState
  import opened Operations
  import opened Runs
  import opened Machine
  import opened Interleavings
  import Canon
  import Merkle
  import ReceiptProofs

  // Projects

  /** A row belongs to the project and surface of its session and to the project of its whole chain. */
  lemma RowBelongs(c: Suite, w: Ledger, e: ActionEvent)
    requires Sound(c, w) && e in w.events
    ensures e.sessionId in w.sessions
    ensures w.sessions[e.sessionId].projectId == e.projectId && w.sessions[e.sessionId].surface == e.surface
    ensures var chain := ChainOf(w.grants, e.grantId);
      |chain| > 0 && forall i :: 0 <= i < |chain| ==> chain[i].projectId == e.projectId
  {
    hide EventsSound, AnchorsSound, SessionsSound, KeysUnique, Issued, ContentSealed, SignatureSealed, ChainHolds,
         ChainOf, SignedBy;
    ReceiptProofs.LoggedEventIsSound(c, w, e);
    ChainIsDelegated(c, w.grants, e.grantId);
  }

  /** Over every run a recorded event is of its grant's project. */
  lemma RunKeepsProjects(c: Suite, ops: seq<Op>, e: ActionEvent)
    requires FreshIds(c, EMPTY_LEDGER, ops) && e in Run(c, EMPTY_LEDGER, ops).events
    ensures var grants := Run(c, EMPTY_LEDGER, ops).grants;
      && FindGrant(grants, e.grantId).Some?
      && FindGrant(grants, e.grantId).value.projectId == e.projectId
  {
    hide Run, FreshIds, Sound, ContentSealed, SignatureSealed, ChainHolds, ChainOf;
    RunIsSound(c, ops);
    ReceiptProofs.LoggedEventIsSound(c, Run(c, EMPTY_LEDGER, ops), e);
  }

  /** And so it is in every interleaving. */
  lemma InterleavingKeepsProjects(c: Suite, actions: seq<Action>, e: ActionEvent)
    requires FreshActions(c, INITIAL, actions) && e in Exec(c, INITIAL, actions).w.events
    ensures var grants := Exec(c, INITIAL, actions).w.grants;
      && FindGrant(grants, e.grantId).Some?
      && FindGrant(grants, e.grantId).value.projectId == e.projectId
  {
    hide Exec, FreshActions, Sound, PcsSound, SlotsSound, ContentSealed, SignatureSealed, ChainHolds, ChainOf;
    EveryInterleavingKeepsInv(c, actions);
    ReceiptProofs.LoggedEventIsSound(c, Exec(c, INITIAL, actions).w, e);
  }

  // Recording

  /** The session and the grant's chain are there to be read. */
  predicate Found(w: Ledger, req: ActionRequest, ctx: Context) {
    && GetSession !in ctx.down && req.sessionId in w.sessions
    && GrantChain !in ctx.down && |ChainOf(w.grants, req.grantId)| > 0
  }

  /** A grant of another project than the session's: refused, and nothing changes. */
  lemma ForeignGrantIsRefused(c: Suite, w: Ledger, req: ActionRequest, ctx: Context)
    requires Found(w, req, ctx)
    requires var chain := ChainOf(w.grants, req.grantId);
      chain[|chain| - 1].projectId != w.sessions[req.sessionId].projectId
    ensures Record(c, w, req, ctx) == (w, Err(PermissionDenied))
    ensures forall m: State, op: nat :: m.w == w ==> StartRecordStep(c, m, op, req, ctx) == m
  {
    hide ChainOf, ChainHolds, Allows, Notarize;
  }

  /** What is not there, not allowed or expired ends a recording before anything is written. */
  lemma RecordRefusals(c: Suite, w: Ledger, req: ActionRequest, ctx: Context)
    ensures GetSession !in ctx.down && req.sessionId !in w.sessions ==> Record(c, w, req, ctx) == (w, Err(NotFound))
    ensures
      (GetSession !in ctx.down && req.sessionId in w.sessions && GrantChain !in ctx.down
       && ChainOf(w.grants, req.grantId) == []) ==>
      Record(c, w, req, ctx) == (w, Err(NotFound))
    ensures GetSession in ctx.down ==> Record(c, w, req, ctx) == (w, Err(Internal))
    ensures Found(w, req, ctx) ==>
      var chain := ChainOf(w.grants, req.grantId);
      var denied :=
        || !ctx.access
        || (exists i :: 0 <= i < |chain| && chain[i].expiresAt.Some? && chain[i].expiresAt.value < ctx.checkedAt)
        || (IsRevoked !in ctx.down && exists i :: 0 <= i < |chain| && chain[i].grantId in w.revoked);
      denied ==> Record(c, w, req, ctx) == (w, Err(PermissionDenied))
  {
    hide ChainOf, Notarize, Allows, DepthHolds, LinkHolds, RequestDraft;
    var chain := ChainOf(w.grants, req.grantId);
    if i :| 0 <= i < |chain| && chain[i].expiresAt.Some? && chain[i].expiresAt.value < ctx.checkedAt {
      assert !Unexpired(chain[i], ctx.checkedAt);
    }
  }

  /** What the leaf of the chain allows, from its fields. */
  predicate LeafAllows(leaf: Grant, req: ActionRequest) {
    && (|leaf.capabilities| == 0 || req.actionType in leaf.capabilities)
    && (leaf.scope.Some? && |leaf.scope.value.resourceGlobs| > 0 && |req.resource| > 0 ==>
          var globs := leaf.scope.value.resourceGlobs;
          exists i | 0 <= i < |globs| :: MatchGlob(globs[i], req.resource))
    && (leaf.scope.Some? && leaf.scope.value.maxValueCents > 0 ==> req.valueCents <= leaf.scope.value.maxValueCents)
  }

  lemma LeafAllowsExact(leaf: Grant, req: ActionRequest)
    ensures LeafAllows(leaf, req) <==> Allows(leaf, req.actionType, req.resource, req.valueCents)
  {
    var globs := leaf.GetScope().resourceGlobs;
    if glob :| glob in globs && GlobMatches(glob, req.resource) {
      var i :| 0 <= i < |globs| && globs[i] == glob;
      assert MatchGlob(globs[i], req.resource);
    }
  }

  /**
   Exactly when a recording succeeds in a state that the services reach: its calls but the read of
   the last event succeed, session and grant are there and of one project, the caller has access,
   the chain is in depth and widens nothing, none of it is revoked, the leaf allows the action, the
   resource and the amount, the session's counter can go on, and no row has the new id. Expiries
   and signatures never decide, and a number is never taken twice.
   */
  lemma RecordSucceedsExactly(c: Suite, w: Ledger, req: ActionRequest, ctx: Context)
    requires Sound(c, w)
    ensures Record(c, w, req, ctx).1.Ok? <==>
      && ctx.down !! {GetSession, Call.GrantChain, Call.IsRevoked, Call.NextSequence, AppendEvent, EventsBySession,
                      UpsertAnchor}
      && ctx.access
      && req.sessionId in w.sessions && FindGrant(w.grants, req.grantId).Some?
      && w.sessions[req.sessionId].projectId == FindGrant(w.grants, req.grantId).value.projectId
      && w.sessions[req.sessionId].eventCount < 0x7FFF_FFFF_FFFF_FFFF
      && (var chain := ChainOf(w.grants, req.grantId);
          && |chain| > 0 && DepthHolds(chain) && AllNonWidening(chain)
          && (forall i :: 0 <= i < |chain| ==> chain[i].grantId !in w.revoked)
          && LeafAllows(chain[|chain| - 1], req))
      && (forall i :: 0 <= i < |w.events| ==> w.events[i].eventId != ctx.newId)
  {
    hide EventsSound, AnchorsSound, SessionsSound, KeysUnique, Issued, ChainHolds, ChainOf, DepthHolds, AllNonWidening,
         LeafAllows, Allows, Delegated, SealedEvent, LastOf, SessionRoot, StoredEvent, RequestDraft;
    if req.sessionId in w.sessions && FindGrant(w.grants, req.grantId).Some? {
      var chain := ChainOf(w.grants, req.grantId);
      ChainIsDelegated(c, w.grants, req.grantId);
      DelegatedIsNonempty(c, chain);
      StoredChainVerdict(c, w.grants, req.grantId, ctx.checkedAt);
      LeafAllowsExact(chain[|chain| - 1], req);
      if Countable(w, req.sessionId) {
        InsertRefusedById(c, w, req, ctx);
      }
    } else if FindGrant(w.grants, req.grantId).None? {
      NoGrantNoChain(w.grants, req.grantId);
    }
  }

  lemma DelegatedIsNonempty(c: Suite, chain: seq<Grant>)
    requires Delegated(c, chain)
    ensures |chain| > 0
  {
  }

  lemma InsertRefusedById(c: Suite, w: Ledger, req: ActionRequest, ctx: Context)
    requires Sound(c, w) && Countable(w, req.sessionId)
    ensures var rows, draft := WithNextSequence(w, req.sessionId).events, RequestDraft(w, req, ctx);
      var sealed := SealedEvent(c, draft, if LastEvent in ctx.down then None else LastOf(rows, draft.sessionId));
      Refused(rows, sealed) <==> exists i :: 0 <= i < |w.events| && w.events[i].eventId == ctx.newId
  {
    hide Sound, SealedEvent, LastOf, StoredEvent, Linked, RequestDraft;
    DraftSession(w, req, ctx);
    NewEventFields(c, w, req, ctx);
    NewSequenceIsHighest(c, w, req, ctx);
  }

  // Grants

  /** A root grant is of the requested project, principal and scope, unrestricted, signed, and stored as such. */
  lemma IssueRootMeans(c: Suite, w: Ledger, req: RootRequest, ctx: Context)
    requires FindGrant(w.grants, ctx.newId).None?
    ensures var (after, r) := IssueRoot(c, w, req, ctx);
      && (r.Ok? <==> ctx.access && PutGrant !in ctx.down)
      && (r.Err? ==> after == w && r.error == if !ctx.access then PermissionDenied else Internal)
      && (r.Ok? ==>
            && r.value.grantId == ctx.newId && r.value.projectId == req.projectId && r.value.parentGrantId == []
            && r.value.principalId == req.principalId && r.value.subjectId == req.principalId
            && r.value.capabilities == [] && r.value.scope == req.scope && r.value.expiresAt.None?
            && c.Verifies(c.pub, Canon.GrantBytes(r.value), r.value.parentSignature)
            && after == w.(grants := w.grants + [StoredGrant(r.value)]))
  {
    hide Canon.Field, Canon.Fields;
    var g := Grant(ctx.newId, req.projectId, [], req.principalId, req.principalId, [], req.scope, None, []);
    SignedMeans(c, g);
  }

  lemma SignedMeans(c: Suite, g: Grant)
    ensures var s := Signed(c, g);
      && s == g.(parentSignature := s.parentSignature)
      && c.Verifies(c.pub, Canon.GrantBytes(s), s.parentSignature)
  {
    hide Canon.Field, Canon.Fields;
    assert Signed(c, g).GetScope() == g.GetScope();
    assert Canon.LimitBytes(Signed(c, g)) == Canon.LimitBytes(g);
  }

  /** A delegation is of its parent's project, from its subject, to the requested subject, as requested. */
  lemma DelegateMeans(c: Suite, w: Ledger, req: DelegateRequest, ctx: Context)
    requires FindGrant(w.grants, ctx.newId).None?
    ensures var (after, r) := Delegate(c, w, req, ctx);
      && (r.Ok? <==>
            && ctx.down !! {GetGrant, Call.IsRevoked, PutGrant} && ctx.access
            && FindGrant(w.grants, req.parentGrantId).Some? && req.parentGrantId !in w.revoked)
      && (r.Err? ==> after == w)
      && (r.Ok? ==>
            var parent := FindGrant(w.grants, req.parentGrantId).value;
            && r.value.grantId == ctx.newId && r.value.projectId == parent.projectId
            && r.value.parentGrantId == req.parentGrantId
            && r.value.principalId == parent.subjectId && r.value.subjectId == req.subjectId
            && r.value.capabilities == req.capabilities && r.value.scope == req.scope && r.value.expiresAt.None?
            && c.Verifies(c.pub, Canon.GrantBytes(r.value), r.value.parentSignature)
            && after == w.(grants := w.grants + [StoredGrant(r.value)]))
  {
    hide Signed, StoredGrant, FindGrant, Canon.GrantBytes;
    if FindGrant(w.grants, req.parentGrantId).Some? {
      var parent := FindGrant(w.grants, req.parentGrantId).value;
      FoundGrantHasId(w.grants, req.parentGrantId);
      var g := Grant(ctx.newId, parent.projectId, parent.grantId, parent.subjectId, req.subjectId, req.capabilities,
                     req.scope, None, []);
      SignedMeans(c, g);
      StoredKeepsId(Signed(c, g));
    }
  }

  lemma StoredKeepsId(g: Grant)
    ensures StoredGrant(g).grantId == g.grantId
  {
  }

  /** Errors of a delegation, in order. */
  lemma DelegateRefusals(c: Suite, w: Ledger, req: DelegateRequest, ctx: Context)
    requires GetGrant !in ctx.down
    ensures FindGrant(w.grants, req.parentGrantId).None? ==> Delegate(c, w, req, ctx) == (w, Err(NotFound))
    ensures FindGrant(w.grants, req.parentGrantId).Some? && !ctx.access ==>
      Delegate(c, w, req, ctx) == (w, Err(PermissionDenied))
    ensures
      (FindGrant(w.grants, req.parentGrantId).Some? && ctx.access && Call.IsRevoked !in ctx.down
       && req.parentGrantId in w.revoked) ==>
      Delegate(c, w, req, ctx) == (w, Err(FailedPrecondition))
  {
    hide FindGrant, ChildGrant;
    if FindGrant(w.grants, req.parentGrantId).Some? {
      FoundGrantHasId(w.grants, req.parentGrantId);
    }
  }

  /** A revocation is of a stored grant, with the reason given, and changes nothing else. */
  lemma RevokeMeans(w: Ledger, grantId: Bytes, reason: Bytes, ctx: Context)
    ensures var (after, r) := Revoke(w, grantId, reason, ctx);
      && (r.Ok? <==> ctx.down !! {GetGrant, PutRevocation} && ctx.access && FindGrant(w.grants, grantId).Some?)
      && after.revoked.Keys == w.revoked.Keys + (if r.Ok? then {grantId} else {})
      && (r.Ok? ==> after.revoked[grantId] == reason)
      && (forall g :: g in w.revoked && (g != grantId || r.Err?) ==> after.revoked[g] == w.revoked[g])
      && after == w.(revoked := after.revoked)
      && (r.Err? ==> r.error == if GetGrant in ctx.down then Internal
                                else if FindGrant(w.grants, grantId).None? then NotFound
                                else if !ctx.access then PermissionDenied
                                else Internal)
  {
    hide FindGrant;
  }

  // Sessions

  /** A session is of its grant's project, on the requested surface, open and without events. */
  lemma BeginMeans(w: Ledger, rootGrantId: Bytes, surface: int32, ctx: Context)
    ensures var (after, r) := Begin(w, rootGrantId, surface, ctx);
      && (r.Ok? <==>
            && ctx.down !! {GetGrant, CreateSession} && ctx.access
            && FindGrant(w.grants, rootGrantId).Some? && ctx.newId !in w.sessions)
      && (r.Err? ==> after == w)
      && (r.Ok? ==>
            && r.value.sessionId == ctx.newId && r.value.rootGrantId == rootGrantId && r.value.surface == surface
            && r.value.projectId == FindGrant(w.grants, rootGrantId).value.projectId
            && r.value.startedAt == ctx.recordedAt && r.value.endedAt.None? && r.value.eventCount == 0
            && after == w.(sessions := after.sessions)
            && after.sessions.Keys == w.sessions.Keys + {ctx.newId}
            && (forall id :: id in w.sessions ==> after.sessions[id] == w.sessions[id])
            && var stored := after.sessions[ctx.newId];
               && stored == r.value.(startedAt := stored.startedAt)
               && stored.startedAt % 1000 == 0 && ctx.recordedAt - 1000 < stored.startedAt <= ctx.recordedAt)
  {
    hide FindGrant;
  }

  /** Ending sets the end time of one session and stores the root of its rows with the time of anchoring. */
  lemma EndMeans(c: Suite, w: Ledger, sessionId: Bytes, ctx: Context)
    ensures var (after, r) := End(c, w, sessionId, ctx);
      && (r.Ok? <==>
            && ctx.down !! {GetSession, Call.EndSession, EventsBySession, UpsertAnchor} && ctx.access
            && sessionId in w.sessions)
      && after == w.(sessions := after.sessions, anchors := after.anchors)
      && (forall id :: id in w.sessions && id != sessionId ==>
            id in after.sessions && after.sessions[id] == w.sessions[id])
      && (r.Ok? ==>
            && r.value == after.sessions[sessionId]
            && r.value == w.sessions[sessionId].(endedAt := r.value.endedAt)
            && r.value.endedAt.Some? && r.value.endedAt.value % 1000 == 0
            && ctx.recordedAt - 1000 < r.value.endedAt.value <= ctx.recordedAt
            && after.anchors == w.anchors[sessionId := Anchor(SessionRoot(c, w.events, sessionId), ctx.anchoredAt)])
  {
    hide SessionRoot;
  }

  // Proofs

  /** Which events have a proof, and the errors when there is none. */
  lemma ProofRefusals(c: Suite, w: Ledger, eventId: Bytes, down: set<Call>)
    requires GetEvent !in down
    ensures FindEvent(w.events, eventId).None? ==> InclusionProof(c, w, eventId, down) == Err(NotFound)
    ensures FindEvent(w.events, eventId).Some? ==>
      var e, r := FindEvent(w.events, eventId).value, InclusionProof(c, w, eventId, down);
      if EventsBySession !in down && 0 <= WrapInt64(e.sequence - 1) < |BySession(w.events, e.sessionId)| then
        r.Ok? && r.value.event == e
      else r == Err(Internal)
  {
    hide FindEvent, BySession, ContentHashes, Merkle.PathOf, Merkle.RootOf, ChainOf;
  }
}
