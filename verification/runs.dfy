/** Runs of non-overlapping operations: what holds after any number of them. */
module Runs {
  import opened ByteStrings
  import opened Wrappers
  import opened Crypto
  import opened Records
  import opened Graph
  import opened Seal
  import opened GrantTable
  import opened EventTable
  import opened LedgerState
  import opened Operations
  import Canon

  datatype Op =
    | OpIssue(root: RootRequest, ctx: Context)
    | OpDelegate(delegate: DelegateRequest, ctx: Context)
    | OpRevoke(grantId: Bytes, reason: Bytes, ctx: Context)
    | OpBegin(rootGrantId: Bytes, surface: int32, ctx: Context)
    | OpRecord(action: ActionRequest, ctx: Context)
    | OpEnd(sessionId: Bytes, ctx: Context)

  function Apply(c: Suite, w: Ledger, op: Op): Ledger {
    match op
    case OpIssue(req, ctx) => IssueRoot(c, w, req, ctx).0
    case OpDelegate(req, ctx) => Delegate(c, w, req, ctx).0
    case OpRevoke(grantId, reason, ctx) => Revoke(w, grantId, reason, ctx).0
    case OpBegin(rootGrantId, surface, ctx) => Begin(w, rootGrantId, surface, ctx).0
    case OpRecord(req, ctx) => Record(c, w, req, ctx).0
    case OpEnd(sessionId, ctx) => End(c, w, sessionId, ctx).0
  }

  function Run(c: Suite, w: Ledger, ops: seq<Op>): Ledger {
    if |ops| == 0 then w else Apply(c, Run(c, w, ops[..|ops| - 1]), ops[|ops| - 1])
  }

  /** The id generator never returns the empty string or the id of a stored grant. */
  predicate FreshId(w: Ledger, op: Op) {
    op.OpIssue? || op.OpDelegate? ==> op.ctx.newId != [] && FindGrant(w.grants, op.ctx.newId).None?
  }

  predicate FreshIds(c: Suite, w: Ledger, ops: seq<Op>) {
    |ops| > 0 ==> FreshIds(c, w, ops[..|ops| - 1]) && FreshId(Run(c, w, ops[..|ops| - 1]), ops[|ops| - 1])
  }

  // Every operation keeps the invariant

  lemma RootGrantIssued(c: Suite, rows: seq<Grant>, req: RootRequest, newId: Bytes)
    requires newId != []
    ensures IssuedAfter(c, rows, RootGrant(c, req, newId))
  {
    SignedGrantVerifies(c, Grant(newId, req.projectId, [], req.principalId, req.principalId, [], req.scope, None, []));
  }

  lemma ChildGrantIssued(c: Suite, rows: seq<Grant>, parentId: Bytes, req: DelegateRequest, newId: Bytes)
    requires Issued(c, rows) && newId != [] && FindGrant(rows, parentId).Some?
    ensures IssuedAfter(c, rows, ChildGrant(c, FindGrant(rows, parentId).value, req, newId))
  {
    hide Issued, SignedBy;
    var parent := FindGrant(rows, parentId).value;
    FoundGrantHasId(rows, parentId);
    FoundGrantIsNotRootless(c, rows, parentId);
    SignedGrantVerifies(c, Grant(newId, parent.projectId, parent.grantId, parent.subjectId, req.subjectId,
                                 req.capabilities, req.scope, None, []));
  }

  lemma {:induction false} FoundGrantHasId(rows: seq<Grant>, id: Bytes)
    requires FindGrant(rows, id).Some?
    ensures FindGrant(rows, id).value.grantId == id
  {
    if rows[|rows| - 1].grantId != id {
      FoundGrantHasId(rows[..|rows| - 1], id);
    }
  }

  lemma FoundGrantIsNotRootless(c: Suite, rows: seq<Grant>, id: Bytes)
    requires Issued(c, rows) && FindGrant(rows, id).Some?
    ensures id != []
  {
    EmptyIdIsNotFound(c, rows);
  }

  lemma SignedGrantVerifies(c: Suite, g: Grant)
    ensures SignedBy(c, NotaryVerifier(c), Signed(c, g))
  {
    assert Signed(c, g).GetScope() == g.GetScope();
    assert Canon.LimitBytes(Signed(c, g)) == Canon.LimitBytes(g);
  }

  lemma CheckpointKeepsSound(c: Suite, w: Ledger, sessionId: Bytes, ctx: Context)
    requires Sound(c, w)
    ensures Sound(c, Checkpoint(c, w, sessionId, ctx).0)
  {
    hide Sound, SessionRoot;
    SoundAnchorsFromRoot(c, w, sessionId, ctx.anchoredAt);
  }

  lemma SoundAnchorsFromRoot(c: Suite, w: Ledger, sessionId: Bytes, at: int)
    requires Sound(c, w)
    ensures Sound(c, WithAnchor(w, sessionId, Anchor(SessionRoot(c, w.events, sessionId), at)))
  {
    RootNowIsPast(c, w.events, sessionId);
    AnchorKeepsSound(c, w, sessionId, Anchor(SessionRoot(c, w.events, sessionId), at));
  }

  /** A draft of its session under an accepted grant of its project, sealed after a row of the session or none. */
  lemma SealedDraftIsSound(c: Suite, w: Ledger, draft: ActionEvent, prev: Option<ActionEvent>)
    requires OfSession(w.sessions, draft) && MadeUnder(c, w.grants, draft)
    requires prev.Some? ==> prev.value in w.events && prev.value.sessionId == draft.sessionId
    ensures var sealed := SealedEvent(c, draft, prev);
      EventSound(c, w.grants, w.sessions, sealed) && PrevIn(w.events, sealed.sessionId, sealed.prevHash)
  {
    hide ChainAccepted, GrantOfProject, ContentSealed, SignatureSealed, SealedEvent;
    SealedEventIsLinked(c, draft, prev);
    SealKeepsFields(c, draft, prev);
    if prev.Some? {
      var j :| 0 <= j < |w.events| && w.events[j] == prev.value;
    }
  }

  lemma LastIsLogged(rows: seq<ActionEvent>, sessionId: Bytes)
    requires LastOf(rows, sessionId).Some?
    ensures LastOf(rows, sessionId).value in rows && LastOf(rows, sessionId).value.sessionId == sessionId
  {
    BySessionMembers(rows, sessionId, LastOf(rows, sessionId).value);
  }

  predicate WholeMicros(e: ActionEvent) {
    e.occurredAt.Some? && e.occurredAt.value % 1000 == 0
  }

  lemma WholeMicrosStoredAsIs(c: Suite, e: ActionEvent, prev: Option<ActionEvent>)
    requires WholeMicros(e)
    ensures StoredEvent(SealedEvent(c, e, prev)) == SealedEvent(c, e, prev)
  {
    hide SealedEvent;
    SealKeepsFields(c, e, prev);
  }

  lemma NotarizeKeepsSound(c: Suite, w: Ledger, draft: ActionEvent, ctx: Context)
    requires Sound(c, w) && WholeMicros(draft)
    requires OfSession(w.sessions, draft) && MadeUnder(c, w.grants, draft)
    ensures Sound(c, Notarize(c, w, draft, ctx).0)
  {
    hide Sound, Refused, LastOf, SealedEvent, EventSound, PrevIn, MadeUnder, StoredEvent, Checkpoint;
    var prev := if LastEvent in ctx.down then None else LastOf(w.events, draft.sessionId);
    var sealed := SealedEvent(c, draft, prev);
    if prev.Some? {
      LastIsLogged(w.events, draft.sessionId);
    }
    SealedDraftIsSound(c, w, draft, prev);
    WholeMicrosStoredAsIs(c, draft, prev);
    if !Refused(w.events, sealed) {
      AppendKeepsSound(c, w, sealed);
      CheckpointKeepsSound(c, WithEvent(w, sealed), sealed.sessionId, ctx);
    }
  }

  lemma AuthorizedChainAccepted(c: Suite, w: Ledger, req: ActionRequest, ctx: Context)
    requires Issued(c, w.grants) && Authorized(c, w, req, ctx).Ok?
    ensures ChainAccepted(c, w.grants, req.grantId)
    ensures Authorized(c, w, req, ctx).value == ChainOf(w.grants, req.grantId)
    ensures req.sessionId in w.sessions
    ensures GrantOfProject(w.grants, req.grantId, w.sessions[req.sessionId].projectId)
  {
    hide Issued, ChainHolds, Allows, ChainOf, Delegated;
    if FindGrant(w.grants, req.grantId).None? {
      NoGrantNoChain(w.grants, req.grantId);
    }
    ChainIsDelegated(c, w.grants, req.grantId);
    AcceptedAtAnyTime(c, w.grants, req.grantId, ctx.checkedAt);
  }

  lemma DraftIsNumbered(c: Suite, w: Ledger, req: ActionRequest, ctx: Context)
    requires Sound(c, w) && Countable(w, req.sessionId)
    ensures var draft := RequestDraft(w, req, ctx);
      && OfSession(WithNextSequence(w, req.sessionId).sessions, draft) && WholeMicros(draft)
      && draft.grantId == req.grantId && draft.projectId == w.sessions[req.sessionId].projectId
  {
    hide EventsSound, AnchorsSound, Issued, KeysUnique;
  }

  lemma RecordKeepsSound(c: Suite, w: Ledger, req: ActionRequest, ctx: Context)
    requires Sound(c, w)
    ensures Sound(c, Record(c, w, req, ctx).0)
  {
    hide EventsSound, AnchorsSound, KeysUnique, Authorized, ChainAccepted, GrantOfProject, Notarize, OfSession,
         WholeMicros, RequestDraft;
    if Authorized(c, w, req, ctx).Ok? && Countable(w, req.sessionId) {
      var numbered := WithNextSequence(w, req.sessionId);
      AuthorizedChainAccepted(c, w, req, ctx);
      NextSequenceKeepsSound(c, w, req.sessionId);
      DraftIsNumbered(c, w, req, ctx);
      NotarizeKeepsSound(c, numbered, RequestDraft(w, req, ctx), ctx);
    }
  }

  lemma EndKeeps(c: Suite, w: Ledger, sessionId: Bytes, ctx: Context)
    requires Sound(c, w)
    ensures Sound(c, End(c, w, sessionId, ctx).0)
  {
    hide Sound, Checkpoint;
    if sessionId in w.sessions {
      EndKeepsSound(c, w, sessionId, StoredTime(Some(ctx.recordedAt)));
      var s := w.sessions[sessionId].(endedAt := StoredTime(Some(ctx.recordedAt)));
      CheckpointKeepsSound(c, WithSession(w, sessionId, s), sessionId, ctx);
    }
  }

  lemma IssueKeepsSound(c: Suite, w: Ledger, req: RootRequest, ctx: Context)
    requires Sound(c, w) && ctx.newId != [] && FindGrant(w.grants, ctx.newId).None?
    ensures Sound(c, IssueRoot(c, w, req, ctx).0)
  {
    hide Sound, RootGrant, ChildGrant, IssuedAfter, WithGrant;
    RootGrantIssued(c, w.grants, req, ctx.newId);
    GrantIdsKept(c, req, DelegateRequest([], [], [], None), RootGrant(c, req, ctx.newId), ctx.newId);
    GrantKeepsSound(c, w, RootGrant(c, req, ctx.newId));
  }

  lemma DelegateKeepsSound(c: Suite, w: Ledger, req: DelegateRequest, ctx: Context)
    requires Sound(c, w) && ctx.newId != [] && FindGrant(w.grants, ctx.newId).None?
    ensures Sound(c, Delegate(c, w, req, ctx).0)
  {
    hide EventsSound, AnchorsSound, SessionsSound, KeysUnique, RootGrant, ChildGrant, IssuedAfter, WithGrant;
    if FindGrant(w.grants, req.parentGrantId).Some? {
      var parent := FindGrant(w.grants, req.parentGrantId).value;
      ChildGrantIssued(c, w.grants, req.parentGrantId, req, ctx.newId);
      GrantIdsKept(c, RootRequest([], [], None), req, parent, ctx.newId);
      GrantKeepsSound(c, w, ChildGrant(c, parent, req, ctx.newId));
    }
  }

  lemma BeginKeepsSound(c: Suite, w: Ledger, rootGrantId: Bytes, surface: int32, ctx: Context)
    requires Sound(c, w)
    ensures Sound(c, Begin(w, rootGrantId, surface, ctx).0)
  {
    hide Sound;
    var (after, r) := Begin(w, rootGrantId, surface, ctx);
    if r.Ok? {
      CreateKeepsSound(c, w, StoredSession(r.value));
    }
  }

  lemma RevokeKeepsSound(c: Suite, w: Ledger, grantId: Bytes, reason: Bytes, ctx: Context)
    requires Sound(c, w)
    ensures Sound(c, Revoke(w, grantId, reason, ctx).0)
  {
    hide Sound;
    RevocationKeepsSound(c, w, grantId, reason);
  }

  lemma ApplyKeepsSound(c: Suite, w: Ledger, op: Op)
    requires Sound(c, w) && FreshId(w, op)
    ensures Sound(c, Apply(c, w, op))
  {
    hide Sound, IssueRoot, Delegate, Revoke, Begin, Record, End;
    match op
    case OpIssue(req, ctx) => IssueKeepsSound(c, w, req, ctx);
    case OpDelegate(req, ctx) => DelegateKeepsSound(c, w, req, ctx);
    case OpRevoke(grantId, reason, ctx) => RevokeKeepsSound(c, w, grantId, reason, ctx);
    case OpBegin(rootGrantId, surface, ctx) => BeginKeepsSound(c, w, rootGrantId, surface, ctx);
    case OpRecord(req, ctx) => RecordKeepsSound(c, w, req, ctx);
    case OpEnd(sessionId, ctx) => EndKeeps(c, w, sessionId, ctx);
  }

  lemma GrantIdsKept(c: Suite, root: RootRequest, req: DelegateRequest, parent: Grant, newId: Bytes)
    ensures RootGrant(c, root, newId).grantId == newId && ChildGrant(c, parent, req, newId).grantId == newId
  {
    hide Signature, Canon.GrantBytes;
  }

  /**
   Every run with fresh ids, whatever its requests and failing store calls, reaches a sound
   state: a well-founded forest of signed grants, uniquely keyed sealed events under accepted
   chains, and anchors that were roots of the session's log.
   */
  lemma {:induction false} RunIsSound(c: Suite, ops: seq<Op>)
    requires FreshIds(c, EMPTY_LEDGER, ops)
    ensures Sound(c, Run(c, EMPTY_LEDGER, ops))
  {
    hide Sound, Apply;
    if |ops| == 0 {
      EmptyIsSound(c);
    } else {
      RunIsSound(c, ops[..|ops| - 1]);
      ApplyKeepsSound(c, Run(c, EMPTY_LEDGER, ops[..|ops| - 1]), ops[|ops| - 1]);
    }
  }

  // The log of one session over an operation

  /** The event that a recording appends. */
  function NewEvent(c: Suite, w: Ledger, req: ActionRequest, ctx: Context): ActionEvent
    requires Countable(w, req.sessionId)
  {
    SealedEvent(c, RequestDraft(w, req, ctx), if LastEvent in ctx.down then None else LastOf(w.events, req.sessionId))
  }

  lemma NewEventFields(c: Suite, w: Ledger, req: ActionRequest, ctx: Context)
    requires Countable(w, req.sessionId)
    ensures var e := NewEvent(c, w, req, ctx);
      && e.sessionId == req.sessionId
      && e.sequence == w.sessions[req.sessionId].eventCount + 1
      && e.grantId == req.grantId
      && e.eventId == ctx.newId
      && StoredEvent(e) == e
      && Linked(c, e, if LastEvent in ctx.down then None else LastOf(w.events, req.sessionId))
  {
    hide SealedEvent, LastOf, Linked;
    var prev := if LastEvent in ctx.down then None else LastOf(w.events, req.sessionId);
    SealKeepsFields(c, RequestDraft(w, req, ctx), prev);
    SealedEventIsLinked(c, RequestDraft(w, req, ctx), prev);
    WholeMicrosStoredAsIs(c, RequestDraft(w, req, ctx), prev);
  }

  /** A recording that gets past its checks and its counter appends its event, unless the insert fails. */
  predicate Appends(c: Suite, w: Ledger, req: ActionRequest, ctx: Context) {
    && Authorized(c, w, req, ctx).Ok?
    && NextSequence !in ctx.down
    && Countable(w, req.sessionId)
    && AppendEvent !in ctx.down
    && !Refused(w.events, NewEvent(c, w, req, ctx))
  }

  lemma CheckpointKeepsTables(c: Suite, w: Ledger, sessionId: Bytes, ctx: Context)
    ensures var after := Checkpoint(c, w, sessionId, ctx).0; after == w.(anchors := after.anchors)
  {
    hide SessionRoot;
  }

  lemma NotarizeTables(c: Suite, w: Ledger, draft: ActionEvent, ctx: Context)
    ensures var after := Notarize(c, w, draft, ctx).0;
      var sealed := SealedEvent(c, draft, if LastEvent in ctx.down then None else LastOf(w.events, draft.sessionId));
      var appends := AppendEvent !in ctx.down && !Refused(w.events, sealed);
      && after == w.(events := if appends then w.events + [StoredEvent(sealed)] else w.events, anchors := after.anchors)
      && (Notarize(c, w, draft, ctx).1.Ok? ==> appends)
  {
    hide SessionRoot, SealedEvent, LastOf, Refused, StoredEvent, Checkpoint;
    var sealed := SealedEvent(c, draft, if LastEvent in ctx.down then None else LastOf(w.events, draft.sessionId));
    CheckpointKeepsTables(c, WithEvent(w, sealed), sealed.sessionId, ctx);
  }

  lemma RecordEvents(c: Suite, w: Ledger, req: ActionRequest, ctx: Context)
    ensures Record(c, w, req, ctx).0.events ==
      if Appends(c, w, req, ctx) then w.events + [NewEvent(c, w, req, ctx)] else w.events
    ensures Record(c, w, req, ctx).0.grants == w.grants && Record(c, w, req, ctx).0.revoked == w.revoked
    ensures Record(c, w, req, ctx).1.Ok? ==> Appends(c, w, req, ctx)
  {
    hide Authorized, SealedEvent, LastOf, Refused, Notarize, StoredEvent, RequestDraft, Linked;
    if Authorized(c, w, req, ctx).Ok? && Countable(w, req.sessionId) {
      NewEventFields(c, w, req, ctx);
      DraftSession(w, req, ctx);
      NotarizeTables(c, WithNextSequence(w, req.sessionId), RequestDraft(w, req, ctx), ctx);
    }
  }

  lemma DraftSession(w: Ledger, req: ActionRequest, ctx: Context)
    requires Countable(w, req.sessionId)
    ensures RequestDraft(w, req, ctx).sessionId == req.sessionId
  {
  }

  /** The other operations leave the events table alone. */
  lemma OthersKeepEvents(c: Suite, w: Ledger, op: Op)
    requires !op.OpRecord?
    ensures Apply(c, w, op).events == w.events
  {
    hide SessionRoot, RootGrant, ChildGrant, StoredGrant, PutRow;
  }

  lemma NewSequenceIsHighest(c: Suite, w: Ledger, req: ActionRequest, ctx: Context)
    requires Sound(c, w) && Countable(w, req.sessionId)
    ensures forall x :: x in w.events && x.sessionId == req.sessionId ==> x.sequence < NewEvent(c, w, req, ctx).sequence
  {
    hide Issued, KeysUnique, AnchorsSound, SessionsSound, ContentSealed, SignatureSealed, ChainAccepted, PrevIn,
         NewEvent;
    NewEventFields(c, w, req, ctx);
    forall x | x in w.events && x.sessionId == req.sessionId
      ensures x.sequence <= w.sessions[req.sessionId].eventCount
    {
      var i :| 0 <= i < |w.events| && w.events[i] == x;
      assert EventSound(c, w.grants, w.sessions, w.events[i]);
    }
  }

  /** Append-only: the session's log, ordered by sequence, only gains the new event at its end. */
  lemma RecordAppendsAtEnd(c: Suite, w: Ledger, req: ActionRequest, ctx: Context, sessionId: Bytes)
    requires Sound(c, w)
    ensures BySession(Record(c, w, req, ctx).0.events, sessionId) ==
      if Appends(c, w, req, ctx) && sessionId == req.sessionId
      then BySession(w.events, sessionId) + [NewEvent(c, w, req, ctx)]
      else BySession(w.events, sessionId)
  {
    hide Sound, Record, NewEvent, BySession, Authorized, Refused;
    RecordEvents(c, w, req, ctx);
    if Appends(c, w, req, ctx) {
      NewEventFields(c, w, req, ctx);
      NewSequenceIsHighest(c, w, req, ctx);
      BySessionAppends(w.events, NewEvent(c, w, req, ctx), sessionId);
    }
  }

  // The hash chain

  function Predecessor(log: seq<ActionEvent>, i: nat): Option<ActionEvent>
    requires i <= |log|
  {
    if i == 0 then None else Some(log[i - 1])
  }

  /** Every event passes `VerifyLink` against the one before it, the first against none. */
  ghost predicate ChainLinked(c: Suite, log: seq<ActionEvent>) {
    forall i :: 0 <= i < |log| ==> Linked(c, log[i], Predecessor(log, i))
  }

  ghost predicate HashChained(c: Suite, w: Ledger) {
    forall sessionId :: ChainLinked(c, BySession(w.events, sessionId))
  }

  lemma ChainLinkedGrows(c: Suite, log: seq<ActionEvent>, e: ActionEvent)
    requires ChainLinked(c, log)
    ensures ChainLinked(c, log + [e]) <==> Linked(c, e, Predecessor(log, |log|))
  {
    hide Linked;
    var longer := log + [e];
    assert longer[|log|] == e && Predecessor(longer, |log|) == Predecessor(log, |log|);
    forall i | 0 <= i < |log|
      ensures Linked(c, longer[i], Predecessor(longer, i))
    {
      assert longer[i] == log[i] && Predecessor(longer, i) == Predecessor(log, i);
    }
  }

  /**
   One recording keeps a linked log linked if and only if it appended nothing, or read the last
   event, or there was none to read, or that event's content hash is the zero hash.
   */
  lemma RecordLinksExactly(c: Suite, w: Ledger, req: ActionRequest, ctx: Context)
    requires Sound(c, w) && ChainLinked(c, BySession(w.events, req.sessionId))
    ensures ChainLinked(c, BySession(Record(c, w, req, ctx).0.events, req.sessionId)) <==>
      || !Appends(c, w, req, ctx)
      || LastEvent !in ctx.down
      || LastOf(w.events, req.sessionId).None?
      || LastOf(w.events, req.sessionId).value.contentHash == ZERO32
  {
    hide Sound, Record, NewEvent, BySession, Authorized, Refused, ContentSealed, SignatureSealed;
    var log := BySession(w.events, req.sessionId);
    RecordAppendsAtEnd(c, w, req, ctx, req.sessionId);
    if Appends(c, w, req, ctx) {
      NewEventFields(c, w, req, ctx);
      var e := NewEvent(c, w, req, ctx);
      ChainLinkedGrows(c, log, e);
    }
  }

  /** The read of the last event fails only when the session has none. */
  predicate LastReadable(w: Ledger, op: Op) {
    op.OpRecord? && LastEvent in op.ctx.down ==> LastOf(w.events, op.action.sessionId).None?
  }

  predicate AllLastReadable(c: Suite, w: Ledger, ops: seq<Op>) {
    |ops| > 0 ==>
      AllLastReadable(c, w, ops[..|ops| - 1]) && LastReadable(Run(c, w, ops[..|ops| - 1]), ops[|ops| - 1])
  }

  lemma ApplyKeepsHashChained(c: Suite, w: Ledger, op: Op)
    requires Sound(c, w) && HashChained(c, w) && LastReadable(w, op)
    ensures HashChained(c, Apply(c, w, op))
  {
    hide Sound, Record, Appends, NewEvent, BySession, ChainLinked, LastOf;
    if op.OpRecord? {
      forall sessionId
        ensures ChainLinked(c, BySession(Apply(c, w, op).events, sessionId))
      {
        RecordAppendsAtEnd(c, w, op.action, op.ctx, sessionId);
        if sessionId == op.action.sessionId {
          RecordLinksExactly(c, w, op.action, op.ctx);
        }
      }
    } else {
      OthersKeepEvents(c, w, op);
    }
  }

  /**
   The hash chain: in every run of non-overlapping operations whose reads of the last event
   fail only on empty sessions, every event of every session passes `VerifyLink` against its
   predecessor by sequence, lost sequence numbers and failed checkpoints notwithstanding.
   */
  lemma {:induction false} RunIsHashChained(c: Suite, ops: seq<Op>)
    requires FreshIds(c, EMPTY_LEDGER, ops) && AllLastReadable(c, EMPTY_LEDGER, ops)
    ensures HashChained(c, Run(c, EMPTY_LEDGER, ops))
  {
    hide Sound, Apply, HashChained, LastReadable;
    if |ops| == 0 {
      EmptyIsHashChained(c);
    } else {
      RunIsSound(c, ops[..|ops| - 1]);
      RunIsHashChained(c, ops[..|ops| - 1]);
      ApplyKeepsHashChained(c, Run(c, EMPTY_LEDGER, ops[..|ops| - 1]), ops[|ops| - 1]);
    }
  }

  lemma EmptyIsHashChained(c: Suite)
    ensures HashChained(c, EMPTY_LEDGER)
  {
  }

  /** One operation keeps every session's log as a prefix of the later one. */
  lemma ApplyAppends(c: Suite, w: Ledger, op: Op, sessionId: Bytes)
    requires Sound(c, w)
    ensures BySession(w.events, sessionId) <= BySession(Apply(c, w, op).events, sessionId)
  {
    hide Sound, Record, Appends, NewEvent, BySession;
    if op.OpRecord? {
      RecordAppendsAtEnd(c, w, op.action, op.ctx, sessionId);
    } else {
      OthersKeepEvents(c, w, op);
    }
  }

  /** Append-only over runs: every session's log is a prefix of its log after any run. */
  lemma {:induction false} RunAppends(c: Suite, w: Ledger, ops: seq<Op>, sessionId: Bytes)
    requires Sound(c, w) && FreshIds(c, w, ops)
    ensures Sound(c, Run(c, w, ops))
    ensures BySession(w.events, sessionId) <= BySession(Run(c, w, ops).events, sessionId)
  {
    hide Sound, Apply, BySession, FreshId;
    if |ops| > 0 {
      var before, op := Run(c, w, ops[..|ops| - 1]), ops[|ops| - 1];
      RunAppends(c, w, ops[..|ops| - 1], sessionId);
      ApplyKeepsSound(c, before, op);
      ApplyAppends(c, before, op, sessionId);
    }
  }

  /** Whether and when a session ended makes no difference to a recording, except that it stays so. */
  lemma EndingIsNotLookedAt(c: Suite, w: Ledger, sessionId: Bytes, endedAt: Option<int>, req: ActionRequest,
                            ctx: Context)
    requires sessionId in w.sessions
    ensures var other := WithSession(w, sessionId, w.sessions[sessionId].(endedAt := endedAt));
      var (after, r) := Record(c, w, req, ctx);
      && sessionId in after.sessions
      && Record(c, other, req, ctx) ==
           (WithSession(after, sessionId, after.sessions[sessionId].(endedAt := endedAt)), r)
  {
    hide ChainOf, ChainHolds, AnyRevoked, Allows, SealedEvent, LastOf, Refused, SessionRoot, StoredEvent;
    var other := WithSession(w, sessionId, w.sessions[sessionId].(endedAt := endedAt));
    assert Authorized(c, other, req, ctx) == Authorized(c, w, req, ctx);
    if Authorized(c, w, req, ctx).Ok? && NextSequence !in ctx.down && Countable(w, req.sessionId) {
      NumberedAlike(w, sessionId, endedAt, req.sessionId);
      NotarizeKeepsSessions(c, WithNextSequence(w, req.sessionId), WithNextSequence(other, req.sessionId),
                            RequestDraft(w, req, ctx), ctx);
    }
  }

  lemma NumberedAlike(w: Ledger, sessionId: Bytes, endedAt: Option<int>, counted: Bytes)
    requires sessionId in w.sessions && Countable(w, counted)
    ensures var other := WithSession(w, sessionId, w.sessions[sessionId].(endedAt := endedAt));
      var after := WithNextSequence(w, counted);
      && Countable(other, counted) && sessionId in after.sessions
      && WithNextSequence(other, counted) ==
           WithSession(after, sessionId, after.sessions[sessionId].(endedAt := endedAt))
  {
    var other := WithSession(w, sessionId, w.sessions[sessionId].(endedAt := endedAt));
    var after := WithNextSequence(w, counted);
    assert WithNextSequence(other, counted).sessions
        == WithSession(after, sessionId, after.sessions[sessionId].(endedAt := endedAt)).sessions;
  }

  /** Notarizing does not read the sessions. */
  lemma NotarizeKeepsSessions(c: Suite, w: Ledger, other: Ledger, draft: ActionEvent, ctx: Context)
    requires other == w.(sessions := other.sessions)
    ensures var (after, r) := Notarize(c, w, draft, ctx);
      after.sessions == w.sessions && Notarize(c, other, draft, ctx) == (after.(sessions := other.sessions), r)
  {
    hide SealedEvent, LastOf, Refused, SessionRoot, StoredEvent;
  }

  // What a successful operation leaves behind

  /**
   A recorded event is returned as it is stored: it is the last row of the table and of its
   session, it is found under its id, and it says what was requested of which session.
   */
  lemma RecordedEventIsStored(c: Suite, w: Ledger, req: ActionRequest, ctx: Context)
    requires Sound(c, w) && Record(c, w, req, ctx).1.Ok?
    ensures var (after, r) := Record(c, w, req, ctx);
      && after.events == w.events + [r.value]
      && FindEvent(after.events, ctx.newId) == Some(r.value)
      && LastOf(after.events, req.sessionId) == Some(r.value)
    ensures var e := Record(c, w, req, ctx).1.value;
      && req.sessionId in w.sessions
      && e.sequence == w.sessions[req.sessionId].eventCount + 1
      && e.surface == w.sessions[req.sessionId].surface
      && e.projectId == w.sessions[req.sessionId].projectId
      && e.grantId == req.grantId
      && e.actionType == req.actionType && e.actionPayload == req.actionPayload
      && e.preStateHash == req.preStateHash && e.postStateHash == req.postStateHash
      && e.recordingRef == req.recordingRef
      && e.occurredAt.Some? && ctx.recordedAt - 1000 < e.occurredAt.value <= ctx.recordedAt
      && e.occurredAt.value % 1000 == 0
  {
    hide Sound, Authorized, LastOf, BySession, SealedEvent, Refused, SessionRoot, StoredEvent, Linked;
    var (after, r) := Record(c, w, req, ctx);
    RecordReturnsNewEvent(c, w, req, ctx);
    RecordEvents(c, w, req, ctx);
    NewEventFields(c, w, req, ctx);
    RecordAppendsAtEnd(c, w, req, ctx, req.sessionId);
    var prev := if LastEvent in ctx.down then None else LastOf(w.events, req.sessionId);
    SealKeepsFields(c, RequestDraft(w, req, ctx), prev);
    FoundLast(after.events, r.value, req.sessionId);
  }

  lemma RecordReturnsNewEvent(c: Suite, w: Ledger, req: ActionRequest, ctx: Context)
    requires Record(c, w, req, ctx).1.Ok?
    ensures Countable(w, req.sessionId) && Record(c, w, req, ctx).1.value == NewEvent(c, w, req, ctx)
  {
    hide Authorized, LastOf, SealedEvent, Refused, SessionRoot, StoredEvent, RequestDraft;
    DraftSession(w, req, ctx);
  }

  lemma FoundLast(rows: seq<ActionEvent>, e: ActionEvent, sessionId: Bytes)
    requires |rows| > 0 && rows[|rows| - 1] == e
    requires |BySession(rows, sessionId)| > 0 && BySession(rows, sessionId)[|BySession(rows, sessionId)| - 1] == e
    ensures FindEvent(rows, e.eventId) == Some(e) && LastOf(rows, sessionId) == Some(e)
  {
    hide BySession;
  }

  /**
   A delegation is stored under its parent: the new grant's chain is the parent's chain and the
   grant, which names the requested subject and capabilities, and the parent was not revoked.
   */
  lemma DelegationExtendsChain(c: Suite, w: Ledger, req: DelegateRequest, ctx: Context)
    requires Sound(c, w) && ctx.newId != [] && FindGrant(w.grants, ctx.newId).None?
    requires Delegate(c, w, req, ctx).1.Ok?
    ensures var (after, r) := Delegate(c, w, req, ctx);
      && r.value.grantId == ctx.newId
      && r.value.subjectId == req.subjectId && r.value.capabilities == req.capabilities && r.value.scope == req.scope
      && req.parentGrantId !in w.revoked
      && ChainOf(after.grants, ctx.newId) == ChainOf(w.grants, req.parentGrantId) + [StoredGrant(r.value)]
      && FindGrant(after.grants, ctx.newId) == Some(StoredGrant(r.value))
  {
    hide EventsSound, AnchorsSound, SessionsSound, KeysUnique, Signature, Canon.GrantBytes, IssuedAfter, ChainOf,
         FindGrant;
    var child := Delegate(c, w, req, ctx).1.value;
    FoundGrantHasId(w.grants, req.parentGrantId);
    FoundGrantIsNotRootless(c, w.grants, req.parentGrantId);
    ChildGrantIssued(c, w.grants, req.parentGrantId, req, ctx.newId);
    GrantKeepsSound(c, w, child);
    ChainOfNewRow(c, w.grants, StoredGrant(child));
  }
}
