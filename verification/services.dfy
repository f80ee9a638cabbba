/**
 The services, call by call on their stores. Each method is proved to do to the stores, and to
 return, exactly what its operation specifies.
 */
module Services {
  import opened ByteStrings
  import opened Wrappers
  import opened Crypto
  import opened Records
  import opened Graph
  import opened Seal
  import opened GrantTable
  import opened EventTable
  import opened LedgerState
  import opened Operations
  import opened Stores
  import Canon
  import Merkle

  method ReadContentHashes(events: seq<ActionEvent>) returns (leaves: seq<Bytes>)
    ensures leaves == ContentHashes(events)
  {
    var filled := new Bytes[|events|](i => []);
    for i := 0 to |events|
      invariant filled[..i] == ContentHashes(events[..i])
    {
      filled[i] := events[i].contentHash;
      assert events[..i + 1][..i] == events[..i];
      assert filled[..i + 1] == filled[..i] + [events[i].contentHash];
    }
    assert events[..|events|] == events;
    return filled[..];
  }

  class NotaryCore {
    const c: Suite
    const events: EventStore
    const anchors: AnchorStore

    constructor (c: Suite, events: EventStore, anchors: AnchorStore)
      ensures this.c == c && this.events == events && this.anchors == anchors
    {
      this.c := c;
      this.events := events;
      this.anchors := anchors;
    }

    /** The parts of the state that the notary works on; the others are given. */
    ghost function State(rest: Ledger): Ledger
      reads events, anchors
    {
      rest.(events := events.rows, anchors := anchors.entries)
    }

    method Checkpoint(ghost rest: Ledger, sessionId: Bytes, ctx: Context) returns (r: Result<Anchor, Error>)
      modifies anchors
      ensures (State(rest), r) == Operations.Checkpoint(c, old(State(rest)), sessionId, ctx)
    {
      hide Merkle.RootOf, BySession, ContentHashes;
      var rows := events.OfSession(sessionId, ctx.down);
      if rows.Err? {
        return Err(rows.error);
      }
      var leaves := ReadContentHashes(rows.value);
      var root := Merkle.Root(c.hash, leaves);
      r := anchors.Put(sessionId, root, ctx.anchoredAt, ctx.down);
    }

    method Notarize(ghost rest: Ledger, draft: ActionEvent, ctx: Context) returns (r: Result<ActionEvent, Error>)
      modifies events, anchors
      ensures (State(rest), r) == Operations.Notarize(c, old(State(rest)), draft, ctx)
    {
      hide SealedEvent, LastOf, Refused, Operations.Checkpoint, StoredEvent;
      var last := events.Last(draft.sessionId, ctx.down);
      var prev := if last.Err? then None else Some(last.value);
      var sealed := Seal.Seal(c, draft, prev);
      var appended := events.Append(sealed, ctx.down);
      if appended.Err? {
        return Err(appended.error);
      }
      var anchored := Checkpoint(rest, sealed.sessionId, ctx);
      if anchored.Err? {
        return Err(anchored.error);
      }
      return Ok(sealed);
    }
  }

  class Capture {
    const c: Suite
    const sessions: SessionStore
    const grants: GrantStore
    const notary: NotaryCore

    constructor (c: Suite, sessions: SessionStore, grants: GrantStore, notary: NotaryCore)
      requires notary.c == c
      ensures this.c == c && this.sessions == sessions && this.grants == grants && this.notary == notary
    {
      this.c := c;
      this.sessions := sessions;
      this.grants := grants;
      this.notary := notary;
    }

    ghost function State(): Ledger
      reads sessions, grants, notary.events, notary.anchors
    {
      Ledger(grants.rows, grants.revocations, sessions.rows, notary.events.rows, notary.anchors.entries)
    }

    method BeginSession(rootGrantId: Bytes, surface: int32, ctx: Context) returns (r: Result<Session, Error>)
      modifies sessions
      ensures (State(), r) == Begin(old(State()), rootGrantId, surface, ctx)
    {
      var grant := grants.Get(rootGrantId, ctx.down);
      if grant.Err? {
        return Err(grant.error);
      }
      if !ctx.access {
        return Err(PermissionDenied);
      }
      var s := Session(ctx.newId, grant.value.projectId, rootGrantId, surface, ctx.recordedAt, None, 0);
      var created := sessions.Create(s, ctx.down);
      if created.Err? {
        return Err(created.error);
      }
      return Ok(s);
    }

    method EnsureNotRevoked(chain: seq<Grant>, down: set<Call>) returns (fault: Option<Error>)
      ensures |chain| == 0 ==> fault.None?
      ensures |chain| > 0 && IsRevoked in down ==> fault == Some(Internal)
      ensures IsRevoked !in down ==>
        fault == if AnyRevoked(grants.revocations, chain) then Some(PermissionDenied) else None
    {
      for i := 0 to |chain|
        invariant i > 0 ==> IsRevoked !in down
        invariant forall j :: 0 <= j < i ==> chain[j].grantId !in grants.revocations
      {
        var revoked := grants.IsRevoked(chain[i].grantId, down);
        if revoked.Err? {
          return Some(revoked.error);
        }
        if revoked.value {
          return Some(PermissionDenied);
        }
      }
      return None;
    }

    /** The reads and checks that come before anything is written. */
    method Authorize(req: ActionRequest, ctx: Context) returns (r: Result<Session, Error>)
      requires QueryEnds(grants.rows, req.grantId)
      ensures match Authorized(c, State(), req, ctx)
        case Ok(chain) => req.sessionId in sessions.rows && r == Ok(sessions.rows[req.sessionId])
        case Err(error) => r == Err(error)
    {
      hide QueryEnds, ChainOf, ChainHolds, ChainVerdict, Allows, AnyRevoked;
      var session := sessions.Get(req.sessionId, ctx.down);
      if session.Err? {
        return Err(session.error);
      }
      var chain := grants.Chain(req.grantId, ctx.down);
      if chain.Err? {
        return Err(chain.error);
      }
      if !ctx.access {
        return Err(PermissionDenied);
      }
      var leaf := chain.value[|chain.value| - 1];
      if session.value.projectId != leaf.projectId {
        return Err(PermissionDenied);
      }
      var fault := VerifyChain(c, NotaryVerifier(c), chain.value, ctx.checkedAt);
      ChainVerdictExact(c, NotaryVerifier(c), chain.value, ctx.checkedAt);
      if fault.Some? {
        return Err(PermissionDenied);
      }
      var revoked := EnsureNotRevoked(chain.value, ctx.down);
      if revoked.Some? {
        return Err(revoked.value);
      }
      var denied := Authorizes(leaf, req.actionType, req.resource, req.valueCents);
      if denied.Some? {
        return Err(PermissionDenied);
      }
      return session;
    }

    method RecordAction(req: ActionRequest, ctx: Context) returns (r: Result<ActionEvent, Error>)
      requires notary.c == c && QueryEnds(grants.rows, req.grantId)
      modifies sessions, notary.events, notary.anchors
      ensures (State(), r) == Record(c, old(State()), req, ctx)
    {
      hide QueryEnds, Authorized, Operations.Notarize;
      var session := Authorize(req, ctx);
      if session.Err? {
        return Err(session.error);
      }
      var sequence := sessions.NextSequence(req.sessionId, ctx.down);
      if sequence.Err? {
        return Err(sequence.error);
      }
      var draft := Draft(session.value, req, sequence.value, ctx.recordedAt, ctx.newId);
      r := notary.Notarize(State(), draft, ctx);
    }

    method EndSession(sessionId: Bytes, ctx: Context) returns (r: Result<Session, Error>)
      requires notary.c == c
      modifies sessions, notary.anchors
      ensures (State(), r) == End(c, old(State()), sessionId, ctx)
    {
      hide SessionRoot;
      var found := sessions.Get(sessionId, ctx.down);
      if found.Err? {
        return Err(found.error);
      }
      if !ctx.access {
        return Err(PermissionDenied);
      }
      var ended := sessions.End(sessionId, ctx.recordedAt, ctx.down);
      if ended.Err? {
        return Err(ended.error);
      }
      var anchored := notary.Checkpoint(State(), sessionId, ctx);
      if anchored.Err? {
        return Err(anchored.error);
      }
      return ended;
    }
  }

  class Delegation {
    const c: Suite
    const grants: GrantStore

    constructor (c: Suite, grants: GrantStore)
      ensures this.c == c && this.grants == grants
    {
      this.c := c;
      this.grants := grants;
    }

    ghost function State(rest: Ledger): Ledger
      reads grants
    {
      rest.(grants := grants.rows, revoked := grants.revocations)
    }

    method Sign(g: Grant) returns (signed: Grant)
      ensures signed == Signed(c, g)
    {
      var bytes := Canon.Grant(g);
      signed := g.(parentSignature := Signature(c, bytes));
    }

    method IssueRootGrant(ghost rest: Ledger, req: RootRequest, ctx: Context) returns (r: Result<Grant, Error>)
      modifies grants
      ensures (State(rest), r) == IssueRoot(c, old(State(rest)), req, ctx)
    {
      hide Signed, StoredGrant, PutRow;
      if !ctx.access {
        return Err(PermissionDenied);
      }
      var g := Sign(Grant(ctx.newId, req.projectId, [], req.principalId, req.principalId, [], req.scope, None, []));
      var put := grants.Put(g, ctx.down);
      if put.Err? {
        return Err(put.error);
      }
      return Ok(g);
    }

    method Delegate(ghost rest: Ledger, req: DelegateRequest, ctx: Context) returns (r: Result<Grant, Error>)
      modifies grants
      ensures (State(rest), r) == Operations.Delegate(c, old(State(rest)), req, ctx)
    {
      hide Signed, StoredGrant, PutRow, FindGrant;
      var parent := grants.Get(req.parentGrantId, ctx.down);
      if parent.Err? {
        return Err(parent.error);
      }
      if !ctx.access {
        return Err(PermissionDenied);
      }
      var revoked := grants.IsRevoked(parent.value.grantId, ctx.down);
      if revoked.Err? {
        return Err(revoked.error);
      }
      if revoked.value {
        return Err(FailedPrecondition);
      }
      var child := Sign(Grant(ctx.newId, parent.value.projectId, parent.value.grantId, parent.value.subjectId,
                              req.subjectId, req.capabilities, req.scope, None, []));
      var put := grants.Put(child, ctx.down);
      if put.Err? {
        return Err(put.error);
      }
      return Ok(child);
    }

    method Revoke(ghost rest: Ledger, grantId: Bytes, reason: Bytes, ctx: Context) returns (r: Result<bool, Error>)
      modifies grants
      ensures (State(rest), r) == Operations.Revoke(old(State(rest)), grantId, reason, ctx)
    {
      var grant := grants.Get(grantId, ctx.down);
      if grant.Err? {
        return Err(grant.error);
      }
      if !ctx.access {
        return Err(PermissionDenied);
      }
      r := grants.Revoke(grantId, reason, ctx.down);
    }
  }

  class LedgerService {
    const c: Suite
    const events: EventStore
    const grants: GrantStore
    const anchors: AnchorStore

    constructor (c: Suite, events: EventStore, grants: GrantStore, anchors: AnchorStore)
      ensures this.c == c && this.events == events && this.grants == grants && this.anchors == anchors
    {
      this.c := c;
      this.events := events;
      this.grants := grants;
      this.anchors := anchors;
    }

    ghost function State(): Ledger
      reads events, grants, anchors
    {
      Ledger(grants.rows, grants.revocations, map[], events.rows, anchors.entries)
    }

    method GetInclusionProof(eventId: Bytes, down: set<Call>) returns (r: Result<Proof, Error>)
      requires forall e :: e in events.rows && e.eventId == eventId ==> QueryEnds(grants.rows, e.grantId)
      ensures r == InclusionProof(c, State(), eventId, down)
    {
      hide QueryEnds, ChainOf, BySession, Merkle.RootOf, Merkle.PathOf, ContentHashes, FindEvent;
      var found := events.Get(eventId, down);
      if found.Err? {
        return Err(found.error);
      }
      var ev := found.value;
      FoundEventIsRow(events.rows, eventId);
      var rows := events.OfSession(ev.sessionId, down);
      if rows.Err? {
        return Err(rows.error);
      }
      var leaves := ReadContentHashes(rows.value);
      var index := WrapInt64(ev.sequence - 1);
      var root := Merkle.Root(c.hash, leaves);
      var path := Merkle.Path(c.hash, leaves, index);
      if path.Err? {
        return Err(Internal);
      }
      var anchor: Option<Anchor> := None;
      var a := anchors.Get(ev.sessionId, down);
      if a.Ok? {
        anchor := Some(a.value);
      }
      var chain: seq<Grant> := [];
      var g := grants.Chain(ev.grantId, down);
      if g.Ok? {
        chain := g.value;
      }
      return Ok(Proof(ev, path.value, root, anchor, chain));
    }
  }
}
