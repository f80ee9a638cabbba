/**
 The ledger's records. A timestamp is a number of nanoseconds since the Unix epoch, and a
 nil timestamp, scope or anchor is `None`.
 */
module Records {
  import opened ByteStrings
  import opened Wrappers

  datatype ActionEvent = ActionEvent(
    eventId: Bytes,
    projectId: Bytes,
    sessionId: Bytes,
    sequence: int64,
    surface: int32,
    actionType: Bytes,
    actionPayload: Bytes,
    grantId: Bytes,
    preStateHash: Bytes,
    postStateHash: Bytes,
    recordingRef: Bytes,
    occurredAt: Option<int>,
    contentHash: Bytes,
    prevHash: Bytes,
    notarySignature: Bytes)

  datatype Scope = Scope(resourceGlobs: seq<Bytes>, maxValueCents: int64, maxDepth: int32)

  const EMPTY_SCOPE := Scope([], 0, 0)

  datatype Grant = Grant(
    grantId: Bytes,
    projectId: Bytes,
    parentGrantId: Bytes,
    principalId: Bytes,
    subjectId: Bytes,
    capabilities: seq<Bytes>,
    scope: Option<Scope>,
    expiresAt: Option<int>,
    parentSignature: Bytes)
  {
    /** The scope read through the generated getters, which answer zero values on nil. */
    function GetScope(): Scope {
      if scope.Some? then scope.value else EMPTY_SCOPE
    }
  }

  datatype Session = Session(
    sessionId: Bytes,
    projectId: Bytes,
    rootGrantId: Bytes,
    surface: int32,
    startedAt: int,
    endedAt: Option<int>,
    eventCount: int64)

  datatype Anchor = Anchor(root: Bytes, anchoredAt: int)

  datatype Proof = Proof(
    event: ActionEvent,
    merklePath: seq<Bytes>,
    merkleRoot: Bytes,
    anchor: Option<Anchor>,
    delegationChain: seq<Grant>)

  /** `ts.AsTime().UnixNano()`, with 0 for nil: the nanoseconds in 64 bits. */
  function UnixNanos(ts: Option<int>): int64 {
    if ts.None? then 0 else WrapInt64(ts.value)
  }

  // What a timestamptz column keeps of a timestamp: whole microseconds.

  function StoredTime(ts: Option<int>): (stored: Option<int>)
    ensures stored.Some? <==> ts.Some?
    ensures ts.Some? ==> stored.value % 1000 == 0 && ts.value - 1000 < stored.value <= ts.value
  {
    if ts.None? then None else Some(ts.value - ts.value % 1000)
  }

  /** A grant as `Put` writes it and `buildGrant` reads it back. */
  function StoredGrant(g: Grant): Grant {
    g.(scope := Some(g.GetScope()), expiresAt := StoredTime(g.expiresAt))
  }

  /** A session as `Create` writes it and `sessionFromRow` reads it back. */
  function StoredSession(s: Session): Session {
    s.(startedAt := s.startedAt - s.startedAt % 1000, endedAt := StoredTime(s.endedAt))
  }

  /** An event as `Append` writes it and `eventFromRow` reads it back. */
  function StoredEvent(e: ActionEvent): ActionEvent {
    e.(occurredAt := StoredTime(e.occurredAt))
  }
}
