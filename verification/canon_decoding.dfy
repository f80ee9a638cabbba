/**
 What the canonical encoding determines. A parser reads back exactly what an encoding
 holds: every canonical field of an event, and of a grant everything except the border
 between its capabilities and its resource globs.
 */
module CanonDecoding {
  import opened ByteStrings
  import opened Wrappers
  import opened Records
  import opened Canon

  // The parser

  datatype Read<T> = Read(value: T, rest: Bytes)

  function ReadField(b: Bytes): Option<Read<Bytes>> {
    if |b| < 4 then None
    else
      var n := FromBigEndian32(b[..4]);
      if |b| < 4 + n then None else Some(Read(b[4..4 + n], b[4 + n..]))
  }

  function ReadInt32(b: Bytes): Option<Read<int32>> {
    if |b| < 4 then None else Some(Read(WrapInt32(FromBigEndian32(b[..4])), b[4..]))
  }

  function ReadInt64(b: Bytes): Option<Read<int64>> {
    if |b| < 8 then None else Some(Read(WrapInt64(FromBigEndian64(b[..8])), b[8..]))
  }

  lemma ReadFieldBack(p: Bytes, rest: Bytes)
    requires |p| < TWO_32
    ensures ReadField(Field(p) + rest) == Some(Read(p, rest))
  {
    var b := Field(p) + rest;
    assert b[..4] == BigEndian32(|p|);
    BigEndian32RoundTrip(|p|);
    assert b[4..4 + |p|] == p && b[4 + |p|..] == rest;
  }

  lemma ReadInt32Back(v: int32, rest: Bytes)
    ensures ReadInt32(Int32Bytes(v) + rest) == Some(Read(v, rest))
  {
    hide BigEndian32, FromBigEndian32, WrapInt32;
    var b := Int32Bytes(v) + rest;
    WrapUndoesUnsigned(0, v);
    assert b[..4] == Int32Bytes(v) && b[4..] == rest;
    BigEndian32RoundTrip(v % TWO_32);
  }

  lemma ReadInt64Back(v: int64, rest: Bytes)
    ensures ReadInt64(Int64Bytes(v) + rest) == Some(Read(v, rest))
  {
    hide BigEndian64, FromBigEndian64, WrapInt64;
    var b := Int64Bytes(v) + rest;
    WrapUndoesUnsigned(v, 0);
    assert b[..8] == Int64Bytes(v) && b[8..] == rest;
    BigEndian64RoundTrip(v % TWO_64);
  }

  // Events

  /** What an event's content hash covers. */
  datatype EventCore = EventCore(
    eventId: Bytes,
    sessionId: Bytes,
    sequence: int64,
    surface: int32,
    actionType: Bytes,
    actionPayload: Bytes,
    grantId: Bytes,
    preStateHash: Bytes,
    postStateHash: Bytes,
    recordingRef: Bytes,
    occurredAtNanos: int64)

  function CoreOf(e: ActionEvent): EventCore {
    EventCore(e.eventId, e.sessionId, e.sequence, e.surface, e.actionType, e.actionPayload, e.grantId,
              e.preStateHash, e.postStateHash, e.recordingRef, UnixNanos(e.occurredAt))
  }

  /** Every variable-length field has a length that fits the 32-bit prefix. */
  predicate Sized(e: ActionEvent) {
    && |e.eventId| < TWO_32 && |e.sessionId| < TWO_32
    && |e.actionType| < TWO_32 && |e.actionPayload| < TWO_32 && |e.grantId| < TWO_32
    && |e.preStateHash| < TWO_32 && |e.postStateHash| < TWO_32 && |e.recordingRef| < TWO_32
  }

  datatype EventTailCore = EventTailCore(
    actionType: Bytes,
    actionPayload: Bytes,
    grantId: Bytes,
    preStateHash: Bytes,
    postStateHash: Bytes,
    recordingRef: Bytes,
    occurredAtNanos: int64)

  function ParseEventTail(b: Bytes): Option<EventTailCore> {
    var actionType :- ReadField(b);
    var payload :- ReadField(actionType.rest);
    var grantId :- ReadField(payload.rest);
    var pre :- ReadField(grantId.rest);
    var post :- ReadField(pre.rest);
    var recording :- ReadField(post.rest);
    var nanos :- ReadInt64(recording.rest);
    if nanos.rest != [] then None
    else Some(EventTailCore(actionType.value, payload.value, grantId.value, pre.value, post.value,
                            recording.value, nanos.value))
  }

  function ParseEvent(b: Bytes): Option<EventCore> {
    var eventId :- ReadField(b);
    var sessionId :- ReadField(eventId.rest);
    var sequence :- ReadInt64(sessionId.rest);
    var surface :- ReadInt32(sequence.rest);
    var t :- ParseEventTail(surface.rest);
    Some(EventCore(eventId.value, sessionId.value, sequence.value, surface.value, t.actionType, t.actionPayload,
                   t.grantId, t.preStateHash, t.postStateHash, t.recordingRef, t.occurredAtNanos))
  }

  lemma ParseEventTailBack(e: ActionEvent)
    requires Sized(e)
    ensures ParseEventTail(EventTail(e)) == Some(EventTailCore(
      e.actionType, e.actionPayload, e.grantId, e.preStateHash, e.postStateHash, e.recordingRef,
      UnixNanos(e.occurredAt)))
  {
    hide ReadField, ReadInt64, Field, Int64Bytes;
    var nanos := Int64Bytes(UnixNanos(e.occurredAt));
    var recording := Field(e.recordingRef) + nanos;
    var post := Field(e.postStateHash) + recording;
    var pre := Field(e.preStateHash) + post;
    var grant := Field(e.grantId) + pre;
    ReadFieldBack(e.actionType, Field(e.actionPayload) + grant);
    ReadFieldBack(e.actionPayload, grant);
    ReadFieldBack(e.grantId, pre);
    ReadFieldBack(e.preStateHash, post);
    ReadFieldBack(e.postStateHash, recording);
    ReadFieldBack(e.recordingRef, nanos);
    ReadInt64Back(UnixNanos(e.occurredAt), []);
    assert nanos + [] == nanos;
  }

  /** The parser inverts the encoding of every event whose lengths fit their prefixes. */
  lemma ParseEventBack(e: ActionEvent)
    requires Sized(e)
    ensures ParseEvent(EventBytes(e)) == Some(CoreOf(e))
  {
    hide ReadField, ReadInt32, ReadInt64, Field, Int32Bytes, Int64Bytes, EventTail, ParseEventTail;
    var surface := Int32Bytes(e.surface) + EventTail(e);
    var sequence := Int64Bytes(e.sequence) + surface;
    ReadFieldBack(e.eventId, Field(e.sessionId) + sequence);
    ReadFieldBack(e.sessionId, sequence);
    ReadInt64Back(e.sequence, surface);
    ReadInt32Back(e.surface, EventTail(e));
    ParseEventTailBack(e);
  }

  /** Unique decoding: two events have the same bytes exactly when they have the same core. */
  lemma EventBytesDetermineCore(e: ActionEvent, f: ActionEvent)
    requires Sized(e) && Sized(f)
    ensures EventBytes(e) == EventBytes(f) <==> CoreOf(e) == CoreOf(f)
  {
    hide ParseEvent, Field, Int32Bytes, Int64Bytes;
    ParseEventBack(e);
    ParseEventBack(f);
  }

  /**
   The length bound is needed: a 2^32-byte event id is written with the prefix 0, and its
   bytes can be read as an empty event id followed by a longer session id.
   */
  lemma LongFieldsAreAmbiguous(e: ActionEvent, x: Bytes, s: Bytes)
    requires |x| == TWO_32 - 4 && |s| < TWO_32
    ensures var f := e.(eventId := BigEndian32(|s|) + x, sessionId := s);
      var g := e.(eventId := [], sessionId := x + Field(s));
      EventBytes(f) == EventBytes(g) && f.eventId != g.eventId
  {
    hide EventTail, Int32Bytes, Int64Bytes;
    var tail := Int64Bytes(e.sequence) + (Int32Bytes(e.surface) + EventTail(e));
    LongFieldsOverlap(x, s, tail);
    EventTailKeepsIds(e, BigEndian32(|s|) + x, s);
    EventTailKeepsIds(e, [], x + Field(s));
  }

  lemma LongFieldsOverlap(x: Bytes, s: Bytes, tail: Bytes)
    requires |x| == TWO_32 - 4 && |s| < TWO_32
    ensures Field(BigEndian32(|s|) + x) + (Field(s) + tail) == Field([]) + (Field(x + Field(s)) + tail)
  {
    hide BigEndian32;
    var n, zero := BigEndian32(|s|), BigEndian32(0);
    assert Field(n + x) == zero + (n + x);
    assert Field([]) == zero;
    assert Field(x + Field(s)) == n + (x + Field(s));
    assert (zero + (n + x)) + (Field(s) + tail) == zero + ((n + (x + Field(s))) + tail);
  }

  lemma EventTailKeepsIds(e: ActionEvent, eventId: Bytes, sessionId: Bytes)
    ensures EventTail(e.(eventId := eventId, sessionId := sessionId)) == EventTail(e)
  {
  }

  // Grants

  /** What a grant's signature covers: the two lists count only as one. */
  datatype GrantKernel = GrantKernel(
    grantId: Bytes,
    parentGrantId: Bytes,
    principalId: Bytes,
    subjectId: Bytes,
    names: seq<Bytes>,
    maxValueCents: int64,
    maxDepth: int32,
    expiresAtNanos: int64)

  function KernelOf(g: Grant): GrantKernel {
    GrantKernel(g.grantId, g.parentGrantId, g.principalId, g.subjectId, g.capabilities + g.GetScope().resourceGlobs,
                g.GetScope().maxValueCents, g.GetScope().maxDepth, UnixNanos(g.expiresAt))
  }

  predicate SizedNames(names: seq<Bytes>) {
    forall i :: 0 <= i < |names| ==> |names[i]| < TWO_32
  }

  predicate SizedGrant(g: Grant) {
    && |g.grantId| < TWO_32 && |g.parentGrantId| < TWO_32
    && |g.principalId| < TWO_32 && |g.subjectId| < TWO_32
    && SizedNames(g.capabilities + g.GetScope().resourceGlobs)
  }

  /** Reads fields until the 20 bytes of the limits are left. */
  function ReadNames(b: Bytes): Option<Read<seq<Bytes>>>
    decreases |b|
  {
    if |b| < 20 then None
    else if |b| == 20 then Some(Read([], b))
    else
      var first :- ReadField(b);
      var others :- ReadNames(first.rest);
      Some(Read([first.value] + others.value, others.rest))
  }

  datatype Limits = Limits(maxValueCents: int64, maxDepth: int32, expiresAtNanos: int64)

  function ParseLimits(b: Bytes): Option<Limits> {
    var maxValue :- ReadInt64(b);
    var maxDepth :- ReadInt32(maxValue.rest);
    var nanos :- ReadInt64(maxDepth.rest);
    if nanos.rest != [] then None else Some(Limits(maxValue.value, maxDepth.value, nanos.value))
  }

  function ParseGrant(b: Bytes): Option<GrantKernel> {
    var grantId :- ReadField(b);
    var parentId :- ReadField(grantId.rest);
    var principal :- ReadField(parentId.rest);
    var subject :- ReadField(principal.rest);
    var names :- ReadNames(subject.rest);
    var limits :- ParseLimits(names.rest);
    Some(GrantKernel(grantId.value, parentId.value, principal.value, subject.value, names.value,
                     limits.maxValueCents, limits.maxDepth, limits.expiresAtNanos))
  }

  lemma {:induction false} ReadNamesBack(names: seq<Bytes>, tail: Bytes)
    requires SizedNames(names) && |tail| == 20
    ensures ReadNames(Fields(names) + tail) == Some(Read(names, tail))
  {
    if |names| == 0 {
      assert Fields(names) + tail == tail;
    } else {
      var rest := Fields(names[1..]) + tail;
      ReadNamesBack(names[1..], tail);
      ReadFieldBack(names[0], rest);
      ConcatAssociates(Field(names[0]), Fields(names[1..]), tail);
      assert Fields(names) + tail == Field(names[0]) + rest;
      assert [names[0]] + names[1..] == names;
    }
  }

  lemma ParseLimitsBack(g: Grant)
    ensures ParseLimits(LimitBytes(g))
         == Some(Limits(g.GetScope().maxValueCents, g.GetScope().maxDepth, UnixNanos(g.expiresAt)))
  {
    hide ReadInt32, ReadInt64, Int32Bytes, Int64Bytes;
    var nanos := Int64Bytes(UnixNanos(g.expiresAt));
    ReadInt64Back(g.GetScope().maxValueCents, Int32Bytes(g.GetScope().maxDepth) + nanos);
    ReadInt32Back(g.GetScope().maxDepth, nanos);
    ReadInt64Back(UnixNanos(g.expiresAt), []);
    assert nanos + [] == nanos;
  }

  lemma ParseGrantBack(g: Grant)
    requires SizedGrant(g)
    ensures ParseGrant(GrantBytes(g)) == Some(KernelOf(g))
  {
    hide ReadField, ReadNames, ParseLimits, Field, Fields, LimitBytes;
    var names := Fields(g.capabilities + g.GetScope().resourceGlobs) + LimitBytes(g);
    var subject := Field(g.subjectId) + names;
    var principal := Field(g.principalId) + subject;
    ReadFieldBack(g.grantId, Field(g.parentGrantId) + principal);
    ReadFieldBack(g.parentGrantId, principal);
    ReadFieldBack(g.principalId, subject);
    ReadFieldBack(g.subjectId, names);
    ReadNamesBack(g.capabilities + g.GetScope().resourceGlobs, LimitBytes(g));
    ParseLimitsBack(g);
  }

  /**
   The exact kernel of the grant encoding: same bytes if and only if same four ids, same
   concatenation of capabilities and globs, same limits and same expiry nanoseconds.
   */
  lemma GrantBytesDetermineKernel(g: Grant, k: Grant)
    requires SizedGrant(g) && SizedGrant(k)
    ensures GrantBytes(g) == GrantBytes(k) <==> KernelOf(g) == KernelOf(k)
  {
    hide ParseGrant, Field, Fields, Int32Bytes, Int64Bytes;
    ParseGrantBack(g);
    ParseGrantBack(k);
  }

  // The store

  lemma StoredTimeKeepsNanos(ts: Option<int>)
    ensures UnixNanos(StoredTime(ts)) == UnixNanos(ts) <==> ts.None? || ts.value % 1000 == 0
  {
    if ts.Some? && UnixNanos(StoredTime(ts)) == UnixNanos(ts) {
      var t, u := ts.value, ts.value - ts.value % 1000;
      assert t % TWO_64 == u % TWO_64;
      assert t - u == (t / TWO_64 - u / TWO_64) * TWO_64;
    }
  }

  /**
   Reading an event back from its row gives the same canonical bytes exactly when the event
   happened at a whole microsecond; `RecordAction` truncates its clock to that.
   */
  lemma StoreKeepsEventBytes(e: ActionEvent)
    requires Sized(e)
    ensures EventBytes(StoredEvent(e)) == EventBytes(e)
       <==> e.occurredAt.None? || e.occurredAt.value % 1000 == 0
  {
    hide EventBytes;
    StoredTimeKeepsNanos(e.occurredAt);
    EventBytesDetermineCore(StoredEvent(e), e);
  }

  /** The same for a grant and its expiry; a grant without expiry always keeps its bytes. */
  lemma StoreKeepsGrantBytes(g: Grant)
    requires SizedGrant(g)
    ensures GrantBytes(StoredGrant(g)) == GrantBytes(g)
       <==> g.expiresAt.None? || g.expiresAt.value % 1000 == 0
  {
    hide GrantBytes;
    StoredTimeKeepsNanos(g.expiresAt);
    assert StoredGrant(g).GetScope() == g.GetScope();
    GrantBytesDetermineKernel(StoredGrant(g), g);
  }
}
