/**
 The canonical bytes place by place: where each field starts, how long it is, and what its bytes
 are worth. An encoding is the only byte string with its layout.
 */
module CanonLayout {
  import opened ByteStrings
  import opened Wrappers
  import opened Records
  import Canon

  /** The number that bytes stand for, the most significant first. */
  function Value(b: Bytes): int {
    if |b| == 0 then 0 else 256 * Value(b[..|b| - 1]) + b[|b| - 1]
  }

  /** At a place: four bytes worth the length modulo 2^32, and the bytes of the field. */
  predicate FieldAt(b: Bytes, at: nat, p: Bytes) {
    && at + 4 + |p| <= |b|
    && Value(b[at..at + 4]) == |p| % 0x1_0000_0000
    && b[at + 4..at + 4 + |p|] == p
  }

  /** At a place: eight bytes worth the number modulo 2^64. */
  predicate Int64At(b: Bytes, at: nat, v: int) {
    at + 8 <= |b| && Value(b[at..at + 8]) == v % 0x1_0000_0000_0000_0000
  }

  /** At a place: four bytes worth the number modulo 2^32. */
  predicate Int32At(b: Bytes, at: nat, v: int) {
    at + 4 <= |b| && Value(b[at..at + 4]) == v % 0x1_0000_0000
  }

  /** The fields of an event in order, each straight after the one before. */
  predicate EventLayout(b: Bytes, e: ActionEvent) {
    var sessionAt := 4 + |e.eventId|;
    var sequenceAt := sessionAt + 4 + |e.sessionId|;
    && FieldAt(b, 0, e.eventId)
    && FieldAt(b, sessionAt, e.sessionId)
    && Int64At(b, sequenceAt, e.sequence)
    && Int32At(b, sequenceAt + 8, e.surface)
    && EventTailLayout(b, sequenceAt + 12, e)
  }

  /** From the action type on; the last eight bytes are the time in nanoseconds, or zero for none. */
  predicate EventTailLayout(b: Bytes, typeAt: nat, e: ActionEvent) {
    var payloadAt := typeAt + 4 + |e.actionType|;
    var grantAt := payloadAt + 4 + |e.actionPayload|;
    var preAt := grantAt + 4 + |e.grantId|;
    var postAt := preAt + 4 + |e.preStateHash|;
    var recordingAt := postAt + 4 + |e.postStateHash|;
    var timeAt := recordingAt + 4 + |e.recordingRef|;
    && |b| == timeAt + 8
    && FieldAt(b, typeAt, e.actionType)
    && FieldAt(b, payloadAt, e.actionPayload)
    && FieldAt(b, grantAt, e.grantId)
    && FieldAt(b, preAt, e.preStateHash)
    && FieldAt(b, postAt, e.postStateHash)
    && FieldAt(b, recordingAt, e.recordingRef)
    && Int64At(b, timeAt, if e.occurredAt.None? then 0 else e.occurredAt.value)
  }

  /** Names one straight after the other, up to a place. */
  predicate NamesAt(b: Bytes, at: nat, names: seq<Bytes>, end: nat)
    decreases |names|
  {
    if |names| == 0 then at == end
    else FieldAt(b, at, names[0]) && NamesAt(b, at + 4 + |names[0]|, names[1..], end)
  }

  function NamesLength(names: seq<Bytes>): nat {
    if |names| == 0 then 0 else 4 + |names[0]| + NamesLength(names[1..])
  }

  /** The ids of a grant and then its names and limits. */
  predicate GrantLayout(b: Bytes, g: Grant) {
    var parentAt := 4 + |g.grantId|;
    var principalAt := parentAt + 4 + |g.parentGrantId|;
    var subjectAt := principalAt + 4 + |g.principalId|;
    && FieldAt(b, 0, g.grantId)
    && FieldAt(b, parentAt, g.parentGrantId)
    && FieldAt(b, principalAt, g.principalId)
    && FieldAt(b, subjectAt, g.subjectId)
    && LimitsLayout(b, subjectAt + 4 + |g.subjectId|, g)
  }

  /** The capabilities, then the globs, and the limits with the expiry in the last 20 bytes. */
  predicate LimitsLayout(b: Bytes, namesAt: nat, g: Grant) {
    var names := g.capabilities + if g.scope.None? then [] else g.scope.value.resourceGlobs;
    var limitsAt := namesAt + NamesLength(names);
    && |b| == limitsAt + 20
    && NamesAt(b, namesAt, names, limitsAt)
    && Int64At(b, limitsAt, if g.scope.None? then 0 else g.scope.value.maxValueCents)
    && Int32At(b, limitsAt + 8, if g.scope.None? then 0 else g.scope.value.maxDepth)
    && Int64At(b, limitsAt + 12, if g.expiresAt.None? then 0 else g.expiresAt.value)
  }

  // Values

  lemma {:induction false} ValueBounds(b: Bytes, c: Bytes)
    requires |b| == |c| && Value(b) == Value(c)
    ensures b == c
  {
    if |b| > 0 {
      ValueBounds(b[..|b| - 1], c[..|b| - 1]);
      assert b == b[..|b| - 1] + [b[|b| - 1]] && c == c[..|b| - 1] + [c[|b| - 1]];
    }
  }

  lemma ValueNext(b: Bytes, x: byte)
    ensures Value(b + [x]) == 256 * Value(b) + x
  {
    assert (b + [x])[..|b|] == b;
  }

  /** Four more bytes, by their weights. */
  lemma ValueOfFourMore(b: Bytes, c: Bytes)
    requires |c| == 4
    ensures Value(b + c) == 0x1_0000_0000 * Value(b) + FromBigEndian32(c)
  {
    hide Value;
    ValueNext(b, c[0]);
    ValueNext(b + [c[0]], c[1]);
    ValueNext(b + [c[0]] + [c[1]], c[2]);
    ValueNext(b + [c[0]] + [c[1]] + [c[2]], c[3]);
    assert b + c == b + [c[0]] + [c[1]] + [c[2]] + [c[3]];
  }

  lemma ValueOfNone()
    ensures Value([]) == 0
  {
  }

  lemma Value32(v: int)
    requires 0 <= v < TWO_32
    ensures Value(BigEndian32(v)) == v
  {
    hide Value, FromBigEndian32, BigEndian32;
    ValueOfFourMore([], BigEndian32(v));
    ValueOfNone();
    assert [] + BigEndian32(v) == BigEndian32(v);
    BigEndian32RoundTrip(v);
  }

  lemma Value64(v: int)
    requires 0 <= v < TWO_64
    ensures Value(BigEndian64(v)) == v
  {
    hide Value, BigEndian32, FromBigEndian32;
    ValueOfFourMore(BigEndian32(v / TWO_32), BigEndian32(v % TWO_32));
    Value32(v / TWO_32);
    BigEndian32RoundTrip(v % TWO_32);
  }

  // One part at a time

  /** What stands at a place is the field exactly when the rest starts with its bytes. */
  lemma FieldAtExact(b: Bytes, at: nat, p: Bytes)
    requires at + 4 + |p| <= |b|
    ensures FieldAt(b, at, p) <==> b[at..] == Canon.Field(p) + b[at + 4 + |p|..]
  {
    hide Value, BigEndian32;
    var size := BigEndian32(|p| % TWO_32);
    Value32(|p| % TWO_32);
    assert b[at..] == b[at..at + 4] + (b[at + 4..at + 4 + |p|] + b[at + 4 + |p|..]);
    assert Canon.Field(p) + b[at + 4 + |p|..] == size + (p + b[at + 4 + |p|..]);
    if FieldAt(b, at, p) {
      ValueBounds(b[at..at + 4], size);
    }
    if b[at..] == Canon.Field(p) + b[at + 4 + |p|..] {
      assert b[at..at + 4] == b[at..][..4] == size;
      assert b[at + 4..at + 4 + |p|] == b[at..][4..4 + |p|] == p;
    }
  }

  lemma Int32AtExact(b: Bytes, at: nat, v: int32)
    requires at + 4 <= |b|
    ensures Int32At(b, at, v) <==> b[at..] == Canon.Int32Bytes(v) + b[at + 4..]
  {
    hide Value, BigEndian32;
    Value32(v % TWO_32);
    assert b[at..] == b[at..at + 4] + b[at + 4..];
    if Int32At(b, at, v) {
      ValueBounds(b[at..at + 4], Canon.Int32Bytes(v));
    }
    if b[at..] == Canon.Int32Bytes(v) + b[at + 4..] {
      assert b[at..at + 4] == b[at..][..4] == Canon.Int32Bytes(v);
    }
  }

  lemma Int64AtExact(b: Bytes, at: nat, v: int64)
    requires at + 8 <= |b|
    ensures Int64At(b, at, v) <==> b[at..] == Canon.Int64Bytes(v) + b[at + 8..]
  {
    hide Value, BigEndian64;
    Value64(v % TWO_64);
    assert b[at..] == b[at..at + 8] + b[at + 8..];
    if Int64At(b, at, v) {
      ValueBounds(b[at..at + 8], Canon.Int64Bytes(v));
    }
    if b[at..] == Canon.Int64Bytes(v) + b[at + 8..] {
      assert b[at..at + 8] == b[at..][..8] == Canon.Int64Bytes(v);
    }
  }

  /** A time is worth its nanoseconds modulo 2^64, and nothing when there is none. */
  lemma TimeAt(b: Bytes, at: nat, ts: Option<int>)
    ensures Int64At(b, at, UnixNanos(ts)) <==> Int64At(b, at, if ts.None? then 0 else ts.value)
  {
    if ts.Some? {
      WrapKeepsRemainder(ts.value);
    }
  }

  lemma WrapKeepsRemainder(x: int)
    ensures WrapInt64(x) % 0x1_0000_0000_0000_0000 == x % 0x1_0000_0000_0000_0000
  {
  }

  /** What is left after a part. */
  lemma Peel(b: Bytes, at: nat, part: Bytes, rest: Bytes)
    requires at + |part| <= |b|
    ensures b[at..] == part + rest <==> b[at..] == part + b[at + |part|..] && b[at + |part|..] == rest
  {
    if b[at..] == part + rest {
      assert b[at + |part|..] == b[at..][|part|..] == rest;
    }
  }

  lemma FieldThen(b: Bytes, at: nat, p: Bytes, rest: Bytes)
    requires at <= |b| && |b| == at + 4 + |p| + |rest|
    ensures b[at..] == Canon.Field(p) + rest <==> FieldAt(b, at, p) && b[at + 4 + |p|..] == rest
  {
    hide FieldAt, BigEndian32;
    FieldAtExact(b, at, p);
    Peel(b, at, Canon.Field(p), rest);
  }

  lemma Int64Then(b: Bytes, at: nat, v: int64, rest: Bytes)
    requires at <= |b| && |b| == at + 8 + |rest|
    ensures b[at..] == Canon.Int64Bytes(v) + rest <==> Int64At(b, at, v) && b[at + 8..] == rest
  {
    hide Int64At, Canon.Int64Bytes;
    Int64AtExact(b, at, v);
    Peel(b, at, Canon.Int64Bytes(v), rest);
  }

  lemma Int32Then(b: Bytes, at: nat, v: int32, rest: Bytes)
    requires at <= |b| && |b| == at + 4 + |rest|
    ensures b[at..] == Canon.Int32Bytes(v) + rest <==> Int32At(b, at, v) && b[at + 4..] == rest
  {
    hide Int32At, Canon.Int32Bytes;
    Int32AtExact(b, at, v);
    Peel(b, at, Canon.Int32Bytes(v), rest);
  }

  // Events

  lemma FieldLength(p: Bytes)
    ensures |Canon.Field(p)| == 4 + |p|
  {
  }

  lemma TailParts(e: ActionEvent)
    ensures Canon.EventTail(e) ==
      Canon.Field(e.actionType) + (Canon.Field(e.actionPayload) + (Canon.Field(e.grantId) +
      (Canon.Field(e.preStateHash) + (Canon.Field(e.postStateHash) + (Canon.Field(e.recordingRef) +
      Canon.Int64Bytes(UnixNanos(e.occurredAt)))))))
    ensures |Canon.EventTail(e)| == 32 + |e.actionType| + |e.actionPayload| + |e.grantId| + |e.preStateHash|
                                  + |e.postStateHash| + |e.recordingRef|
  {
    hide Canon.Field, Canon.Int64Bytes, UnixNanos;
    FieldLength(e.actionType);
    FieldLength(e.actionPayload);
    FieldLength(e.grantId);
    FieldLength(e.preStateHash);
    FieldLength(e.postStateHash);
    FieldLength(e.recordingRef);
  }

  /** The bytes from the action type on have their layout, and nothing else has. */
  lemma EventTailLayoutExact(b: Bytes, at: nat, e: ActionEvent)
    requires at <= |b|
    ensures EventTailLayout(b, at, e) <==> b[at..] == Canon.EventTail(e)
  {
    hide FieldAt, Int64At, Canon.Field, Canon.Int64Bytes, Canon.EventTail, UnixNanos;
    var time := Canon.Int64Bytes(UnixNanos(e.occurredAt));
    var recording := Canon.Field(e.recordingRef) + time;
    var post := Canon.Field(e.postStateHash) + recording;
    var pre := Canon.Field(e.preStateHash) + post;
    var grant := Canon.Field(e.grantId) + pre;
    var payload := Canon.Field(e.actionPayload) + grant;
    FieldLength(e.actionType);
    FieldLength(e.actionPayload);
    FieldLength(e.grantId);
    FieldLength(e.preStateHash);
    FieldLength(e.postStateHash);
    FieldLength(e.recordingRef);
    var payloadAt := at + 4 + |e.actionType|;
    var grantAt := payloadAt + 4 + |e.actionPayload|;
    var preAt := grantAt + 4 + |e.grantId|;
    var postAt := preAt + 4 + |e.preStateHash|;
    var recordingAt := postAt + 4 + |e.postStateHash|;
    var timeAt := recordingAt + 4 + |e.recordingRef|;
    TailParts(e);
    if |b| == timeAt + 8 {
      FieldThen(b, at, e.actionType, payload);
      FieldThen(b, payloadAt, e.actionPayload, grant);
      FieldThen(b, grantAt, e.grantId, pre);
      FieldThen(b, preAt, e.preStateHash, post);
      FieldThen(b, postAt, e.postStateHash, recording);
      FieldThen(b, recordingAt, e.recordingRef, time);
      LastEight(b, timeAt, UnixNanos(e.occurredAt));
      TimeAt(b, timeAt, e.occurredAt);
    }
  }

  lemma LastEight(b: Bytes, at: nat, v: int64)
    requires |b| == at + 8
    ensures Int64At(b, at, v) <==> b[at..] == Canon.Int64Bytes(v)
  {
    hide Int64At, Canon.Int64Bytes;
    Int64Then(b, at, v, []);
    assert Canon.Int64Bytes(v) + [] == Canon.Int64Bytes(v);
  }

  /** The bytes of an event have its layout, and nothing else has. */
  lemma EventLayoutExact(b: Bytes, e: ActionEvent)
    ensures EventLayout(b, e) <==> b == Canon.EventBytes(e)
  {
    hide FieldAt, Int32At, Int64At, EventTailLayout, Canon.Field, Canon.Int32Bytes, Canon.Int64Bytes, Canon.EventTail;
    var tail := Canon.EventTail(e);
    var surface := Canon.Int32Bytes(e.surface) + tail;
    var sequence := Canon.Int64Bytes(e.sequence) + surface;
    var session := Canon.Field(e.sessionId) + sequence;
    FieldLength(e.eventId);
    FieldLength(e.sessionId);
    var sessionAt := 4 + |e.eventId|;
    var sequenceAt := sessionAt + 4 + |e.sessionId|;
    assert Canon.EventBytes(e) == Canon.Field(e.eventId) + session;
    assert b[0..] == b;
    if sequenceAt + 12 <= |b| {
      EventTailLayoutExact(b, sequenceAt + 12, e);
      TailLayoutLength(b, sequenceAt + 12, e);
      if |b| == sequenceAt + 12 + |tail| {
        FieldThen(b, 0, e.eventId, session);
        FieldThen(b, sessionAt, e.sessionId, sequence);
        Int64Then(b, sequenceAt, e.sequence, surface);
        Int32Then(b, sequenceAt + 8, e.surface, tail);
      }
    } else {
      TailLayoutLength(b, sequenceAt + 12, e);
    }
  }

  lemma TailLayoutLength(b: Bytes, at: nat, e: ActionEvent)
    ensures EventTailLayout(b, at, e) ==> |b| == at + |Canon.EventTail(e)|
  {
    hide FieldAt, Int64At, Canon.EventTail;
    TailParts(e);
  }

  // Grants

  lemma {:induction false} NamesLengthIs(names: seq<Bytes>)
    ensures |Canon.Fields(names)| == NamesLength(names)
  {
    hide Canon.Field;
    if |names| > 0 {
      FieldLength(names[0]);
      NamesLengthIs(names[1..]);
    }
  }

  lemma {:induction false} NamesThen(b: Bytes, at: nat, names: seq<Bytes>, rest: Bytes)
    requires |b| == at + NamesLength(names) + |rest|
    ensures b[at..] == Canon.Fields(names) + rest <==>
      NamesAt(b, at, names, at + NamesLength(names)) && b[at + NamesLength(names)..] == rest
    decreases |names|
  {
    hide Canon.Field, FieldAt;
    if |names| == 0 {
      assert Canon.Fields(names) + rest == rest;
    } else {
      var first, others := Canon.Field(names[0]), Canon.Fields(names[1..]);
      NamesLengthIs(names[1..]);
      assert Canon.Fields(names) + rest == first + (others + rest);
      FieldThen(b, at, names[0], others + rest);
      NamesThen(b, at + 4 + |names[0]|, names[1..], rest);
    }
  }

  lemma LimitsAt(b: Bytes, at: nat, g: Grant)
    requires |b| == at + 20
    ensures b[at..] == Canon.LimitBytes(g) <==>
      && Int64At(b, at, if g.scope.None? then 0 else g.scope.value.maxValueCents)
      && Int32At(b, at + 8, if g.scope.None? then 0 else g.scope.value.maxDepth)
      && Int64At(b, at + 12, if g.expiresAt.None? then 0 else g.expiresAt.value)
  {
    hide Int64At, Int32At, Canon.Int64Bytes, Canon.Int32Bytes, UnixNanos;
    var expiry := Canon.Int64Bytes(UnixNanos(g.expiresAt));
    var depth := Canon.Int32Bytes(g.GetScope().maxDepth) + expiry;
    Int64Then(b, at, g.GetScope().maxValueCents, depth);
    Int32Then(b, at + 8, g.GetScope().maxDepth, expiry);
    LastEight(b, at + 12, UnixNanos(g.expiresAt));
    TimeAt(b, at + 12, g.expiresAt);
  }

  lemma LimitsLayoutExact(b: Bytes, at: nat, g: Grant, names: seq<Bytes>)
    requires at <= |b| && names == g.capabilities + if g.scope.None? then [] else g.scope.value.resourceGlobs
    ensures LimitsLayout(b, at, g) <==> b[at..] == Canon.Fields(names) + Canon.LimitBytes(g)
    ensures |Canon.Fields(names)| == NamesLength(names)
  {
    hide Int32At, Int64At, NamesAt, NamesLength, Canon.Fields, Canon.LimitBytes;
    NamesLengthIs(names);
    if |b| == at + NamesLength(names) + 20 {
      NamesThen(b, at, names, Canon.LimitBytes(g));
      LimitsAt(b, at + NamesLength(names), g);
    }
  }

  lemma LimitsLayoutLength(b: Bytes, at: nat, g: Grant)
    ensures LimitsLayout(b, at, g) ==> |b| >= at
  {
    hide Int32At, Int64At, NamesAt, NamesLength;
  }

  lemma GrantParts(g: Grant, names: seq<Bytes>)
    requires names == g.capabilities + if g.scope.None? then [] else g.scope.value.resourceGlobs
    ensures Canon.GrantBytes(g) ==
      Canon.Field(g.grantId) + (Canon.Field(g.parentGrantId) + (Canon.Field(g.principalId) + (Canon.Field(g.subjectId) +
      (Canon.Fields(names) + Canon.LimitBytes(g)))))
    ensures |Canon.GrantBytes(g)| ==
      36 + |g.grantId| + |g.parentGrantId| + |g.principalId| + |g.subjectId| + NamesLength(names)
  {
    hide Canon.Field, Canon.Fields, Canon.LimitBytes, NamesLength;
    assert g.GetScope().resourceGlobs == if g.scope.None? then [] else g.scope.value.resourceGlobs;
    NamesLengthIs(names);
    FieldLength(g.grantId);
    FieldLength(g.parentGrantId);
    FieldLength(g.principalId);
    FieldLength(g.subjectId);
  }

  /** Two fields and what follows. */
  lemma TwoFieldsThen(b: Bytes, at: nat, p: Bytes, q: Bytes, rest: Bytes)
    requires at <= |b| && |b| == at + 8 + |p| + |q| + |rest|
    ensures b[at..] == Canon.Field(p) + (Canon.Field(q) + rest) <==>
      FieldAt(b, at, p) && FieldAt(b, at + 4 + |p|, q) && b[at + 4 + |p| + 4 + |q|..] == rest
  {
    hide *;
    FieldLength(q);
    FieldThen(b, at, p, Canon.Field(q) + rest);
    FieldThen(b, at + 4 + |p|, q, rest);
  }

  /** The bytes of a grant have its layout, and nothing else has. */
  lemma GrantLayoutExact(b: Bytes, g: Grant)
    ensures GrantLayout(b, g) <==> b == Canon.GrantBytes(g)
  {
    hide FieldAt, LimitsLayout, NamesLength, Canon.Field, Canon.Fields, Canon.LimitBytes, Canon.GrantBytes;
    var names := g.capabilities + if g.scope.None? then [] else g.scope.value.resourceGlobs;
    var principalAt := 4 + |g.grantId| + 4 + |g.parentGrantId|;
    var namesAt := principalAt + 4 + |g.principalId| + 4 + |g.subjectId|;
    GrantParts(g, names);
    LimitsLayoutLength(b, namesAt, g);
    if namesAt <= |b| {
      LimitsLayoutExact(b, namesAt, g, names);
      GrantHead(b, g, Canon.Fields(names) + Canon.LimitBytes(g), namesAt);
    }
  }

  /** The four ids and what follows. */
  lemma GrantHead(b: Bytes, g: Grant, last: Bytes, namesAt: nat)
    requires namesAt == 16 + |g.grantId| + |g.parentGrantId| + |g.principalId| + |g.subjectId| <= |b|
    ensures b == Canon.Field(g.grantId) + (Canon.Field(g.parentGrantId) + (Canon.Field(g.principalId) +
                 (Canon.Field(g.subjectId) + last))) <==>
      var principalAt := 4 + |g.grantId| + 4 + |g.parentGrantId|;
      && FieldAt(b, 0, g.grantId)
      && FieldAt(b, 4 + |g.grantId|, g.parentGrantId)
      && FieldAt(b, principalAt, g.principalId)
      && FieldAt(b, principalAt + 4 + |g.principalId|, g.subjectId)
      && b[namesAt..] == last
  {
    hide *;
    var principalAt := 4 + |g.grantId| + 4 + |g.parentGrantId|;
    var rest := Canon.Field(g.principalId) + (Canon.Field(g.subjectId) + last);
    FieldLength(g.grantId);
    FieldLength(g.parentGrantId);
    FieldLength(g.principalId);
    FieldLength(g.subjectId);
    assert b[0..] == b;
    if |b| == namesAt + |last| {
      TwoFieldsThen(b, 0, g.grantId, g.parentGrantId, rest);
      TwoFieldsThen(b, principalAt, g.principalId, g.subjectId, last);
    }
  }
}
