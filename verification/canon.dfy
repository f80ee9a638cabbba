/**
 The canonical encoding of events and grants: length-prefixed byte strings and big-endian
 two's-complement integers, written one after the other into a buffer.
 */
module Canon {
  import opened ByteStrings
  import opened Records

  // The specification

  /** A 32-bit length, which keeps only the low 32 bits of it, and then the bytes. */
  function Field(p: Bytes): Bytes {
    BigEndian32(|p| % TWO_32) + p
  }

  function Int32Bytes(v: int32): (r: Bytes)
    ensures |r| == 4
  {
    BigEndian32(v % TWO_32)
  }

  function Int64Bytes(v: int64): (r: Bytes)
    ensures |r| == 8
  {
    BigEndian64(v % TWO_64)
  }

  function Fields(ps: seq<Bytes>): Bytes {
    if |ps| == 0 then [] else Field(ps[0]) + Fields(ps[1..])
  }

  function EventBytes(e: ActionEvent): Bytes {
    Field(e.eventId) + (Field(e.sessionId) + (Int64Bytes(e.sequence) + (Int32Bytes(e.surface) + EventTail(e))))
  }

  function EventTail(e: ActionEvent): Bytes {
    Field(e.actionType) + (Field(e.actionPayload) + (Field(e.grantId) + (Field(e.preStateHash) +
    (Field(e.postStateHash) + (Field(e.recordingRef) + Int64Bytes(UnixNanos(e.occurredAt)))))))
  }

  function GrantBytes(g: Grant): Bytes {
    Field(g.grantId) + (Field(g.parentGrantId) + (Field(g.principalId) + (Field(g.subjectId) +
    (Fields(g.capabilities + g.GetScope().resourceGlobs) + LimitBytes(g)))))
  }

  /** The fixed 20 bytes that end a grant's encoding. */
  function LimitBytes(g: Grant): (r: Bytes)
    ensures |r| == 20
  {
    Int64Bytes(g.GetScope().maxValueCents) + (Int32Bytes(g.GetScope().maxDepth) + Int64Bytes(UnixNanos(g.expiresAt)))
  }

  // The code

  /** `bytes.Buffer` */
  class Buffer {
    var data: Bytes

    constructor ()
      ensures data == []
    {
      data := [];
    }

    method Write(p: Bytes)
      modifies this
      ensures data == old(data) + p
    {
      data := data + p;
    }
  }

  method WriteBytes(b: Buffer, p: Bytes)
    modifies b
    ensures b.data == old(b.data) + Field(p)
  {
    b.Write(BigEndian32(|p| % TWO_32));
    b.Write(p);
  }

  method WriteInt64(b: Buffer, v: int64)
    modifies b
    ensures b.data == old(b.data) + Int64Bytes(v)
  {
    b.Write(BigEndian64(v % TWO_64));
  }

  method WriteInt32(b: Buffer, v: int32)
    modifies b
    ensures b.data == old(b.data) + Int32Bytes(v)
  {
    b.Write(BigEndian32(v % TWO_32));
  }

  method WriteAll(b: Buffer, ps: seq<Bytes>)
    modifies b
    ensures b.data == old(b.data) + Fields(ps)
  {
    assert ps[0..] == ps;
    for i := 0 to |ps|
      invariant b.data + Fields(ps[i..]) == old(b.data) + Fields(ps)
    {
      ConcatAssociates(b.data, Field(ps[i]), Fields(ps[i + 1..]));
      assert ps[i..][1..] == ps[i + 1..];
      WriteBytes(b, ps[i]);
    }
  }

  method WriteEventTail(b: Buffer, ev: ActionEvent)
    modifies b
    ensures b.data == old(b.data) + EventTail(ev)
  {
    hide Field, Int64Bytes;
    WriteBytes(b, ev.actionType);
    WriteBytes(b, ev.actionPayload);
    WriteBytes(b, ev.grantId);
    WriteBytes(b, ev.preStateHash);
    WriteBytes(b, ev.postStateHash);
    WriteBytes(b, ev.recordingRef);
    WriteInt64(b, UnixNanos(ev.occurredAt));
  }

  method Event(ev: ActionEvent) returns (r: Bytes)
    ensures r == EventBytes(ev)
  {
    hide Field, Int64Bytes, Int32Bytes, EventTail;
    var b := new Buffer();
    WriteBytes(b, ev.eventId);
    WriteBytes(b, ev.sessionId);
    WriteInt64(b, ev.sequence);
    WriteInt32(b, ev.surface);
    WriteEventTail(b, ev);
    FiveParts(Field(ev.eventId), Field(ev.sessionId), Int64Bytes(ev.sequence), Int32Bytes(ev.surface), EventTail(ev));
    return b.data;
  }

  /** Five byte strings written to an empty buffer one after the other. */
  lemma FiveParts(p: Bytes, q: Bytes, r: Bytes, s: Bytes, t: Bytes)
    ensures [] + p + q + r + s + t == p + (q + (r + (s + t)))
  {
  }

  lemma {:induction false} FieldsConcat(xs: seq<Bytes>, ys: seq<Bytes>)
    ensures Fields(xs + ys) == Fields(xs) + Fields(ys)
  {
    hide Field;
    if |xs| == 0 {
      assert xs + ys == ys;
    } else {
      FieldsConcat(xs[1..], ys);
      assert (xs + ys)[0] == xs[0] && (xs + ys)[1..] == xs[1..] + ys;
      ConcatAssociates(Field(xs[0]), Fields(xs[1..]), Fields(ys));
    }
  }

  /** The two lists, one straight after the other and without a count. */
  method WriteNames(b: Buffer, g: Grant)
    modifies b
    ensures b.data == old(b.data) + Fields(g.capabilities + g.GetScope().resourceGlobs)
  {
    hide Fields;
    WriteAll(b, g.capabilities);
    WriteAll(b, g.GetScope().resourceGlobs);
    FieldsConcat(g.capabilities, g.GetScope().resourceGlobs);
  }

  method WriteLimits(b: Buffer, g: Grant)
    modifies b
    ensures b.data == old(b.data) + LimitBytes(g)
  {
    WriteInt64(b, g.GetScope().maxValueCents);
    WriteInt32(b, g.GetScope().maxDepth);
    WriteInt64(b, UnixNanos(g.expiresAt));
  }

  method Grant(g: Grant) returns (r: Bytes)
    ensures r == GrantBytes(g)
  {
    hide Field, Fields, LimitBytes;
    var b := new Buffer();
    WriteBytes(b, g.grantId);
    WriteBytes(b, g.parentGrantId);
    WriteBytes(b, g.principalId);
    WriteBytes(b, g.subjectId);
    WriteNames(b, g);
    WriteLimits(b, g);
    return b.data;
  }
}
