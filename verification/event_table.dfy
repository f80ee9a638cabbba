/**
 The append-only events table. Rows are kept in the order of their insertion; the event id is
 the primary key and (session, sequence) is unique.
 */
module EventTable {
  import opened ByteStrings
  import opened Wrappers
  import opened Records

  /** `GetEvent` */
  function FindEvent(rows: seq<ActionEvent>, eventId: Bytes): Option<ActionEvent> {
    if |rows| == 0 then None
    else if rows[|rows| - 1].eventId == eventId then Some(rows[|rows| - 1])
    else FindEvent(rows[..|rows| - 1], eventId)
  }

  predicate SameKey(e: ActionEvent, f: ActionEvent) {
    e.sessionId == f.sessionId && e.sequence == f.sequence
  }

  /** An insert that one of the two keys refuses. */
  predicate Refused(rows: seq<ActionEvent>, e: ActionEvent) {
    exists i | 0 <= i < |rows| :: rows[i].eventId == e.eventId || SameKey(rows[i], e)
  }

  ghost predicate KeysUnique(rows: seq<ActionEvent>) {
    forall i, j :: 0 <= i < j < |rows| ==> rows[i].eventId != rows[j].eventId && !SameKey(rows[i], rows[j])
  }

  lemma InsertKeepsKeysUnique(rows: seq<ActionEvent>, e: ActionEvent)
    requires KeysUnique(rows) && !Refused(rows, e)
    ensures KeysUnique(rows + [e])
  {
  }

  function InsertBySequence(sorted: seq<ActionEvent>, e: ActionEvent): seq<ActionEvent> {
    if |sorted| == 0 || sorted[|sorted| - 1].sequence <= e.sequence then sorted + [e]
    else InsertBySequence(sorted[..|sorted| - 1], e) + [sorted[|sorted| - 1]]
  }

  /** `EventsBySession`: the session's rows ordered by sequence. */
  function BySession(rows: seq<ActionEvent>, sessionId: Bytes): seq<ActionEvent> {
    if |rows| == 0 then []
    else
      var e, sorted := rows[|rows| - 1], BySession(rows[..|rows| - 1], sessionId);
      if e.sessionId == sessionId then InsertBySequence(sorted, e) else sorted
  }

  /** `LastEventBySession`: the session's row with the highest sequence. */
  function LastOf(rows: seq<ActionEvent>, sessionId: Bytes): Option<ActionEvent> {
    var sorted := BySession(rows, sessionId);
    if |sorted| == 0 then None else Some(sorted[|sorted| - 1])
  }

  function ContentHashes(events: seq<ActionEvent>): (leaves: seq<Bytes>)
    ensures |leaves| == |events|
  {
    if |events| == 0 then [] else ContentHashes(events[..|events| - 1]) + [events[|events| - 1].contentHash]
  }

  lemma {:induction false} ContentHashesAt(events: seq<ActionEvent>, i: nat)
    requires i < |events|
    ensures ContentHashes(events)[i] == events[i].contentHash
  {
    if i < |events| - 1 {
      ContentHashesAt(events[..|events| - 1], i);
    }
  }

  // Ordering

  ghost predicate Ascending(events: seq<ActionEvent>) {
    forall i, j :: 0 <= i < j < |events| ==> events[i].sequence < events[j].sequence
  }

  lemma {:induction false} InsertedMembers(sorted: seq<ActionEvent>, e: ActionEvent, x: ActionEvent)
    ensures x in InsertBySequence(sorted, e) <==> x in sorted || x == e
    ensures |InsertBySequence(sorted, e)| == |sorted| + 1
  {
    if |sorted| > 0 && sorted[|sorted| - 1].sequence > e.sequence {
      var last, before := sorted[|sorted| - 1], sorted[..|sorted| - 1];
      InsertedMembers(before, e, x);
      assert sorted == before + [last];
    }
  }

  lemma {:induction false} InsertKeepsAscending(sorted: seq<ActionEvent>, e: ActionEvent)
    requires Ascending(sorted) && forall x :: x in sorted ==> x.sequence != e.sequence
    ensures Ascending(InsertBySequence(sorted, e))
  {
    if |sorted| > 0 && sorted[|sorted| - 1].sequence > e.sequence {
      var last, before := sorted[|sorted| - 1], sorted[..|sorted| - 1];
      InsertKeepsAscending(before, e);
      forall x | x in InsertBySequence(before, e)
        ensures x.sequence < last.sequence
      {
        InsertedMembers(before, e, x);
      }
    }
  }

  /** The query returns the session's rows and no others. */
  lemma {:induction false} BySessionMembers(rows: seq<ActionEvent>, sessionId: Bytes, x: ActionEvent)
    ensures x in BySession(rows, sessionId) <==> x in rows && x.sessionId == sessionId
  {
    if |rows| > 0 {
      var e, before := rows[|rows| - 1], rows[..|rows| - 1];
      BySessionMembers(before, sessionId, x);
      InsertedMembers(BySession(before, sessionId), e, x);
      assert rows == before + [e];
    }
  }

  /** With unique keys the order by sequence is strict. */
  lemma {:induction false} BySessionAscends(rows: seq<ActionEvent>, sessionId: Bytes)
    requires KeysUnique(rows)
    ensures Ascending(BySession(rows, sessionId))
  {
    if |rows| > 0 {
      var e, before := rows[|rows| - 1], rows[..|rows| - 1];
      BySessionAscends(before, sessionId);
      if e.sessionId == sessionId {
        forall x | x in BySession(before, sessionId)
          ensures x.sequence != e.sequence
        {
          BySessionMembers(before, sessionId, x);
          assert !SameKey(x, e) by {
            var i :| 0 <= i < |before| && before[i] == x;
            assert rows[i] == x;
          }
        }
        InsertKeepsAscending(BySession(before, sessionId), e);
      }
    }
  }

  /** An event whose sequence is above its session's is returned last; other sessions do not see it. */
  lemma BySessionAppends(rows: seq<ActionEvent>, e: ActionEvent, sessionId: Bytes)
    requires forall x :: x in rows && x.sessionId == e.sessionId ==> x.sequence < e.sequence
    ensures BySession(rows + [e], sessionId) ==
      if e.sessionId == sessionId then BySession(rows, sessionId) + [e] else BySession(rows, sessionId)
  {
    var sorted := BySession(rows, sessionId);
    assert (rows + [e])[..|rows|] == rows;
    if e.sessionId == sessionId && |sorted| > 0 {
      BySessionMembers(rows, sessionId, sorted[|sorted| - 1]);
    }
  }

  // Gaps

  predicate Logged(rows: seq<ActionEvent>, sessionId: Bytes, sequence: int) {
    exists i | 0 <= i < |rows| :: rows[i].sessionId == sessionId && rows[i].sequence == sequence
  }

  /** How many of the sequence numbers from 1 up to a given one, itself excluded, no row of the session carries. */
  function MissingBelow(rows: seq<ActionEvent>, sessionId: Bytes, sequence: int): nat {
    if sequence <= 1 then 0
    else MissingBelow(rows, sessionId, sequence - 1) + if Logged(rows, sessionId, sequence - 1) then 0 else 1
  }

  /** Nothing is missing below a sequence exactly when every lower sequence has a row. */
  lemma {:induction false} NothingMissing(rows: seq<ActionEvent>, sessionId: Bytes, sequence: int)
    ensures MissingBelow(rows, sessionId, sequence) == 0 <==>
      forall v :: 1 <= v < sequence ==> Logged(rows, sessionId, v)
    decreases if sequence <= 1 then 0 else sequence
  {
    hide Logged;
    if sequence > 1 {
      NothingMissing(rows, sessionId, sequence - 1);
    }
  }

  lemma {:induction false} MissingAcrossGap(rows: seq<ActionEvent>, sessionId: Bytes, low: int, high: int)
    requires 1 <= low <= high
    requires forall v :: low <= v < high ==> !Logged(rows, sessionId, v)
    ensures MissingBelow(rows, sessionId, high) == MissingBelow(rows, sessionId, low) + high - low
    decreases high - low
  {
    hide Logged;
    if low < high {
      MissingAcrossGap(rows, sessionId, low, high - 1);
    }
  }

  /** Between the sequences of neighbouring rows no row of the session has its sequence. */
  lemma NothingBetween(rows: seq<ActionEvent>, sessionId: Bytes, i: nat, v: int)
    requires KeysUnique(rows) && i < |BySession(rows, sessionId)|
    requires var events := BySession(rows, sessionId);
      (if i == 0 then 0 else events[i - 1].sequence) < v < events[i].sequence
    requires v >= 1
    ensures !Logged(rows, sessionId, v)
  {
    hide BySession, Logged;
    BySessionAscends(rows, sessionId);
    if Logged(rows, sessionId, v) {
      var j := LoggedPosition(rows, sessionId, v);
    }
  }

  lemma LoggedPosition(rows: seq<ActionEvent>, sessionId: Bytes, v: int) returns (j: nat)
    requires Logged(rows, sessionId, v)
    ensures j < |BySession(rows, sessionId)| && BySession(rows, sessionId)[j].sequence == v
  {
    hide BySession;
    var k :| 0 <= k < |rows| && rows[k].sessionId == sessionId && rows[k].sequence == v;
    BySessionMembers(rows, sessionId, rows[k]);
    j :| 0 <= j < |BySession(rows, sessionId)| && BySession(rows, sessionId)[j] == rows[k];
  }

  /**
   Sequence gaps: the i-th row of a session carries the sequence i + 1 plus the number of
   lower sequences that have no row.
   */
  lemma {:induction false} SequenceGap(rows: seq<ActionEvent>, sessionId: Bytes, i: nat)
    requires KeysUnique(rows) && i < |BySession(rows, sessionId)|
    requires forall x :: x in rows && x.sessionId == sessionId ==> x.sequence >= 1
    ensures var sequence := BySession(rows, sessionId)[i].sequence;
      sequence == i + 1 + MissingBelow(rows, sessionId, sequence)
  {
    hide BySession, Logged, KeysUnique;
    var events := BySession(rows, sessionId);
    var low := if i == 0 then 0 else events[i - 1].sequence;
    BySessionAscends(rows, sessionId);
    BySessionMembers(rows, sessionId, events[i]);
    if i > 0 {
      SequenceGap(rows, sessionId, i - 1);
      MemberIsLogged(rows, sessionId, i - 1);
    }
    forall v | low + 1 <= v < events[i].sequence
      ensures !Logged(rows, sessionId, v)
    {
      NothingBetween(rows, sessionId, i, v);
    }
    MissingAcrossGap(rows, sessionId, low + 1, events[i].sequence);
  }

  lemma MemberIsLogged(rows: seq<ActionEvent>, sessionId: Bytes, i: nat)
    requires i < |BySession(rows, sessionId)|
    ensures BySession(rows, sessionId)[i] in rows && BySession(rows, sessionId)[i].sessionId == sessionId
    ensures Logged(rows, sessionId, BySession(rows, sessionId)[i].sequence)
  {
    hide BySession;
    var e := BySession(rows, sessionId)[i];
    BySessionMembers(rows, sessionId, e);
    var k :| 0 <= k < |rows| && rows[k] == e;
  }

  // Lookup

  lemma {:induction false} FoundEventIsRow(rows: seq<ActionEvent>, eventId: Bytes)
    requires FindEvent(rows, eventId).Some?
    ensures FindEvent(rows, eventId).value in rows && FindEvent(rows, eventId).value.eventId == eventId
  {
    if rows[|rows| - 1].eventId != eventId {
      FoundEventIsRow(rows[..|rows| - 1], eventId);
    }
  }

  lemma {:induction false} FindEventFinds(rows: seq<ActionEvent>, e: ActionEvent)
    requires KeysUnique(rows) && e in rows
    ensures FindEvent(rows, e.eventId) == Some(e)
  {
    var last, before := rows[|rows| - 1], rows[..|rows| - 1];
    if last != e {
      var i :| 0 <= i < |rows| && rows[i] == e;
      assert before[i] == e;
      FindEventFinds(before, e);
    }
  }
}
