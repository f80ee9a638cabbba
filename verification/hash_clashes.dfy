/**
 Evidence against the digest: what a log gives away when its hash links or its root do not tell
 its events apart. Where a log gives away nothing, links and roots say exactly what was read.
 */
module HashClashes {
  import opened ByteStrings
  import opened Wrappers
  import opened Crypto
  import opened Records
  import opened Seal
  import opened EventTable
  import opened LedgerState
  import opened Runs
  import opened CanonDecoding
  import opened MerkleBinding
  import opened RootBinding
  import opened ReceiptProofs
  import Canon
  import Merkle

  /** Two byte strings with one digest, or a byte string whose digest is 32 zero bytes. */
  datatype Evidence = NoEvidence | Collision(pair: Pair) | ZeroPreimage(bytes: Bytes)

  predicate Genuine(h: Hash, evidence: Evidence) {
    match evidence
    case NoEvidence => false
    case Collision(pair) => Collides(h, pair.fst, pair.snd)
    case ZeroPreimage(bytes) => h.Of(bytes) == ZERO32
  }

  /** The first event of a log whose content hash is zero or that of an event before it. */
  function Clash(log: seq<ActionEvent>): Evidence {
    if |log| == 0 then NoEvidence
    else
      var e, before := log[|log| - 1], log[..|log| - 1];
      var twin := WithHash(before, e.contentHash);
      if Clash(before) != NoEvidence then Clash(before)
      else if e.contentHash == ZERO32 then ZeroPreimage(Canon.EventBytes(e))
      else if twin.Some? then Collision(Pair(Canon.EventBytes(twin.value), Canon.EventBytes(e)))
      else NoEvidence
  }

  /** Content hashes tell the events of the log apart, and each from no event. */
  ghost predicate HashesApart(log: seq<ActionEvent>) {
    && (forall i :: 0 <= i < |log| ==> log[i].contentHash != ZERO32)
    && (forall i, j :: 0 <= i < j < |log| ==> log[i].contentHash != log[j].contentHash)
  }

  lemma {:induction false} ClashIsGenuine(c: Suite, log: seq<ActionEvent>)
    requires SealedLog(c, log) && Ascending(log)
    ensures if Clash(log) == NoEvidence then HashesApart(log) else Genuine(c.hash, Clash(log))
  {
    hide Canon.EventBytes, Sized, WithHash, ContentSealed, Genuine, HashesApart;
    if |log| == 0 {
      NothingIsApart();
    } else {
      ClashIsGenuine(c, log[..|log| - 1]);
      if Clash(log[..|log| - 1]) == NoEvidence {
        LastClash(c, log);
      }
    }
  }

  lemma NothingIsApart()
    ensures HashesApart([])
  {
  }

  lemma ApartGrows(log: seq<ActionEvent>)
    requires |log| > 0 && HashesApart(log[..|log| - 1]) && log[|log| - 1].contentHash != ZERO32
    requires forall i :: 0 <= i < |log| - 1 ==> log[i].contentHash != log[|log| - 1].contentHash
    ensures HashesApart(log)
  {
    var before := log[..|log| - 1];
    forall i, j | 0 <= i < j < |log|
      ensures log[i].contentHash != log[j].contentHash
    {
      if j < |before| {
        assert before[i].contentHash != before[j].contentHash;
      }
    }
    forall i | 0 <= i < |log|
      ensures log[i].contentHash != ZERO32
    {
      if i < |before| {
        assert before[i].contentHash != ZERO32;
      }
    }
  }

  lemma NoTwin(log: seq<ActionEvent>, hash: Bytes)
    requires WithHash(log, hash).None?
    ensures forall i :: 0 <= i < |log| ==> log[i].contentHash != hash
  {
    hide WithHash;
    forall i | 0 <= i < |log|
      ensures log[i].contentHash != hash
    {
      if log[i].contentHash == hash {
        HashIsFoundAt(log, hash, i);
      }
    }
  }

  lemma LastClash(c: Suite, log: seq<ActionEvent>)
    requires |log| > 0 && SealedLog(c, log) && Ascending(log)
    requires Clash(log[..|log| - 1]) == NoEvidence && HashesApart(log[..|log| - 1])
    ensures if Clash(log) == NoEvidence then HashesApart(log) else Genuine(c.hash, Clash(log))
  {
    hide *;
    var e, before := log[|log| - 1], log[..|log| - 1];
    SealedMember(c, log, e);
    ClashUnfolds(log);
    if WithHash(before, e.contentHash).Some? {
      FoundHasHash(before, e.contentHash);
      TwinCollides(c, log, WithHash(before, e.contentHash).value);
      GenuineCases(c.hash, Canon.EventBytes(WithHash(before, e.contentHash).value), Canon.EventBytes(e));
    } else if e.contentHash != ZERO32 {
      NoTwin(before, e.contentHash);
      ApartGrows(log);
    }
    GenuineCases(c.hash, Canon.EventBytes(e), Canon.EventBytes(e));
  }

  lemma GenuineCases(h: Hash, x: Bytes, y: Bytes)
    ensures Genuine(h, ZeroPreimage(x)) <==> h.Of(x) == ZERO32
    ensures Genuine(h, Collision(Pair(x, y))) <==> Collides(h, x, y)
  {
  }

  lemma ClashUnfolds(log: seq<ActionEvent>)
    requires |log| > 0 && Clash(log[..|log| - 1]) == NoEvidence
    ensures var e, before := log[|log| - 1], log[..|log| - 1];
      var twin := WithHash(before, e.contentHash);
      Clash(log) ==
        if e.contentHash == ZERO32 then ZeroPreimage(Canon.EventBytes(e))
        else if twin.Some? then Collision(Pair(Canon.EventBytes(twin.value), Canon.EventBytes(e)))
        else NoEvidence
  {
    hide Canon.EventBytes, WithHash;
  }

  lemma SealedMember(c: Suite, log: seq<ActionEvent>, e: ActionEvent)
    requires SealedLog(c, log) && e in log
    ensures e.contentHash == c.hash.Of(Canon.EventBytes(e))
  {
    hide Canon.EventBytes, Sized;
  }

  lemma TwinCollides(c: Suite, log: seq<ActionEvent>, twin: ActionEvent)
    requires |log| > 0 && SealedLog(c, log) && Ascending(log)
    requires twin in log[..|log| - 1] && twin.contentHash == log[|log| - 1].contentHash
    ensures Collides(c.hash, Canon.EventBytes(twin), Canon.EventBytes(log[|log| - 1]))
  {
    hide Canon.EventBytes, Sized, ContentSealed;
    var e := log[|log| - 1];
    assert twin in log && e in log && twin.sequence != e.sequence;
    SealedMember(c, log, e);
    SealedMember(c, log, twin);
    DifferentSequencesDifferentBytes(twin, e);
  }

  lemma {:induction false} FoundHasHash(log: seq<ActionEvent>, hash: Bytes)
    requires WithHash(log, hash).Some?
    ensures WithHash(log, hash).value in log && WithHash(log, hash).value.contentHash == hash
  {
    if log[0].contentHash != hash {
      FoundHasHash(log[1..], hash);
    }
  }

  lemma ApartByHash(log: seq<ActionEvent>, x: ActionEvent, y: ActionEvent)
    requires HashesApart(log) && x in log && y in log && x.contentHash == y.contentHash
    ensures x == y
  {
  }

  // The rows of a session that came since

  ghost predicate NoRowSince(rows: seq<ActionEvent>, k: nat, sessionId: Bytes) {
    forall i :: k <= i < |rows| ==> rows[i].sessionId != sessionId
  }

  lemma {:induction false} RowsSince(rows: seq<ActionEvent>, k: nat, sessionId: Bytes)
    requires k <= |rows|
    ensures |BySession(rows, sessionId)| >= |BySession(rows[..k], sessionId)|
    ensures if NoRowSince(rows, k, sessionId) then BySession(rows, sessionId) == BySession(rows[..k], sessionId)
            else |BySession(rows, sessionId)| > |BySession(rows[..k], sessionId)|
  {
    if k < |rows| {
      var e, before := rows[|rows| - 1], rows[..|rows| - 1];
      RowsSince(before, k, sessionId);
      InsertedMembers(BySession(before, sessionId), e, e);
      assert before[..k] == rows[..k];
    } else {
      assert rows[..k] == rows;
    }
  }

  /** Where an event goes among the rows of its session. */
  lemma {:induction false} InsertPosition(sorted: seq<ActionEvent>, e: ActionEvent) returns (k: nat)
    ensures k <= |sorted| && InsertBySequence(sorted, e) == sorted[..k] + [e] + sorted[k..]
    ensures k < |sorted| ==> sorted[k].sequence > e.sequence
    ensures k > 0 ==> sorted[k - 1].sequence <= e.sequence
  {
    if |sorted| == 0 || sorted[|sorted| - 1].sequence <= e.sequence {
      k := |sorted|;
    } else {
      k := InsertPosition(sorted[..|sorted| - 1], e);
    }
  }

  // Links

  /** An event that came into the table before another; ids tell rows apart. */
  ghost predicate Before(rows: seq<ActionEvent>, x: ActionEvent, y: ActionEvent) {
    exists i, j :: 0 <= i < j < |rows| && rows[i] == x && rows[j] == y
  }

  ghost predicate PrevsEarlier(rows: seq<ActionEvent>) {
    forall i :: 0 <= i < |rows| ==> PrevIn(rows[..i], rows[i].sessionId, rows[i].prevHash)
  }

  lemma NeighboursInOrder(c: Suite, rows: seq<ActionEvent>, sessionId: Bytes, i: nat)
    requires KeysUnique(rows) && PrevsEarlier(rows)
    requires var log := BySession(rows, sessionId); i + 1 < |log| && ChainLinked(c, log) && HashesApart(log)
    ensures Before(rows, BySession(rows, sessionId)[i], BySession(rows, sessionId)[i + 1])
  {
    hide BySession, ContentSealed, SignatureSealed, KeysUnique, HashesApart;
    var log := BySession(rows, sessionId);
    var x, y := log[i], log[i + 1];
    BySessionMembers(rows, sessionId, x);
    BySessionMembers(rows, sessionId, y);
    assert Linked(c, y, Predecessor(log, i + 1));
    ApartFromNone(log, i);
    var b :| 0 <= b < |rows| && rows[b] == y;
    assert PrevIn(rows[..b], y.sessionId, y.prevHash);
    var a :| 0 <= a < b && rows[..b][a].sessionId == sessionId && rows[..b][a].contentHash == x.contentHash;
    BySessionMembers(rows, sessionId, rows[a]);
    ApartByHash(log, x, rows[a]);
  }

  lemma ApartFromNone(log: seq<ActionEvent>, i: nat)
    requires HashesApart(log) && i < |log|
    ensures log[i].contentHash != ZERO32
  {
  }

  lemma BeforeIsTransitive(rows: seq<ActionEvent>, x: ActionEvent, y: ActionEvent, z: ActionEvent)
    requires KeysUnique(rows) && Before(rows, x, y) && Before(rows, y, z)
    ensures Before(rows, x, z)
  {
    var i, j :| 0 <= i < j < |rows| && rows[i] == x && rows[j] == y;
    var k, l :| 0 <= k < l < |rows| && rows[k] == y && rows[l] == z;
    assert j == k;
  }

  /** A linked log without clashes stands in the order of its insertion. */
  lemma {:induction false} LinkedInOrder(c: Suite, rows: seq<ActionEvent>, sessionId: Bytes, i: nat, j: nat)
    requires KeysUnique(rows) && PrevsEarlier(rows)
    requires var log := BySession(rows, sessionId); i < j < |log| && ChainLinked(c, log) && HashesApart(log)
    ensures Before(rows, BySession(rows, sessionId)[i], BySession(rows, sessionId)[j])
    decreases j - i
  {
    hide BySession, KeysUnique, PrevsEarlier, ChainLinked, HashesApart, Before;
    var log := BySession(rows, sessionId);
    NeighboursInOrder(c, rows, sessionId, j - 1);
    if i < j - 1 {
      LinkedInOrder(c, rows, sessionId, i, j - 1);
      BeforeIsTransitive(rows, log[i], log[j - 1], log[j]);
    }
  }

  /** In such a log the last event is the same as k rows ago exactly when no row of the session came since. */
  lemma SameLastExactly(c: Suite, rows: seq<ActionEvent>, k: nat, sessionId: Bytes)
    requires KeysUnique(rows) && PrevsEarlier(rows) && k <= |rows|
    requires ChainLinked(c, BySession(rows, sessionId)) && HashesApart(BySession(rows, sessionId))
    ensures LastOf(rows, sessionId) == LastOf(rows[..k], sessionId) <==> NoRowSince(rows, k, sessionId)
  {
    hide BySession, KeysUnique, PrevsEarlier, ChainLinked, HashesApart;
    RowsSince(rows, k, sessionId);
    var log := BySession(rows, sessionId);
    if LastOf(rows, sessionId) == LastOf(rows[..k], sessionId) && !NoRowSince(rows, k, sessionId) {
      var r :| k <= r < |rows| && rows[r].sessionId == sessionId;
      var last := log[|log| - 1];
      BySessionMembers(rows, sessionId, rows[r]);
      BySessionMembers(rows[..k], sessionId, last);
      var a :| 0 <= a < k && rows[..k][a] == last;
      var i :| 0 <= i < |log| && log[i] == rows[r];
      if i < |log| - 1 {
        LinkedInOrder(c, rows, sessionId, i, |log| - 1);
        NotBefore(rows, r, a);
      } else {
        DifferentRows(rows, a, r);
      }
    }
  }

  lemma NotBefore(rows: seq<ActionEvent>, r: nat, a: nat)
    requires KeysUnique(rows) && a < r < |rows|
    ensures !Before(rows, rows[r], rows[a])
  {
  }

  lemma DifferentRows(rows: seq<ActionEvent>, a: nat, r: nat)
    requires KeysUnique(rows) && a < r < |rows|
    ensures rows[a] != rows[r]
  {
  }

  /** Every event of the session stands below the given one. */
  ghost predicate NoneHigher(rows: seq<ActionEvent>, e: ActionEvent) {
    forall x :: x in rows && x.sessionId == e.sessionId ==> x.sequence < e.sequence
  }

  /** An event among later ones breaks the link of the next one. */
  lemma InsertedBelowBreaks(c: Suite, log: seq<ActionEvent>, e: ActionEvent, k: nat)
    requires ChainLinked(c, log) && k < |log|
    requires HashesApart(log[..k] + [e] + log[k..])
    ensures !ChainLinked(c, log[..k] + [e] + log[k..])
  {
    hide ChainLinked, Linked, HashesApart;
    var longer := log[..k] + [e] + log[k..];
    assert longer[k] == e && longer[k + 1] == log[k];
    ApartFromNone(longer, k);
    if k > 0 {
      assert longer[k - 1] == log[k - 1];
      ApartAt(longer, k - 1, k);
    }
    LinkedAt(c, log, k);
    LinkNamesPrev(c, log[k], Predecessor(log, k));
    LinkedAt(c, longer, k + 1);
    LinkNamesPrev(c, log[k], Some(e));
  }

  lemma LinkNamesPrev(c: Suite, e: ActionEvent, prev: Option<ActionEvent>)
    ensures Linked(c, e, prev) ==> e.prevHash == PrevHashOf(prev)
  {
    hide ContentSealed, SignatureSealed;
  }

  lemma LinkedAt(c: Suite, log: seq<ActionEvent>, i: nat)
    requires i < |log|
    ensures ChainLinked(c, log) ==> Linked(c, log[i], Predecessor(log, i))
  {
    hide Linked;
  }

  lemma ApartAt(log: seq<ActionEvent>, i: nat, j: nat)
    requires HashesApart(log) && i < j < |log|
    ensures log[i].contentHash != log[j].contentHash
  {
  }

  /** The last event as it was read k rows ago, unless the read failed. */
  function LastRead(rows: seq<ActionEvent>, k: nat, sessionId: Bytes, failed: bool): Option<ActionEvent>
    requires k <= |rows|
  {
    if failed then None else LastOf(rows[..k], sessionId)
  }

  /** Nothing came between: the read saw the session as it is now, and no event has a higher number. */
  ghost predicate ReadIsCurrent(rows: seq<ActionEvent>, k: nat, e: ActionEvent, failed: bool) {
    && (if failed then BySession(rows, e.sessionId) == [] else NoRowSince(rows, k, e.sessionId))
    && NoneHigher(rows, e)
  }

  lemma NoneHigherInLog(rows: seq<ActionEvent>, e: ActionEvent)
    ensures NoneHigher(rows, e) <==>
      forall x :: x in BySession(rows, e.sessionId) ==> x.sequence < e.sequence
  {
    hide BySession;
    forall x
      ensures x in BySession(rows, e.sessionId) <==> x in rows && x.sessionId == e.sessionId
    {
      BySessionMembers(rows, e.sessionId, x);
    }
  }

  lemma ApartPart(log: seq<ActionEvent>, e: ActionEvent)
    requires HashesApart(log + [e])
    ensures HashesApart(log) && forall x :: x in log ==> x.contentHash != e.contentHash && x.contentHash != ZERO32
  {
    assert forall i :: 0 <= i < |log| ==> (log + [e])[i] == log[i];
    assert (log + [e])[|log|] == e;
  }

  /** At the end, an event sealed after an earlier read is linked exactly when that read is current. */
  lemma AppendedLinksExactly(c: Suite, rows: seq<ActionEvent>, e: ActionEvent, k: nat, failed: bool)
    requires KeysUnique(rows) && PrevsEarlier(rows) && k <= |rows| && NoneHigher(rows, e)
    requires ContentSealed(c, e) && SignatureSealed(c, NotaryVerifier(c), e)
    requires e.prevHash == PrevHashOf(LastRead(rows, k, e.sessionId, failed))
    requires ChainLinked(c, BySession(rows, e.sessionId)) && HashesApart(BySession(rows, e.sessionId) + [e])
    ensures ChainLinked(c, BySession(rows, e.sessionId) + [e]) <==> ReadIsCurrent(rows, k, e, failed)
  {
    hide BySession, ContentSealed, SignatureSealed, KeysUnique, HashesApart, ChainLinked, PrevsEarlier, NoneHigher,
         NoRowSince;
    var log := BySession(rows, e.sessionId);
    ChainLinkedGrows(c, log, e);
    ApartPart(log, e);
    if !failed {
      SameLastExactly(c, rows, k, e.sessionId);
      RowsSince(rows, k, e.sessionId);
      LastsApart(rows, k, e.sessionId);
    }
  }

  lemma LastsApart(rows: seq<ActionEvent>, k: nat, sessionId: Bytes)
    requires k <= |rows| && HashesApart(BySession(rows, sessionId))
    ensures PrevHashOf(LastOf(rows, sessionId)) == PrevHashOf(LastOf(rows[..k], sessionId)) <==>
      LastOf(rows, sessionId) == LastOf(rows[..k], sessionId)
  {
    hide BySession, HashesApart;
    RowsSince(rows, k, sessionId);
    EarlierInLog(rows, k, sessionId);
    PrevHashesApart(BySession(rows, sessionId), LastOf(rows, sessionId), LastOf(rows[..k], sessionId));
  }

  lemma PrevHashesApart(log: seq<ActionEvent>, x: Option<ActionEvent>, y: Option<ActionEvent>)
    requires HashesApart(log) && (x.Some? ==> x.value in log) && (y.Some? ==> y.value in log)
    ensures PrevHashOf(x) == PrevHashOf(y) <==> x == y
  {
    hide HashesApart;
    if x.Some? {
      MemberHasHash(log, x.value);
    }
    if y.Some? {
      MemberHasHash(log, y.value);
    }
    if x.Some? && y.Some? && x.value.contentHash == y.value.contentHash {
      ApartByHash(log, x.value, y.value);
    }
  }

  lemma MemberHasHash(log: seq<ActionEvent>, x: ActionEvent)
    requires HashesApart(log) && x in log
    ensures x.contentHash != ZERO32
  {
  }

  /**
   Links under overlap: an event sealed after what was read k rows ago keeps its session's log
   linked if and only if no row of the session came since and none has a higher number.
   */
  lemma InsertLinksExactly(c: Suite, rows: seq<ActionEvent>, e: ActionEvent, k: nat, failed: bool)
    requires KeysUnique(rows) && PrevsEarlier(rows) && k <= |rows| && !Refused(rows, e)
    requires ContentSealed(c, e) && SignatureSealed(c, NotaryVerifier(c), e)
    requires e.prevHash == PrevHashOf(LastRead(rows, k, e.sessionId, failed))
    requires ChainLinked(c, BySession(rows, e.sessionId)) && HashesApart(BySession(rows + [e], e.sessionId))
    ensures ChainLinked(c, BySession(rows + [e], e.sessionId)) <==> ReadIsCurrent(rows, k, e, failed)
  {
    hide BySession, ContentSealed, SignatureSealed, KeysUnique, HashesApart, ChainLinked, PrevsEarlier, NoneHigher,
         NoRowSince, LastRead, Refused;
    var log := BySession(rows, e.sessionId);
    BySessionOfMore(rows, e);
    NoneHigherInLog(rows, e);
    var i := InsertPosition(log, e);
    if i < |log| {
      InsertedBelowBreaks(c, log, e, i);
      assert log[i] in log;
    } else {
      assert log[..i] + [e] + log[i..] == log + [e];
      LastIsHighest(rows, e);
      AppendedLinksExactly(c, rows, e, k, failed);
    }
  }

  lemma BySessionOfMore(rows: seq<ActionEvent>, e: ActionEvent)
    ensures BySession(rows + [e], e.sessionId) == InsertBySequence(BySession(rows, e.sessionId), e)
  {
    assert (rows + [e])[..|rows|] == rows;
  }

  lemma LastIsHighest(rows: seq<ActionEvent>, e: ActionEvent)
    requires KeysUnique(rows) && !Refused(rows, e)
    requires var log := BySession(rows, e.sessionId); |log| > 0 ==> log[|log| - 1].sequence <= e.sequence
    ensures NoneHigher(rows, e)
  {
    hide BySession, KeysUnique;
    var log := BySession(rows, e.sessionId);
    BySessionAscends(rows, e.sessionId);
    forall x | x in rows && x.sessionId == e.sessionId
      ensures x.sequence < e.sequence
    {
      BySessionMembers(rows, e.sessionId, x);
      var i :| 0 <= i < |rows| && rows[i] == x;
      assert !SameKey(rows[i], e);
      var j :| 0 <= j < |log| && log[j] == x;
    }
  }

  /** A broken link stays broken: what comes between is no event that was there to be read. */
  lemma InsertKeepsBroken(c: Suite, rows: seq<ActionEvent>, e: ActionEvent)
    requires PrevsEarlier(rows) && !Refused(rows, e)
    requires !ChainLinked(c, BySession(rows, e.sessionId)) && HashesApart(BySession(rows + [e], e.sessionId))
    ensures !ChainLinked(c, BySession(rows + [e], e.sessionId))
  {
    hide BySession, ContentSealed, SignatureSealed, KeysUnique, HashesApart, PrevsEarlier, Refused, Linked;
    var log := BySession(rows, e.sessionId);
    BySessionOfMore(rows, e);
    var k := InsertPosition(log, e);
    var i :| 0 <= i < |log| && !Linked(c, log[i], Predecessor(log, i));
    BySessionMembers(rows, e.sessionId, log[i]);
    NotSealedAfter(rows, e, log[i]);
    BrokenAfterInsert(c, log, e, k, i);
  }

  lemma BrokenAfterInsert(c: Suite, log: seq<ActionEvent>, e: ActionEvent, k: nat, i: nat)
    requires k <= |log| && i < |log| && !Linked(c, log[i], Predecessor(log, i)) && log[i].prevHash != e.contentHash
    ensures !ChainLinked(c, log[..k] + [e] + log[k..])
  {
    hide ContentSealed, SignatureSealed, ChainLinked;
    var longer, j := log[..k] + [e] + log[k..], if i < k then i else i + 1;
    assert longer[j] == log[i];
    assert i != k ==> Predecessor(longer, j) == Predecessor(log, i);
    assert i == k ==> Predecessor(longer, j) == Some(e);
    LinkedAt(c, longer, j);
  }

  /** No row names an event that is not in the table yet as its predecessor. */
  lemma NotSealedAfter(rows: seq<ActionEvent>, e: ActionEvent, x: ActionEvent)
    requires PrevsEarlier(rows) && !Refused(rows, e) && x in rows && x.sessionId == e.sessionId
    requires HashesApart(BySession(rows + [e], e.sessionId))
    ensures x.prevHash != e.contentHash
  {
    hide BySession, HashesApart;
    var log := BySession(rows + [e], e.sessionId);
    BySessionMembers(rows + [e], e.sessionId, e);
    MemberHasHash(log, e);
    var b :| 0 <= b < |rows| && rows[b] == x;
    assert PrevIn(rows[..b], x.sessionId, x.prevHash);
    if x.prevHash == e.contentHash {
      var a :| 0 <= a < b && rows[..b][a].sessionId == e.sessionId && rows[..b][a].contentHash == e.contentHash;
      BySessionMembers(rows + [e], e.sessionId, rows[a]);
      ApartByHash(log, rows[a], e);
    }
  }

  /** Events of a log without clashes have no clashes. */
  lemma ApartSublist(log: seq<ActionEvent>, part: seq<ActionEvent>)
    requires HashesApart(log) && Ascending(part) && forall x :: x in part ==> x in log
    ensures HashesApart(part)
  {
    hide HashesApart;
    forall i | 0 <= i < |part|
      ensures part[i].contentHash != ZERO32
    {
      MemberHasHash(log, part[i]);
    }
    forall i, j | 0 <= i < j < |part|
      ensures part[i].contentHash != part[j].contentHash
    {
      if part[i].contentHash == part[j].contentHash {
        ApartByHash(log, part[i], part[j]);
      }
    }
    AllApart(part);
  }

  lemma AllApart(log: seq<ActionEvent>)
    requires forall i :: 0 <= i < |log| ==> log[i].contentHash != ZERO32
    requires forall i, j :: 0 <= i < j < |log| ==> log[i].contentHash != log[j].contentHash
    ensures HashesApart(log)
  {
  }

  // Roots

  /** What the root of a session's earlier rows gives away by being the root of its present rows. */
  function StaleRoot(h: Hash, before: seq<ActionEvent>, rows: seq<ActionEvent>, sessionId: Bytes): Evidence {
    var log := BySession(rows, sessionId);
    var xs, ys := ContentHashes(BySession(before, sessionId)), ContentHashes(log);
    if |ys| == 0 || Clash(log) != NoEvidence then Clash(log)
    else if |xs| == 0 then
      var path := Merkle.PathOf(h, ys, 0);
      ZeroPreimage(ClimbPreimage(h, ys[0], path, 0, |path|))
    else
      var found := ListsCollision(h, xs, ys);
      if found.Some? then Collision(found.value) else NoEvidence
  }

  lemma HashesDoNotRepeat(rows: seq<ActionEvent>, sessionId: Bytes, log: seq<ActionEvent>)
    requires KeysUnique(rows) && HashesApart(log)
    requires forall x :: x in BySession(rows, sessionId) ==> x in log
    ensures NoRepeats(ContentHashes(BySession(rows, sessionId)))
  {
    hide BySession, KeysUnique, HashesApart, ContentHashes;
    var events := BySession(rows, sessionId);
    BySessionAscends(rows, sessionId);
    forall i, j | 0 <= i < j < |events|
      ensures ContentHashes(events)[i] != ContentHashes(events)[j]
    {
      ContentHashesAt(events, i);
      ContentHashesAt(events, j);
      assert events[i] in events && events[j] in events;
      if events[i].contentHash == events[j].contentHash {
        ApartByHash(log, events[i], events[j]);
      }
    }
  }

  /** The root of earlier rows is the present one only if no row of the session came since, or with evidence. */
  lemma StaleRootIsGenuine(c: Suite, rows: seq<ActionEvent>, k: nat, sessionId: Bytes)
    requires KeysUnique(rows) && SealedLog(c, BySession(rows, sessionId)) && k <= |rows|
    requires !NoRowSince(rows, k, sessionId)
    requires SessionRoot(c, rows, sessionId) == SessionRoot(c, rows[..k], sessionId)
    ensures Genuine(c.hash, StaleRoot(c.hash, rows[..k], rows, sessionId))
  {
    hide BySession, KeysUnique, HashesApart, ContentHashes, Clash, SealedLog, NoRowSince, ListsCollision, Merkle.RootOf,
         Merkle.PathOf, ClimbPreimage, NoRepeats;
    var log, earlier := BySession(rows, sessionId), BySession(rows[..k], sessionId);
    var xs, ys := ContentHashes(earlier), ContentHashes(log);
    RowsSince(rows, k, sessionId);
    BySessionAscends(rows, sessionId);
    ClashIsGenuine(c, log);
    if Clash(log) == NoEvidence {
      if |xs| == 0 {
        EmptyHashes(earlier);
        Merkle.PathVerifies(c.hash, ys, 0);
        EmptyRootNeedsPreimage(c.hash, ys[0], Merkle.PathOf(c.hash, ys, 0), 0);
      } else {
        EarlierInLog(rows, k, sessionId);
        PrefixKeys(rows, k);
        HashesDoNotRepeat(rows, sessionId, log);
        HashesDoNotRepeat(rows[..k], sessionId, log);
        RootBindsLeaves(c.hash, xs, ys);
      }
    }
  }

  lemma EmptyHashes(events: seq<ActionEvent>)
    requires |events| == 0
    ensures ContentHashes(events) == []
  {
  }

  lemma PrefixKeys(rows: seq<ActionEvent>, k: nat)
    requires KeysUnique(rows) && k <= |rows|
    ensures KeysUnique(rows[..k])
  {
  }

  lemma EarlierInLog(rows: seq<ActionEvent>, k: nat, sessionId: Bytes)
    requires k <= |rows|
    ensures forall x :: x in BySession(rows[..k], sessionId) ==> x in BySession(rows, sessionId)
  {
    hide BySession;
    forall x | x in BySession(rows[..k], sessionId)
      ensures x in BySession(rows, sessionId)
    {
      BySessionMembers(rows[..k], sessionId, x);
      BySessionMembers(rows, sessionId, x);
    }
  }
}
