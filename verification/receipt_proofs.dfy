/**
 End to end: which receipts verify. Soundness says that what verifies was recorded, and
 completeness that what was recorded verifies; each exception is a computed collision or a
 condition on the ledger's state.
 */
module ReceiptProofs {
  import opened ByteStrings
  import opened Wrappers
  import opened Crypto
  import opened Records
  import opened Graph
  import opened Seal
  import opened GrantTable
  import opened EventTable
  import opened LedgerState
  import opened Operations
  import opened Runs
  import opened LosslessRuns
  import opened Receipts
  import opened CanonDecoding
  import opened MerkleBinding
  import Canon
  import Merkle

  // Soundness

  /** The first event of a log with a content hash. */
  function WithHash(log: seq<ActionEvent>, hash: Bytes): Option<ActionEvent> {
    if |log| == 0 then None
    else if log[0].contentHash == hash then Some(log[0])
    else WithHash(log[1..], hash)
  }

  lemma HashIsFound(log: seq<ActionEvent>, hash: Bytes)
    requires hash in ContentHashes(log)
    ensures WithHash(log, hash).Some?
    ensures WithHash(log, hash).value in log && WithHash(log, hash).value.contentHash == hash
  {
    var i :| 0 <= i < |log| && ContentHashes(log)[i] == hash;
    ContentHashesAt(log, i);
    HashIsFoundAt(log, hash, i);
  }

  lemma {:induction false} HashIsFoundAt(log: seq<ActionEvent>, hash: Bytes, i: nat)
    requires i < |log| && log[i].contentHash == hash
    ensures WithHash(log, hash).Some?
    ensures WithHash(log, hash).value in log && WithHash(log, hash).value.contentHash == hash
  {
    if log[0].contentHash != hash {
      HashIsFoundAt(log[1..], hash, i - 1);
    }
  }

  /** The collision that a verifying path for an unrecorded event gives away. */
  function UnrecordedCollision(h: Hash, log: seq<ActionEvent>, e: ActionEvent, path: seq<Bytes>, index: int)
    : Option<Pair>
    requires |log| >= 1
  {
    var found := BindingCollision(h, ContentHashes(log), e.contentHash, path, index);
    var twin := WithHash(log, e.contentHash);
    if found.Some? then found
    else if twin.None? || Canon.EventBytes(twin.value) == Canon.EventBytes(e) then None
    else Some(Pair(Canon.EventBytes(e), Canon.EventBytes(twin.value)))
  }

  ghost predicate SealedLog(c: Suite, log: seq<ActionEvent>) {
    forall e :: e in log ==> ContentSealed(c, e) && Sized(e)
  }

  /** An event of the log agrees with e on everything the canonical bytes hold, the sequence among them. */
  ghost predicate HasTwin(log: seq<ActionEvent>, e: ActionEvent) {
    exists f :: f in log && CoreOf(f) == CoreOf(e)
  }

  lemma VerifyingMeansRecorded(c: Suite, log: seq<ActionEvent>, e: ActionEvent, path: seq<Bytes>, index: int)
    requires |log| >= 1 && SealedLog(c, log) && Sized(e) && ContentSealed(c, e)
    requires Merkle.Verifies(c.hash, e.contentHash, path, Merkle.RootOf(c.hash, ContentHashes(log)), index)
    ensures var pair := UnrecordedCollision(c.hash, log, e, path, index);
      if pair.Some? then Collides(c.hash, pair.value.fst, pair.value.snd) else HasTwin(log, e)
  {
    hide Canon.EventBytes, Merkle.RootOf, Merkle.Verifies, BindingCollision, Tower, ContentHashes, WithHash, Sized,
         HasTwin, SealedLog, ContentSealed;
    RootBindsLeaf(c.hash, ContentHashes(log), e.contentHash, path, index);
    if e.contentHash in ContentHashes(log) {
      TwinAgrees(c, log, e);
    }
  }

  /** The event of a sealed log with the same content hash: same core, or the canonical bytes collide. */
  lemma TwinAgrees(c: Suite, log: seq<ActionEvent>, e: ActionEvent)
    requires SealedLog(c, log) && Sized(e) && ContentSealed(c, e) && e.contentHash in ContentHashes(log)
    ensures var twin := WithHash(log, e.contentHash);
      && twin.Some?
      && twin.value in log
      && c.hash.Of(Canon.EventBytes(e)) == c.hash.Of(Canon.EventBytes(twin.value))
      && (Canon.EventBytes(twin.value) == Canon.EventBytes(e) ==> HasTwin(log, e))
  {
    hide Canon.EventBytes, ContentHashes, WithHash, Sized, CoreOf;
    HashIsFound(log, e.contentHash);
    EventBytesDetermineCore(WithHash(log, e.contentHash).value, e);
  }

  function ReceiptCollision(h: Hash, log: seq<ActionEvent>, p: Proof): Option<Pair>
    requires |log| >= 1
  {
    UnrecordedCollision(h, log, p.event, p.merklePath, WrapInt64(p.event.sequence - 1))
  }

  /**
   Receipt soundness: if a proof convinces and its root is that of a nonempty sealed log, an
   event of the log agrees with the proof's event on everything the canonical bytes hold, its
   sequence among them, or the computed pair is a collision.
   */
  lemma ConvincingMeansRecorded(c: Suite, v: Verifier, p: Proof, now: int, log: seq<ActionEvent>)
    requires |log| >= 1 && SealedLog(c, log) && Sized(p.event)
    requires p.merkleRoot == Merkle.RootOf(c.hash, ContentHashes(log))
    requires Convinces(c, v, p, now)
    ensures var pair := ReceiptCollision(c.hash, log, p);
      if pair.Some? then Collides(c.hash, pair.value.fst, pair.value.snd) else HasTwin(log, p.event)
  {
    hide Merkle.RootOf, Merkle.Verifies, UnrecordedCollision, ContentHashes, Sized, HasTwin, SealedLog, ContentSealed,
         AuthorityHolds, SignatureHolds, AnchorMatches;
    VerifyingMeansRecorded(c, log, p.event, p.merklePath, WrapInt64(p.event.sequence - 1));
  }

  /**
   The same for a root that the ledger had at any moment of any run, in particular for every
   anchor it stored: the proof's event is, up to its canonical bytes, a row of the ledger.
   */
  lemma ConvincingMeansInLedger(c: Suite, v: Verifier, p: Proof, now: int, w: Ledger, sessionId: Bytes, k: nat)
    requires Sound(c, w) && Sized(p.event) && forall e :: e in w.events ==> Sized(e)
    requires k <= |w.events| && BySession(w.events[..k], sessionId) != []
    requires p.merkleRoot == SessionRoot(c, w.events[..k], sessionId)
    requires Convinces(c, v, p, now)
    ensures var pair := ReceiptCollision(c.hash, BySession(w.events[..k], sessionId), p);
      if pair.Some? then Collides(c.hash, pair.value.fst, pair.value.snd) else HasTwin(w.events, p.event)
  {
    hide Issued, KeysUnique, AnchorsSound, SessionsSound, OfSession, ContentSealed, SignatureSealed, ChainAccepted,
         PrevIn, BySession, ReceiptCollision, Convinces, CoreOf, Sized, Merkle.RootOf, ContentHashes;
    var log := BySession(w.events[..k], sessionId);
    forall e | e in log
      ensures e in w.events && ContentSealed(c, e)
    {
      BySessionMembers(w.events[..k], sessionId, e);
      var i :| 0 <= i < k && w.events[i] == e;
      assert EventSound(c, w.grants, w.sessions, w.events[i]);
    }
    ConvincingMeansRecorded(c, v, p, now, log);
  }

  /**
   A convincing proof under a stored anchor's root: k rows were logged when that root was
   computed. If none of them was the session's, the proof gives a preimage of 32 zero bytes.
   */
  lemma AnchoredMeansInLedger(c: Suite, v: Verifier, p: Proof, now: int, w: Ledger, sessionId: Bytes) returns (k: nat)
    requires Sound(c, w) && Sized(p.event) && forall e :: e in w.events ==> Sized(e)
    requires sessionId in w.anchors && p.merkleRoot == w.anchors[sessionId].root && Convinces(c, v, p, now)
    ensures k <= |w.events| && p.merkleRoot == SessionRoot(c, w.events[..k], sessionId)
    ensures if BySession(w.events[..k], sessionId) == [] then
        var index := WrapInt64(p.event.sequence - 1);
        c.hash.Of(ClimbPreimage(c.hash, p.event.contentHash, p.merklePath, index, |p.merklePath|)) == ZERO32
      else
        var pair := ReceiptCollision(c.hash, BySession(w.events[..k], sessionId), p);
        if pair.Some? then Collides(c.hash, pair.value.fst, pair.value.snd) else HasTwin(w.events, p.event)
  {
    hide Issued, KeysUnique, EventsSound, SessionsSound, SessionRoot, BySession, ReceiptCollision, Convinces, HasTwin,
         Sized;
    k :| 0 <= k <= |w.events| && p.merkleRoot == SessionRoot(c, w.events[..k], sessionId);
    if BySession(w.events[..k], sessionId) != [] {
      ConvincingMeansInLedger(c, v, p, now, w, sessionId, k);
    } else {
      EmptyLogRoot(c, w.events[..k], sessionId);
      ConvincingIsIncluded(c, v, p, now);
      EmptyRootNeedsPreimage(c.hash, p.event.contentHash, p.merklePath, WrapInt64(p.event.sequence - 1));
    }
  }

  lemma EmptyLogRoot(c: Suite, rows: seq<ActionEvent>, sessionId: Bytes)
    requires BySession(rows, sessionId) == []
    ensures SessionRoot(c, rows, sessionId) == Merkle.RootOf(c.hash, [])
  {
    assert ContentHashes(BySession(rows, sessionId)) == [];
  }

  lemma ConvincingIsIncluded(c: Suite, v: Verifier, p: Proof, now: int)
    requires Convinces(c, v, p, now)
    ensures Merkle.Verifies(c.hash, p.event.contentHash, p.merklePath, p.merkleRoot, WrapInt64(p.event.sequence - 1))
  {
    hide ContentSealed, SignatureHolds, AuthorityHolds, Merkle.Verifies;
  }

  /** The event with another previous hash, signed by the notary. */
  function WithHistory(c: Suite, e: ActionEvent, history: Bytes): ActionEvent {
    e.(prevHash := history, notarySignature := Signature(c, e.contentHash + history))
  }

  lemma HistoryKeepsBytes(c: Suite, e: ActionEvent, history: Bytes)
    ensures Canon.EventBytes(WithHistory(c, e, history)) == Canon.EventBytes(e)
  {
    hide Canon.Field, Signature;
    assert Canon.EventTail(WithHistory(c, e, history)) == Canon.EventTail(e);
  }

  /**
   A verdict says nothing about the event before: a convincing proof convinces with any other
   previous hash that the notary signed.
   */
  lemma HistoryIsNotChecked(c: Suite, p: Proof, now: int, history: Bytes)
    requires Convinces(c, NotaryVerifier(c), p, now)
    ensures Convinces(c, NotaryVerifier(c), p.(event := WithHistory(c, p.event, history)), now)
  {
    hide Merkle.Verifies, ChainHolds, Canon.EventBytes;
    HistoryKeepsBytes(c, p.event, history);
  }

  // Which receipts of recorded events verify

  /** Where a logged event stands in its session's log. */
  lemma EventPosition(w: Ledger, e: ActionEvent) returns (i: nat)
    requires KeysUnique(w.events) && e in w.events
    ensures i < |BySession(w.events, e.sessionId)| && BySession(w.events, e.sessionId)[i] == e
  {
    BySessionMembers(w.events, e.sessionId, e);
    i :| 0 <= i < |BySession(w.events, e.sessionId)| && BySession(w.events, e.sessionId)[i] == e;
  }

  lemma LoggedEventIsSound(c: Suite, w: Ledger, e: ActionEvent)
    requires Sound(c, w) && e in w.events
    ensures EventSound(c, w.grants, w.sessions, e)
  {
    hide Issued, KeysUnique, AnchorsSound, SessionsSound, EventSound, PrevIn;
    var i :| 0 <= i < |w.events| && w.events[i] == e;
  }

  /** Reads of `GetInclusionProof` that a convincing proof needs. */
  const PROOF_READS := {GetEvent, Call.EventsBySession, GetAnchor, Call.GrantChain}

  /** No sequence below the event's was lost, and the stored anchor is the root of the present log. */
  predicate Provable(c: Suite, w: Ledger, e: ActionEvent) {
    && MissingBelow(w.events, e.sessionId, e.sequence) == 0
    && e.sessionId in w.anchors
    && w.anchors[e.sessionId].root == SessionRoot(c, w.events, e.sessionId)
  }

  /** The proof of a logged event, as far as it exists, convinces under the notary's key. */
  predicate ProofConvinces(c: Suite, w: Ledger, e: ActionEvent, down: set<Call>, now: int) {
    var r := InclusionProof(c, w, e.eventId, down);
    r.Ok? && Convinces(c, NotaryVerifier(c), r.value, now)
  }

  /** The collision that a wrong leaf index verifying all the same gives away. */
  function GapCollision(h: Hash, w: Ledger, e: ActionEvent): Option<Pair> {
    var log := BySession(w.events, e.sessionId);
    var index := e.sequence - 1;
    if !(0 <= index < |log|) || log[index] == e then None
    else
      var leaves := ContentHashes(log);
      var found := BindingCollision(h, leaves, e.contentHash, Merkle.PathOf(h, leaves, index), index);
      if found.Some? then found else Some(Pair(Canon.EventBytes(e), Canon.EventBytes(log[index])))
  }

  /** The content, signature and authority checks pass for every logged event at every time. */
  lemma LoggedEventIsAuthentic(c: Suite, w: Ledger, e: ActionEvent, now: int)
    requires Sound(c, w) && e in w.events
    ensures ContentSealed(c, e) && SignatureHolds(c, NotaryVerifier(c), e)
    ensures var chain := ChainOf(w.grants, e.grantId);
      |chain| > 0 && ChainHolds(c, NotaryVerifier(c), chain, now) && chain[|chain| - 1].grantId == e.grantId
  {
    hide KeysUnique, AnchorsSound, SessionsSound, EventsSound, Issued, ChainHolds, ChainOf, ContentSealed;
    LoggedEventIsSound(c, w, e);
    AcceptedAtAnyTime(c, w.grants, e.grantId, now);
    ChainIsDelegated(c, w.grants, e.grantId);
  }

  /** Without lower losses the index sequence - 1 is the event's place, and its path verifies. */
  lemma RightIndexIncluded(c: Suite, w: Ledger, e: ActionEvent)
    requires Sound(c, w) && e in w.events && MissingBelow(w.events, e.sessionId, e.sequence) == 0
    ensures var leaves := ContentHashes(BySession(w.events, e.sessionId));
      && 0 <= e.sequence - 1 < |leaves|
      && BySession(w.events, e.sessionId)[e.sequence - 1] == e
      && Merkle.Verifies(c.hash, e.contentHash, Merkle.PathOf(c.hash, leaves, e.sequence - 1),
                         Merkle.RootOf(c.hash, leaves), e.sequence - 1)
  {
    hide EventsSound, AnchorsSound, SessionsSound, Issued, BySession, MissingBelow, ContentHashes, Merkle.PathOf,
         Merkle.RootOf, Merkle.Verifies;
    var log := BySession(w.events, e.sessionId);
    var i := EventPosition(w, e);
    SequencesPositive(c, w, e.sessionId);
    SequenceGap(w.events, e.sessionId, i);
    ContentHashesAt(log, i);
    Merkle.PathVerifies(c.hash, ContentHashes(log), i);
  }

  lemma SequencesPositive(c: Suite, w: Ledger, sessionId: Bytes)
    requires Sound(c, w)
    ensures forall x :: x in w.events && x.sessionId == sessionId ==> x.sequence >= 1
  {
    hide Sound, EventSound;
    forall x | x in w.events
      ensures x.sequence >= 1
    {
      LoggedEventIsSound(c, w, x);
      SoundIsNumbered(c, w, x);
    }
  }

  lemma SoundIsNumbered(c: Suite, w: Ledger, e: ActionEvent)
    requires EventSound(c, w.grants, w.sessions, e)
    ensures e.sequence >= 1
  {
    hide ContentSealed, SignatureSealed, ChainAccepted;
  }

  /** With a lower loss the index, if it is one of the log's, is that of an event with another sequence. */
  lemma WrongIndexIsAnother(c: Suite, w: Ledger, e: ActionEvent)
    requires Sound(c, w) && e in w.events && MissingBelow(w.events, e.sessionId, e.sequence) > 0
    requires 0 <= e.sequence - 1 < |BySession(w.events, e.sessionId)|
    ensures var other := BySession(w.events, e.sessionId)[e.sequence - 1];
      other in w.events && other.sequence != e.sequence
  {
    hide EventsSound, AnchorsSound, SessionsSound, Issued, BySession, MissingBelow, KeysUnique, Logged;
    var i := EventPosition(w, e);
    SequencesPositive(c, w, e.sessionId);
    SequenceGap(w.events, e.sessionId, i);
    BySessionAscends(w.events, e.sessionId);
    MemberIsLogged(w.events, e.sessionId, e.sequence - 1);
  }

  /** A path that verifies there all the same is a collision. */
  lemma WrongIndexCollides(c: Suite, w: Ledger, e: ActionEvent)
    requires Sound(c, w) && e in w.events && forall x :: x in w.events ==> Sized(x)
    requires MissingBelow(w.events, e.sessionId, e.sequence) > 0
    requires 0 <= e.sequence - 1 < |BySession(w.events, e.sessionId)|
    requires var leaves := ContentHashes(BySession(w.events, e.sessionId));
      Merkle.Verifies(c.hash, e.contentHash, Merkle.PathOf(c.hash, leaves, e.sequence - 1),
                      Merkle.RootOf(c.hash, leaves), e.sequence - 1)
    ensures var pair := GapCollision(c.hash, w, e); pair.Some? && Collides(c.hash, pair.value.fst, pair.value.snd)
  {
    hide Sound, BySession, MissingBelow, ContentHashes, Merkle.PathOf, Merkle.RootOf, Merkle.Verifies,
         BindingCollision, Tower, Canon.EventBytes, Sized;
    var log := BySession(w.events, e.sessionId);
    var leaves, index := ContentHashes(log), e.sequence - 1;
    WrongIndexIsAnother(c, w, e);
    ContentHashesAt(log, index);
    RootBindsLeaf(c.hash, leaves, e.contentHash, Merkle.PathOf(c.hash, leaves, index), index);
    ContentsSealed(c, w, e, log[index]);
    DifferentSequencesDifferentBytes(e, log[index]);
  }

  lemma ContentsSealed(c: Suite, w: Ledger, e: ActionEvent, f: ActionEvent)
    requires Sound(c, w) && e in w.events && f in w.events
    ensures ContentSealed(c, e) && ContentSealed(c, f)
  {
    hide Sound, ContentSealed, SignatureSealed, ChainAccepted, OfSession;
    LoggedEventIsSound(c, w, e);
    LoggedEventIsSound(c, w, f);
  }

  lemma DifferentSequencesDifferentBytes(e: ActionEvent, f: ActionEvent)
    requires Sized(e) && Sized(f) && e.sequence != f.sequence
    ensures Canon.EventBytes(e) != Canon.EventBytes(f)
  {
    hide Canon.EventBytes, Sized;
    EventBytesDetermineCore(e, f);
  }

  /**
   Exactly which proofs verify: in every sound state, the proof that `GetInclusionProof` gives
   for a logged event convinces at any time if and only if its reads succeed, no lower sequence
   of the session was lost, and the stored anchor is the root of the session's present rows;
   or else the computed pair is a collision.
   */
  lemma ProofConvincesExactly(c: Suite, w: Ledger, e: ActionEvent, down: set<Call>, now: int)
    requires Sound(c, w) && e in w.events && forall x :: x in w.events ==> Sized(x)
    ensures (ProofConvinces(c, w, e, down, now) <==> down !! PROOF_READS && Provable(c, w, e))
         || (var pair := GapCollision(c.hash, w, e);
             pair.Some? && Collides(c.hash, pair.value.fst, pair.value.snd))
  {
    hide EventsSound, AnchorsSound, SessionsSound, Issued, BySession, MissingBelow, ContentHashes, Merkle.PathOf,
         Merkle.RootOf, Merkle.Verifies, ContentSealed, GapCollision, ChainHolds, ChainOf, Sized, FindEvent, Accepts;
    FindEventFinds(w.events, e);
    LoggedEventIsSound(c, w, e);
    LoggedEventIsAuthentic(c, w, e, now);
    if MissingBelow(w.events, e.sessionId, e.sequence) == 0 {
      RightIndexIncluded(c, w, e);
    } else if ProofConvinces(c, w, e, down, now) {
      WrongIndexCollides(c, w, e);
    }
  }

  /** Every event that meets the condition has a convincing proof at every time. */
  lemma ProvableConvinces(c: Suite, w: Ledger, e: ActionEvent, now: int)
    requires Sound(c, w) && e in w.events && Provable(c, w, e)
    ensures ProofConvinces(c, w, e, {}, now) && InclusionProof(c, w, e.eventId, {}).value.event == e
  {
    hide EventsSound, AnchorsSound, SessionsSound, Issued, BySession, MissingBelow, ContentHashes, Merkle.PathOf,
         Merkle.RootOf, Merkle.Verifies, ContentSealed, ChainHolds, ChainOf, FindEvent, Accepts;
    FindEventFinds(w.events, e);
    LoggedEventIsSound(c, w, e);
    LoggedEventIsAuthentic(c, w, e, now);
    RightIndexIncluded(c, w, e);
  }

  /**
   Receipt completeness: after any lossless run of non-overlapping operations, the receipt
   built from the proof of any recorded event gets a true verdict, now and at any later time.
   */
  lemma RecordedMeansConvincing(c: Suite, ops: seq<Op>, e: ActionEvent, now: int)
    requires FreshIds(c, EMPTY_LEDGER, ops) && AllLossless(c, EMPTY_LEDGER, ops)
    requires e in Run(c, EMPTY_LEDGER, ops).events
    ensures var w := Run(c, EMPTY_LEDGER, ops);
      var r := InclusionProof(c, w, e.eventId, {});
      && r.Ok?
      && r.value.event == e
      && var receipt := Build(r.value, NOTARY_KEY, c.pub);
         Convinces(c, Verifier(receipt.keyId, receipt.publicKey.value), receipt.proof.value, now)
  {
    hide Sound, Complete, Convinces, InclusionProof, Provable, Run, AllLossless, FreshIds;
    RunIsSound(c, ops);
    RunIsComplete(c, ops);
    NothingLost(c, Run(c, EMPTY_LEDGER, ops), e);
    ProvableConvinces(c, Run(c, EMPTY_LEDGER, ops), e, now);
  }

  lemma NothingLost(c: Suite, w: Ledger, e: ActionEvent)
    requires Sound(c, w) && Complete(c, w) && e in w.events
    ensures Provable(c, w, e)
  {
    hide EventsSound, AnchorsSound, SessionsSound, Issued, BySession, MissingBelow, SessionRoot;
    var i := EventPosition(w, e);
    SequencesPositive(c, w, e.sessionId);
    SequenceGap(w.events, e.sessionId, i);
    assert Contiguous(w, e.sessionId) && AnchoredNow(c, w, e.sessionId);
  }

  // The key id

  /**
   Chains are checked under the notary's fixed key id while the event's signature is checked
   under the receipt's own: a delegated grant has authority only under the notary's key id.
   */
  lemma DelegationsNeedNotaryKeyId(c: Suite, v: Verifier, p: Proof, now: int)
    requires AuthorityHolds(c, v, p, now) && |p.delegationChain| > 1
    ensures v.keyId == NOTARY_KEY
  {
    assert LinkHolds(c, v, p.delegationChain[0], p.delegationChain[1]);
  }
}
