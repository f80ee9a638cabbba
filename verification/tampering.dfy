/**
 What changing one part of a genuine receipt does to its flags, and what expiry does to authority.
 Each method reads a changed receipt back with the code of both verifiers.
 */
module Tampering {
  import opened ByteStrings
  import opened Wrappers
  import opened Crypto
  import opened Records
  import opened Graph
  import opened LedgerState
  import opened Operations
  import opened Runs
  import opened LosslessRuns
  import opened Receipts
  import opened ReceiptProofs
  import opened CanonDecoding
  import Canon

  /** The proof of a recorded event after a lossless run. */
  function GenuineProof(c: Suite, ops: seq<Op>, e: ActionEvent): (p: Option<Proof>) {
    var r := InclusionProof(c, Run(c, EMPTY_LEDGER, ops), e.eventId, {});
    if r.Ok? then Some(r.value) else None
  }

  ghost predicate RecordedIn(c: Suite, ops: seq<Op>, e: ActionEvent) {
    && FreshIds(c, EMPTY_LEDGER, ops) && AllLossless(c, EMPTY_LEDGER, ops)
    && e in Run(c, EMPTY_LEDGER, ops).events
  }

  lemma GenuineProofIs(c: Suite, ops: seq<Op>, e: ActionEvent, now: int)
    requires RecordedIn(c, ops, e)
    ensures GenuineProof(c, ops, e).Some? && GenuineProof(c, ops, e).value.event == e
    ensures Convinces(c, Verifier(NOTARY_KEY, c.pub), GenuineProof(c, ops, e).value, now)
  {
    hide *;
    RecordedParts(c, ops, e);
    RecordedMeansConvincing(c, ops, e, now);
    GenuineParts(c, ops, e);
    BuildParts(GenuineProof(c, ops, e).value, NOTARY_KEY, c.pub);
  }

  lemma RecordedParts(c: Suite, ops: seq<Op>, e: ActionEvent)
    requires RecordedIn(c, ops, e)
    ensures FreshIds(c, EMPTY_LEDGER, ops) && AllLossless(c, EMPTY_LEDGER, ops)
    ensures e in Run(c, EMPTY_LEDGER, ops).events
  {
  }

  lemma GenuineParts(c: Suite, ops: seq<Op>, e: ActionEvent)
    ensures var r := InclusionProof(c, Run(c, EMPTY_LEDGER, ops), e.eventId, {});
      GenuineProof(c, ops, e) == if r.Ok? then Some(r.value) else None
  {
    hide InclusionProof, Run;
  }

  lemma BuildParts(p: Proof, keyId: Bytes, key: Bytes)
    ensures Build(p, keyId, key) == Receipt(Some(p), keyId, Some(key))
  {
  }

  /**
   A forged signature: the receipt of a recorded event with any signature that the notary's key
   rejects is refused by both verifiers, for this and no other reason.
   */
  method ForgeSignature(c: Suite, ops: seq<Op>, e: ActionEvent, forged: Bytes, now: int)
    returns (out: Outcome, answer: ProofResponse)
    requires RecordedIn(c, ops, e) && !c.check(c.pub, e.contentHash + e.prevHash, forged)
    ensures !out.signatureValid && !out.verdict
    ensures out.contentIntact && out.included && out.anchored && out.authorityValid
    ensures !answer.valid && !answer.signatureValid && answer.reason == BadSignature
    ensures answer.chainIntact && answer.anchored && answer.authorityValid
  {
    hide *;
    GenuineProofIs(c, ops, e, now);
    var p := GenuineProof(c, ops, e).value;
    var v := Verifier(NOTARY_KEY, c.pub);
    ConvincesMeans(c, v, p, now);
    NotaryIs(c);
    var changed := e.(notarySignature := forged);
    SignatureOutsideBytes(e, forged);
    var q := p.(event := changed);
    var res := Verify(c, Receipt(Some(q), NOTARY_KEY, Some(c.pub)), now);
    out := res.value;
    answer := VerifyProof(c, q, now);
  }

  lemma NotaryIs(c: Suite)
    ensures NotaryVerifier(c) == Verifier(NOTARY_KEY, c.pub)
  {
  }

  lemma SignatureOutsideBytes(e: ActionEvent, signature: Bytes)
    ensures Canon.EventBytes(e.(notarySignature := signature)) == Canon.EventBytes(e)
  {
    hide Canon.Field;
    assert Canon.EventTail(e.(notarySignature := signature)) == Canon.EventTail(e);
  }

  /**
   Changed content: with another event under the recorded hashes and signature the content flag and
   the verdict are false, unless the two events' canonical bytes collide.
   */
  method ChangeContent(c: Suite, ops: seq<Op>, e: ActionEvent, other: ActionEvent, now: int)
    returns (out: Outcome, answer: ProofResponse)
    requires RecordedIn(c, ops, e) && Sized(e) && Sized(other) && CoreOf(other) != CoreOf(e)
    requires other.contentHash == e.contentHash
    ensures out.contentIntact || out.verdict ==> Collides(c.hash, Canon.EventBytes(e), Canon.EventBytes(other))
    ensures answer.valid || answer.reason != HashMismatch ==>
      Collides(c.hash, Canon.EventBytes(e), Canon.EventBytes(other))
  {
    hide *;
    GenuineProofIs(c, ops, e, now);
    var p := GenuineProof(c, ops, e).value;
    ConvincesMeans(c, Verifier(NOTARY_KEY, c.pub), p, now);
    EventBytesDetermineCore(e, other);
    CollidesMeans(c.hash, Canon.EventBytes(e), Canon.EventBytes(other));
    var q := p.(event := other);
    var res := Verify(c, Receipt(Some(q), NOTARY_KEY, Some(c.pub)), now);
    out := res.value;
    answer := VerifyProof(c, q, now);
  }

  lemma CollidesMeans(h: Hash, a: Bytes, b: Bytes)
    ensures Collides(h, a, b) <==> a != b && h.Of(a) == h.Of(b)
  {
  }

  /** An expired grant: whatever the receipt, one grant of its chain past its expiry refuses it. */
  method ExpiredGrant(c: Suite, r: Receipt, now: int, i: nat) returns (res: Result<Outcome, ReceiptError>)
    requires r.proof.Some? && i < |r.proof.value.delegationChain|
    requires var g := r.proof.value.delegationChain[i]; g.expiresAt.Some? && g.expiresAt.value < now
    ensures res.Ok? ==> !res.value.authorityValid && !res.value.verdict
  {
    hide *;
    res := Verify(c, r, now);
    if res.Ok? {
      ChainVerdictMeans(c, Verifier(r.keyId, r.publicKey.value), r.proof.value.delegationChain, now);
    }
  }

  /** Another anchor, or none: not anchored, and refused. */
  method ChangeAnchor(c: Suite, ops: seq<Op>, e: ActionEvent, anchor: Option<Anchor>, now: int)
    returns (out: Outcome, answer: ProofResponse)
    requires RecordedIn(c, ops, e)
    ensures GenuineProof(c, ops, e).Some?
    ensures anchor.None? || anchor.value.root != GenuineProof(c, ops, e).value.merkleRoot ==>
      !out.anchored && !out.verdict && !answer.anchored
    ensures out.contentIntact && out.signatureValid && out.included && out.authorityValid && answer.valid
  {
    hide *;
    GenuineProofIs(c, ops, e, now);
    var p := GenuineProof(c, ops, e).value;
    ConvincesMeans(c, Verifier(NOTARY_KEY, c.pub), p, now);
    NotaryIs(c);
    var q := p.(anchor := anchor);
    var res := Verify(c, Receipt(Some(q), NOTARY_KEY, Some(c.pub)), now);
    out := res.value;
    answer := VerifyProof(c, q, now);
  }
}
