/** Receipts and the two verifiers: the offline one and the service's. */
module Receipts {
  import opened ByteStrings
  import opened Wrappers
  import opened Crypto
  import opened Records
  import opened Graph
  import opened Seal
  import Canon
  import Merkle

  /**
   A receipt as it is read back: the proof, unless its JSON does not parse, the key id, and
   the public key, unless its base64 does not decode.
   */
  datatype Receipt = Receipt(proof: Option<Proof>, keyId: Bytes, publicKey: Option<Bytes>)

  datatype ReceiptError = UnreadableProof | UnreadableKey

  datatype Outcome = Outcome(
    contentIntact: bool,
    signatureValid: bool,
    included: bool,
    anchored: bool,
    authorityValid: bool,
    verdict: bool)

  function Build(proof: Proof, keyId: Bytes, publicKey: Bytes): Receipt {
    Receipt(Some(proof), keyId, Some(publicKey))
  }

  // What the checks ask

  predicate Included(h: Hash, p: Proof) {
    Merkle.Verifies(h, p.event.contentHash, p.merklePath, p.merkleRoot, WrapInt64(p.event.sequence - 1))
  }

  predicate AnchorMatches(p: Proof) {
    p.anchor.Some? && p.anchor.value.root == p.merkleRoot
  }

  predicate AuthorityHolds(c: Suite, v: Verifier, p: Proof, now: int) {
    && |p.delegationChain| > 0
    && ChainHolds(c, v, p.delegationChain, now)
    && p.delegationChain[|p.delegationChain| - 1].grantId == p.event.grantId
  }

  /** `verifier.Verify(signed, sig, r.KeyID)`: the receipt's own key id, whatever it is. */
  predicate SignatureHolds(c: Suite, v: Verifier, e: ActionEvent) {
    Accepts(c, v, e.contentHash + e.prevHash, e.notarySignature, v.keyId)
  }

  predicate Convinces(c: Suite, v: Verifier, p: Proof, now: int) {
    && ContentSealed(c, p.event)
    && SignatureHolds(c, v, p.event)
    && Included(c.hash, p)
    && AnchorMatches(p)
    && AuthorityHolds(c, v, p, now)
  }

  /** Under the verifier's own key id only the signature itself decides. */
  lemma AcceptsMeans(c: Suite, v: Verifier, msg: Bytes, sig: Bytes)
    ensures Accepts(c, v, msg, sig, v.keyId) <==> c.Verifies(v.pub, msg, sig)
  {
  }

  lemma NotaryKey(c: Suite)
    ensures NotaryVerifier(c).keyId == NOTARY_KEY && NotaryVerifier(c).pub == c.pub
  {
  }

  /** What convinces, from the fields of the proof. */
  lemma ConvincesMeans(c: Suite, v: Verifier, p: Proof, now: int)
    ensures Convinces(c, v, p, now) <==>
      && p.event.contentHash == c.hash.Of(Canon.EventBytes(p.event))
      && c.Verifies(v.pub, p.event.contentHash + p.event.prevHash, p.event.notarySignature)
      && Merkle.Verifies(c.hash, p.event.contentHash, p.merklePath, p.merkleRoot, WrapInt64(p.event.sequence - 1))
      && p.anchor.Some? && p.anchor.value.root == p.merkleRoot
      && |p.delegationChain| > 0 && p.delegationChain[|p.delegationChain| - 1].grantId == p.event.grantId
      && ChainVerdict(c, v, p.delegationChain, now).None?
  {
    hide Merkle.Verifies, ChainHolds, ChainVerdict, WrapInt64, Canon.EventBytes, Accepts;
    AcceptsMeans(c, v, p.event.contentHash + p.event.prevHash, p.event.notarySignature);
    ChainVerdictExact(c, v, p.delegationChain, now);
  }

  // receipt.Verify

  method CheckContent(c: Suite, ev: ActionEvent) returns (ok: bool)
    ensures ok <==> ev.contentHash == c.hash.Of(Canon.EventBytes(ev))
  {
    hide Canon.EventBytes;
    var bytes := Canon.Event(ev);
    return c.hash.Of(bytes) == ev.contentHash;
  }

  method Verify(c: Suite, r: Receipt, now: int) returns (res: Result<Outcome, ReceiptError>)
    ensures res.Ok? <==> r.proof.Some? && r.publicKey.Some?
    ensures res.Err? ==> res.error == if r.proof.None? then UnreadableProof else UnreadableKey
    ensures res.Ok? ==>
      var p, key := r.proof.value, r.publicKey.value;
      var e, chain, out := p.event, p.delegationChain, res.value;
      && (out.contentIntact <==> e.contentHash == c.hash.Of(Canon.EventBytes(e)))
      && (out.signatureValid <==> c.Verifies(key, e.contentHash + e.prevHash, e.notarySignature))
      && (out.included <==>
            Merkle.Verifies(c.hash, e.contentHash, p.merklePath, p.merkleRoot, WrapInt64(e.sequence - 1)))
      && (out.anchored <==> p.anchor.Some? && p.anchor.value.root == p.merkleRoot)
      && (out.authorityValid <==>
            && |chain| > 0 && chain[|chain| - 1].grantId == e.grantId
            && ChainVerdict(c, Verifier(r.keyId, key), chain, now).None?)
      && (out.verdict <==>
            out.contentIntact && out.signatureValid && out.included && out.anchored && out.authorityValid)
    ensures res.Ok? ==>
      (res.value.verdict <==> Convinces(c, Verifier(r.keyId, r.publicKey.value), r.proof.value, now))
  {
    hide *;
    if r.proof.None? {
      return Err(UnreadableProof);
    }
    if r.publicKey.None? {
      return Err(UnreadableKey);
    }
    var p, v := r.proof.value, Verifier(r.keyId, r.publicKey.value);
    var ev := p.event;
    ConvincesMeans(c, v, p, now);
    AcceptsMeans(c, v, ev.contentHash + ev.prevHash, ev.notarySignature);
    var out := Outcome(false, false, false, false, false, false);
    var intact := CheckContent(c, ev);
    out := out.(contentIntact := intact);
    out := out.(signatureValid := Accepts(c, v, ev.contentHash + ev.prevHash, ev.notarySignature, r.keyId));
    var included := Merkle.Verify(c.hash, ev.contentHash, p.merklePath, p.merkleRoot, WrapInt64(ev.sequence - 1));
    out := out.(included := included);
    out := out.(anchored := p.anchor.Some? && p.anchor.value.root == p.merkleRoot);
    var authority := Authority(c, v, p.delegationChain, ev.grantId, now);
    out := out.(authorityValid := authority);
    out := out.(verdict :=
      out.contentIntact && out.signatureValid && out.included && out.anchored && out.authorityValid);
    return Ok(out);
  }

  method Authority(c: Suite, v: Verifier, chain: seq<Grant>, grantId: Bytes, now: int) returns (ok: bool)
    ensures ok <==>
      |chain| > 0 && ChainVerdict(c, v, chain, now).None? && chain[|chain| - 1].grantId == grantId
  {
    hide ChainVerdict;
    if |chain| == 0 {
      return false;
    }
    var fault := VerifyChain(c, v, chain, now);
    if fault.Some? {
      return false;
    }
    return chain[|chain| - 1].grantId == grantId;
  }

  // VerifyProof

  datatype Reason = NoReason | HashMismatch | BadSignature | BadAuthority

  datatype ProofResponse = ProofResponse(
    valid: bool,
    chainIntact: bool,
    signatureValid: bool,
    anchored: bool,
    authorityValid: bool,
    reason: Reason)

  /** `VerifyProof`: the anchor and the Merkle path are reported but do not decide `valid`. */
  method VerifyProof(c: Suite, p: Proof, now: int) returns (r: ProofResponse)
    ensures r.chainIntact <==> p.event.contentHash == c.hash.Of(Canon.EventBytes(p.event))
    ensures r.signatureValid <==>
      c.Verifies(c.pub, p.event.contentHash + p.event.prevHash, p.event.notarySignature)
    ensures r.anchored <==>
      && p.anchor.Some? && p.anchor.value.root == p.merkleRoot
      && Merkle.Verifies(c.hash, p.event.contentHash, p.merklePath, p.merkleRoot, WrapInt64(p.event.sequence - 1))
    ensures r.authorityValid <==>
      var chain := p.delegationChain;
      && |chain| > 0 && chain[|chain| - 1].grantId == p.event.grantId
      && ChainVerdict(c, NotaryVerifier(c), chain, now).None?
    ensures r.valid <==> r.chainIntact && r.signatureValid && r.authorityValid
    ensures r.reason == if !r.chainIntact then HashMismatch
                        else if !r.signatureValid then BadSignature
                        else if !r.authorityValid then BadAuthority
                        else NoReason
    ensures r.valid && r.anchored <==> Convinces(c, NotaryVerifier(c), p, now)
  {
    hide *;
    var ev := p.event;
    NotaryKey(c);
    ConvincesMeans(c, NotaryVerifier(c), p, now);
    AcceptsMeans(c, NotaryVerifier(c), ev.contentHash + ev.prevHash, ev.notarySignature);
    var chainIntact := CheckContent(c, ev);
    var signatureValid :=
      Accepts(c, NotaryVerifier(c), ev.contentHash + ev.prevHash, ev.notarySignature, NOTARY_KEY);
    var anchored := p.anchor.Some? && p.anchor.value.root == p.merkleRoot;
    if anchored {
      anchored := Merkle.Verify(c.hash, ev.contentHash, p.merklePath, p.merkleRoot, WrapInt64(ev.sequence - 1));
    }
    var authorityValid := Authority(c, NotaryVerifier(c), p.delegationChain, ev.grantId, now);
    var reason :=
      if !chainIntact then HashMismatch
      else if !signatureValid then BadSignature
      else if !authorityValid then BadAuthority
      else NoReason;
    r := ProofResponse(chainIntact && signatureValid && authorityValid, chainIntact, signatureValid, anchored,
                       authorityValid, reason);
  }
}
