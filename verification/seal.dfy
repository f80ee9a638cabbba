/** Sealing: the content hash, the link to the previous event and the notary's signature. */
module Seal {
  import opened ByteStrings
  import opened Wrappers
  import opened Crypto
  import opened Records
  import Canon

  datatype LinkFault = ContentHashMismatch | PrevHashMismatch | InvalidSignature

  function PrevHashOf(prev: Option<ActionEvent>): Bytes {
    if prev.None? then ZERO32 else prev.value.contentHash
  }

  /** The content hash is the digest of the canonical bytes. */
  predicate ContentSealed(c: Suite, e: ActionEvent) {
    e.contentHash == c.hash.Of(Canon.EventBytes(e))
  }

  /** The notary key verifies the signature over content hash and previous hash. */
  predicate SignatureSealed(c: Suite, v: Verifier, e: ActionEvent) {
    Accepts(c, v, e.contentHash + e.prevHash, e.notarySignature, NOTARY_KEY)
  }

  /** What `VerifyLink` demands of an event and the event before it. */
  predicate Linked(c: Suite, e: ActionEvent, prev: Option<ActionEvent>) {
    ContentSealed(c, e) && e.prevHash == PrevHashOf(prev) && SignatureSealed(c, NotaryVerifier(c), e)
  }

  function SealedEvent(c: Suite, e: ActionEvent, prev: Option<ActionEvent>): ActionEvent {
    var contentHash := c.hash.Of(Canon.EventBytes(e));
    var prevHash := PrevHashOf(prev);
    e.(contentHash := contentHash, prevHash := prevHash, notarySignature := Signature(c, contentHash + prevHash))
  }

  method Seal(c: Suite, event: ActionEvent, prev: Option<ActionEvent>) returns (sealed: ActionEvent)
    ensures sealed == SealedEvent(c, event, prev)
  {
    sealed := event;
    var bytes := Canon.Event(event);
    sealed := sealed.(contentHash := c.hash.Of(bytes));
    sealed := sealed.(prevHash := PrevHashOf(prev));
    sealed := sealed.(notarySignature := Signature(c, sealed.contentHash + sealed.prevHash));
  }

  method VerifyLink(c: Suite, event: ActionEvent, prev: Option<ActionEvent>) returns (fault: Option<LinkFault>)
    ensures fault.None? <==> Linked(c, event, prev)
    ensures fault.None? <==>
      && event.contentHash == c.hash.Of(Canon.EventBytes(event))
      && (if prev.Some? then event.prevHash == prev.value.contentHash
          else |event.prevHash| == 32 && forall i :: 0 <= i < 32 ==> event.prevHash[i] == 0)
      && c.Verifies(c.pub, event.contentHash + event.prevHash, event.notarySignature)
    ensures fault == if !ContentSealed(c, event) then Some(ContentHashMismatch)
                     else if event.prevHash != PrevHashOf(prev) then Some(PrevHashMismatch)
                     else if !SignatureSealed(c, NotaryVerifier(c), event) then Some(InvalidSignature)
                     else None
  {
    hide Canon.EventBytes;
    var bytes := Canon.Event(event);
    if c.hash.Of(bytes) != event.contentHash {
      return Some(ContentHashMismatch);
    }
    if event.prevHash != PrevHashOf(prev) {
      return Some(PrevHashMismatch);
    }
    if !Accepts(c, NotaryVerifier(c), event.contentHash + event.prevHash, event.notarySignature, NOTARY_KEY) {
      return Some(InvalidSignature);
    }
    return None;
  }

  /** The three sealed fields are outside the canonical bytes. */
  lemma SealKeepsBytes(c: Suite, e: ActionEvent, prev: Option<ActionEvent>)
    ensures Canon.EventBytes(SealedEvent(c, e, prev)) == Canon.EventBytes(e)
  {
    assert Canon.EventTail(SealedEvent(c, e, prev)) == Canon.EventTail(e);
  }

  /** Sealing fills in its three fields and leaves the others. */
  lemma SealKeepsFields(c: Suite, e: ActionEvent, prev: Option<ActionEvent>)
    ensures var s := SealedEvent(c, e, prev);
      && s.prevHash == PrevHashOf(prev)
      && s.(contentHash := e.contentHash, prevHash := e.prevHash, notarySignature := e.notarySignature) == e
  {
    hide Canon.EventBytes, Signature;
  }

  /** A sealed event passes `VerifyLink` against the event it was sealed after. */
  lemma SealedEventIsLinked(c: Suite, e: ActionEvent, prev: Option<ActionEvent>)
    ensures Linked(c, SealedEvent(c, e, prev), prev)
  {
    SealKeepsBytes(c, e, prev);
  }
}
