/**
 `GetInclusionProof` among other operations: its four reads may see four states, with anything in
 between.
 */
module ProofReads {
  import opened ByteStrings
  import opened Wrappers
  import opened Crypto
  import opened Records
  import opened Graph
  import opened Seal
  import opened GrantTable
  import opened EventTable
  import opened LedgerState
  import opened Operations
  import opened Machine
  import opened Interleavings
  import opened Growth
  import opened Receipts
  import opened ReceiptProofs
  import opened CanonDecoding
  import Merkle

  /** The states that the event, the session's rows, the anchor and the chain are read from. */
  datatype Views = Views(event: Ledger, rows: Ledger, anchor: Ledger, chain: Ledger)

  function ProofAcross(c: Suite, views: Views, eventId: Bytes, down: set<Call>): Result<Proof, Error> {
    var found := FindEvent(views.event.events, eventId);
    if GetEvent in down then Err(Internal)
    else if found.None? then Err(NotFound)
    else if Call.EventsBySession in down then Err(Internal)
    else
      var ev := found.value;
      var leaves := ContentHashes(BySession(views.rows.events, ev.sessionId));
      var index := WrapInt64(ev.sequence - 1);
      if !(0 <= index < |leaves|) then Err(Internal)
      else
        var anchors := views.anchor.anchors;
        Ok(Proof(ev, Merkle.PathOf(c.hash, leaves, index), Merkle.RootOf(c.hash, leaves),
                 if GetAnchor !in down && ev.sessionId in anchors then Some(anchors[ev.sessionId]) else None,
                 if Call.GrantChain in down then [] else ChainOf(views.chain.grants, ev.grantId)))
  }

  /** With nothing in between the four states are one. */
  lemma ProofInOneState(c: Suite, w: Ledger, eventId: Bytes, down: set<Call>)
    ensures ProofAcross(c, Views(w, w, w, w), eventId, down) == InclusionProof(c, w, eventId, down)
  {
    hide FindEvent, BySession, ContentHashes, Merkle.PathOf, Merkle.RootOf, ChainOf, WrapInt64;
  }

  predicate ConvincesAcross(c: Suite, views: Views, e: ActionEvent, down: set<Call>, now: int) {
    var r := ProofAcross(c, views, e.eventId, down);
    r.Ok? && Convinces(c, NotaryVerifier(c), r.value, now)
  }

  /** No lower sequence is missing in the rows as read, and the anchor as read is their root. */
  predicate ProvableAcross(c: Suite, views: Views, e: ActionEvent) {
    && MissingBelow(views.rows.events, e.sessionId, e.sequence) == 0
    && e.sessionId in views.anchor.anchors
    && views.anchor.anchors[e.sessionId].root == SessionRoot(c, views.rows.events, e.sessionId)
  }

  /** The reads see sound states, each grown from the one before. */
  ghost predicate Successive(c: Suite, views: Views) {
    && Sound(c, views.event) && Sound(c, views.rows) && Sound(c, views.anchor) && Sound(c, views.chain)
    && Grown(c, views.event, views.rows) && Grown(c, views.rows, views.anchor) && Grown(c, views.anchor, views.chain)
  }

  lemma LoggedInLater(c: Suite, views: Views, e: ActionEvent)
    requires Successive(c, views) && e in views.event.events
    ensures e in views.rows.events && e in views.chain.events && FindEvent(views.event.events, e.eventId) == Some(e)
  {
    hide Sound, GrantsGrow, SessionsGrow, FindEvent;
    KeysAreUnique(c, views.event);
    FindEventFinds(views.event.events, e);
  }

  lemma ProofAcrossExactly(c: Suite, views: Views, e: ActionEvent, down: set<Call>, now: int)
    requires Successive(c, views) && e in views.event.events
    requires forall x :: x in views.rows.events ==> Sized(x)
    ensures (ConvincesAcross(c, views, e, down, now) <==> down !! PROOF_READS && ProvableAcross(c, views, e))
         || (var pair := GapCollision(c.hash, views.rows, e);
             pair.Some? && Collides(c.hash, pair.value.fst, pair.value.snd))
  {
    hide Sound, Grown, Successive, BySession, MissingBelow, ContentHashes, Merkle.PathOf, Merkle.RootOf,
         Merkle.Verifies, ContentSealed, GapCollision, ChainHolds, ChainOf, Sized, FindEvent, Accepts;
    LoggedInLater(c, views, e);
    EachIsSound(c, views);
    LoggedEventIsAuthentic(c, views.chain, e, now);
    EventIsGiven(c, views.rows, e);
    if MissingBelow(views.rows.events, e.sessionId, e.sequence) == 0 {
      RightIndexIncluded(c, views.rows, e);
    } else if ConvincesAcross(c, views, e, down, now) {
      WrongIndexCollides(c, views.rows, e);
    }
  }

  lemma EachIsSound(c: Suite, views: Views)
    requires Successive(c, views)
    ensures Sound(c, views.rows) && Sound(c, views.chain)
  {
    hide Sound, Grown;
  }

  /** Four states of one interleaving. */
  function Seen(m0: State, m1: State, m2: State, m3: State): Views {
    Views(m0.w, m1.w, m2.w, m3.w)
  }

  /**
   Proofs under interleaving: whatever other operations do between the four reads of
   `GetInclusionProof`, the proof of an event logged before them convinces at any time if and only
   if the reads succeed, no lower sequence is missing in the rows as read and the anchor as read is
   the root of those rows; or the computed pair is a collision.
   */
  lemma InterleavedProofExactly(c: Suite, m0: State, first: seq<Action>, second: seq<Action>, third: seq<Action>,
                                e: ActionEvent, down: set<Call>, now: int)
    requires Inv(c, m0) && e in m0.w.events && FreshActions(c, m0, first)
    requires FreshActions(c, Exec(c, m0, first), second)
    requires FreshActions(c, Exec(c, Exec(c, m0, first), second), third)
    requires forall x :: x in Exec(c, m0, first).w.events ==> Sized(x)
    ensures var m1 := Exec(c, m0, first);
      var m2 := Exec(c, m1, second);
      var views := Seen(m0, m1, m2, Exec(c, m2, third));
      (ConvincesAcross(c, views, e, down, now) <==> down !! PROOF_READS && ProvableAcross(c, views, e))
      || (var pair := GapCollision(c.hash, m1.w, e);
          pair.Some? && Collides(c.hash, pair.value.fst, pair.value.snd))
  {
    hide Inv, Exec, FreshActions, Sound, Grown, ConvincesAcross, ProvableAcross, GapCollision, Sized;
    var m1 := Exec(c, m0, first);
    var m2 := Exec(c, m1, second);
    var m3 := Exec(c, m2, third);
    ExecGrows(c, m0, first);
    ExecGrows(c, m1, second);
    ExecGrows(c, m2, third);
    InvIsSound(c, m0);
    InvIsSound(c, m1);
    InvIsSound(c, m2);
    InvIsSound(c, m3);
    ProofAcrossExactly(c, Seen(m0, m1, m2, m3), e, down, now);
  }

  lemma InvIsSound(c: Suite, m: State)
    requires Inv(c, m)
    ensures Sound(c, m.w)
  {
    hide Sound, PcsSound, SlotsSound;
  }
}
