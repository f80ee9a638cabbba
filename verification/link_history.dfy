/**
 The hash chain over whole interleavings: a log is linked at the end exactly when every insert of
 its session rested on a current read.
 */
module LinkHistory {
  import opened Wrappers
  import opened Crypto
  import opened Records
  import opened Seal
  import opened EventTable
  import opened LedgerState
  import opened Operations
  import opened Runs
  import opened Machine
  import opened Interleavings
  import opened Growth
  import opened LateRows
  import opened HashClashes
  import opened Overlap
  import opened ByteStrings

  /** The step inserts a row of the session. */
  predicate InsertsRow(m: State, a: Action, sessionId: Bytes) {
    && a.Insert? && a.op in m.ops && m.ops[a.op].Signing?
    && m.ops[a.op].event.sessionId == sessionId
    && AppendEvent !in a.ctx.down && !Refused(m.w.events, m.ops[a.op].event)
  }

  /** The step in which an operation last read the last event of its session. */
  function ReadStep(c: Suite, actions: seq<Action>, op: nat): (r: nat)
    ensures r <= |actions|
  {
    if |actions| == 0 then 0
    else
      var earlier, a := actions[..|actions| - 1], actions[|actions| - 1];
      var before := Exec(c, INITIAL, earlier);
      if a.ReadLast? && a.op == op && op in before.ops && before.ops[op].Drafted? then |earlier|
      else ReadStep(c, earlier, op)
  }

  function BeforeRead(c: Suite, actions: seq<Action>, op: nat): State {
    Exec(c, INITIAL, actions[..ReadStep(c, actions, op)])
  }

  predicate ReadFailed(c: Suite, actions: seq<Action>, op: nat) {
    var r := ReadStep(c, actions, op);
    r < |actions| && actions[r].ReadLast? && LastEvent in actions[r].ctx.down
  }

  /** The insert of an operation rests on a read of the session as it is now. */
  ghost predicate InsertIsCurrent(c: Suite, earlier: seq<Action>, op: nat, e: ActionEvent) {
    var rowsRead := |BeforeRead(c, earlier, op).w.events|;
    ReadIsCurrent(Exec(c, INITIAL, earlier).w.events, rowsRead, e, ReadFailed(c, earlier, op))
  }

  ghost predicate EveryInsertCurrent(c: Suite, actions: seq<Action>, sessionId: Bytes) {
    |actions| > 0 ==>
      var earlier, a := actions[..|actions| - 1], actions[|actions| - 1];
      var before := Exec(c, INITIAL, earlier);
      && EveryInsertCurrent(c, earlier, sessionId)
      && (InsertsRow(before, a, sessionId) ==> InsertIsCurrent(c, earlier, a.op, before.ops[a.op].event))
  }

  // What an operation holds is what it read

  /** An operation holds the event that it sealed after its read, and the rows it read are still there. */
  ghost predicate HoldsWhatItRead(c: Suite, actions: seq<Action>, op: nat) {
    var m, e := Exec(c, INITIAL, actions), BeforeRead(c, actions, op);
    op in m.ops && m.ops[op].Signing? ==>
      && e.w.events <= m.w.events
      && m.ops[op].event.prevHash ==
           PrevHashOf(if ReadFailed(c, actions, op) then None else LastOf(e.w.events, m.ops[op].event.sessionId))
  }

  lemma ReadNow(c: Suite, actions: seq<Action>, op: nat)
    requires |actions| > 0
    requires var a, before := actions[|actions| - 1], Exec(c, INITIAL, actions[..|actions| - 1]);
      a.ReadLast? && a.op == op && op in before.ops && before.ops[op].Drafted?
    ensures HoldsWhatItRead(c, actions, op)
  {
    hide SealedEvent, LastOf;
    var a, before := actions[|actions| - 1], Exec(c, INITIAL, actions[..|actions| - 1]);
    var draft := before.ops[op].draft;
    SealKeepsFields(c, draft, if LastEvent in a.ctx.down then None else LastOf(before.w.events, draft.sessionId));
  }

  /** Only a read brings an operation to where it signs. */
  lemma SignsAfterRead(c: Suite, m: State, a: Action, op: nat)
    requires op in Next(c, m, a).ops && Next(c, m, a).ops[op].Signing?
    ensures op in m.ops
    ensures if a.ReadLast? && a.op == op && m.ops[op].Drafted? then true else m.ops[op] == Next(c, m, a).ops[op]
  {
    hide SessionRoot, SealedEvent, LastOf, Refused, Admitted, Delegable, RequestDraft, WithGrant, StoredEvent, Apply;
  }

  lemma {:induction false} SigningHoldsRead(c: Suite, actions: seq<Action>, op: nat)
    requires FreshActions(c, INITIAL, actions)
    ensures HoldsWhatItRead(c, actions, op)
  {
    hide Next, FreshAction, LastOf;
    if |actions| > 0 {
      var earlier, a := actions[..|actions| - 1], actions[|actions| - 1];
      var before := Exec(c, INITIAL, earlier);
      if a.ReadLast? && a.op == op && op in before.ops && before.ops[op].Drafted? {
        ReadNow(c, actions, op);
      } else if op in Next(c, before, a).ops && Next(c, before, a).ops[op].Signing? {
        SigningHoldsRead(c, earlier, op);
        SignsAfterRead(c, before, a, op);
        StepKeepsRows(c, earlier, a);
        SameRead(c, actions, op);
      }
    }
  }

  lemma StepKeepsRows(c: Suite, earlier: seq<Action>, a: Action)
    requires FreshActions(c, INITIAL, earlier) && FreshAction(Exec(c, INITIAL, earlier), a)
    ensures Exec(c, INITIAL, earlier).w.events <= Next(c, Exec(c, INITIAL, earlier), a).w.events
  {
    hide Inv, Next, FreshAction, GrantsGrow, SessionsGrow;
    EveryInterleavingKeepsInv(c, earlier);
    NextGrows(c, Exec(c, INITIAL, earlier), a);
  }

  lemma SameRead(c: Suite, actions: seq<Action>, op: nat)
    requires |actions| > 0
    requires var a, before := actions[|actions| - 1], Exec(c, INITIAL, actions[..|actions| - 1]);
      !(a.ReadLast? && a.op == op && op in before.ops && before.ops[op].Drafted?)
      && op in before.ops && before.ops[op].Signing?
    requires FreshActions(c, INITIAL, actions)
    ensures var earlier := actions[..|actions| - 1];
      && BeforeRead(c, actions, op) == BeforeRead(c, earlier, op)
      && ReadFailed(c, actions, op) == ReadFailed(c, earlier, op)
  {
    hide Next;
    var earlier := actions[..|actions| - 1];
    ReadWasMade(c, earlier, op);
    assert earlier[..ReadStep(c, earlier, op)] == actions[..ReadStep(c, earlier, op)];
  }

  /** An operation that signs has read. */
  lemma {:induction false} ReadWasMade(c: Suite, actions: seq<Action>, op: nat)
    requires op in Exec(c, INITIAL, actions).ops && Exec(c, INITIAL, actions).ops[op].Signing?
    ensures ReadStep(c, actions, op) < |actions|
  {
    hide Next;
    if |actions| > 0 {
      var earlier, a := actions[..|actions| - 1], actions[|actions| - 1];
      var before := Exec(c, INITIAL, earlier);
      SignsAfterRead(c, before, a, op);
      if !(a.ReadLast? && a.op == op && before.ops[op].Drafted?) {
        ReadWasMade(c, earlier, op);
      }
    }
  }

  // The whole interleaving

  lemma OtherInsertKeepsLog(c: Suite, m: State, op: nat, ctx: Context, sessionId: Bytes)
    requires Inv(c, m) && !InsertsRow(m, Insert(op, ctx), sessionId)
    ensures BySession(InsertStep(m, op, ctx).w.events, sessionId) == BySession(m.w.events, sessionId)
  {
    hide Inv, BySession, Refused, StoredEvent, ContentSealed, SignatureSealed, OfSession, HasRow;
    if op in m.ops && m.ops[op].Signing? {
      InvSigning(c, m, op);
      if m.ops[op].event.sessionId != sessionId {
        OtherRow(m.w.events, m.ops[op].event, sessionId);
      }
    }
  }

  /** A step that inserts no row of the session leaves its log as it is. */
  lemma OtherStepsKeepLog(c: Suite, m: State, a: Action, sessionId: Bytes)
    requires Inv(c, m) && !InsertsRow(m, a, sessionId)
    ensures BySession(Next(c, m, a).w.events, sessionId) == BySession(m.w.events, sessionId)
  {
    hide Inv, BySession, InsertsRow, InsertStep, TakeNumberStep, ReadLastStep, WithGrant, Apply, SessionRoot, Admitted,
         Delegable;
    match a
    case Insert(op, ctx) => OtherInsertKeepsLog(c, m, op, ctx, sessionId);
    case TakeNumber(op, ctx) => NumberKeepsEvents(m, op, ctx);
    case ReadLast(op, ctx) => ReadKeepsEvents(c, m, op, ctx);
    case Single(whole) =>
      if OneStep(whole) {
        OneStepKeepsEvents(c, m, whole);
      }
    case StoreGrant(op, ctx) =>
      if op in m.ops && m.ops[op].Granting? {
        GrantOnly(m.w, m.ops[op].grant);
      }
    case _ =>
  }

  lemma OtherRow(rows: seq<ActionEvent>, e: ActionEvent, sessionId: Bytes)
    requires e.sessionId != sessionId
    ensures BySession(rows + [e], sessionId) == BySession(rows, sessionId)
  {
    assert (rows + [e])[..|rows|] == rows;
  }

  /** One insert, into a linked log or not. */
  lemma InsertStepLinksExactly(c: Suite, earlier: seq<Action>, a: Action, sessionId: Bytes)
    requires FreshActions(c, INITIAL, earlier) && InsertsRow(Exec(c, INITIAL, earlier), a, sessionId)
    requires HashesApart(BySession(Next(c, Exec(c, INITIAL, earlier), a).w.events, sessionId))
    ensures var before := Exec(c, INITIAL, earlier);
      ChainLinked(c, BySession(Next(c, before, a).w.events, sessionId)) <==>
        && ChainLinked(c, BySession(before.w.events, sessionId))
        && InsertIsCurrent(c, earlier, a.op, before.ops[a.op].event)
  {
    hide Inv, Exec, FreshActions, BySession, ContentSealed, SignatureSealed, Refused, KeysUnique, PrevsEarlier,
         HashesApart, ChainLinked, ReadIsCurrent, StoredEvent, OfSession, ReadFailed, BeforeRead, LastOf, HasRow;
    var before := Exec(c, INITIAL, earlier);
    var e, k := before.ops[a.op].event, |BeforeRead(c, earlier, a.op).w.events|;
    EveryInterleavingKeepsInv(c, earlier);
    InvTables(c, before);
    InvSigning(c, before, a.op);
    SigningHoldsRead(c, earlier, a.op);
    assert before.w.events[..k] == BeforeRead(c, earlier, a.op).w.events;
    if ChainLinked(c, BySession(before.w.events, sessionId)) {
      InsertLinksExactly(c, before.w.events, e, k, ReadFailed(c, earlier, a.op));
    } else {
      InsertKeepsBroken(c, before.w.events, e);
    }
  }

  /** Where a log has no clashes, it had none before. */
  lemma EarlierApart(c: Suite, m: State, a: Action, sessionId: Bytes)
    requires Inv(c, m) && FreshAction(m, a) && HashesApart(BySession(Next(c, m, a).w.events, sessionId))
    ensures HashesApart(BySession(m.w.events, sessionId))
  {
    hide Inv, Next, FreshAction, BySession, HashesApart, GrantsGrow, SessionsGrow, KeysUnique, PrevsEarlier,
         ContentSealed;
    var rows, k := Next(c, m, a).w.events, |m.w.events|;
    NextGrows(c, m, a);
    InvTables(c, m);
    assert rows[..k] == m.w.events;
    EarlierInLog(rows, k, sessionId);
    BySessionAscends(m.w.events, sessionId);
    ApartSublist(BySession(rows, sessionId), BySession(m.w.events, sessionId));
  }

  lemma {:induction false} LinkedWhenCurrent(c: Suite, actions: seq<Action>, sessionId: Bytes)
    requires FreshActions(c, INITIAL, actions)
    requires HashesApart(BySession(Exec(c, INITIAL, actions).w.events, sessionId))
    ensures ChainLinked(c, BySession(Exec(c, INITIAL, actions).w.events, sessionId)) <==>
      EveryInsertCurrent(c, actions, sessionId)
  {
    hide Inv, Next, FreshAction, BySession, HashesApart, ChainLinked, InsertsRow, InsertIsCurrent;
    if |actions| == 0 {
      EmptyLinked(c, sessionId);
    } else {
      var earlier, a := actions[..|actions| - 1], actions[|actions| - 1];
      var before := Exec(c, INITIAL, earlier);
      EveryInterleavingKeepsInv(c, earlier);
      EarlierApart(c, before, a, sessionId);
      LinkedWhenCurrent(c, earlier, sessionId);
      if InsertsRow(before, a, sessionId) {
        InsertStepLinksExactly(c, earlier, a, sessionId);
      } else {
        OtherStepsKeepLog(c, before, a, sessionId);
      }
    }
  }

  lemma EmptyLinked(c: Suite, sessionId: Bytes)
    ensures ChainLinked(c, BySession(INITIAL.w.events, sessionId))
  {
  }

  /**
   The hash chain exactly: after any interleaving, every event of a session passes `VerifyLink`
   against its predecessor if and only if every insert of the session was current: no row of the
   session had come since its read of the last event (after a failed read: the session had no
   row), and no row had a higher number; or the computed evidence is genuine.
   */
  lemma LinkedExactly(c: Suite, actions: seq<Action>, sessionId: Bytes)
    requires FreshActions(c, INITIAL, actions) && AllSized(Exec(c, INITIAL, actions).w.events)
    ensures var log := BySession(Exec(c, INITIAL, actions).w.events, sessionId);
      Genuine(c.hash, Clash(log)) || (ChainLinked(c, log) <==> EveryInsertCurrent(c, actions, sessionId))
  {
    hide Inv, Exec, FreshActions, BySession, HashesApart, ChainLinked, Genuine, Clash, EveryInsertCurrent, AllSized,
         KeysUnique, PrevsEarlier, ContentSealed;
    var m := Exec(c, INITIAL, actions);
    EveryInterleavingKeepsInv(c, actions);
    InvTables(c, m);
    LogIsSealed(c, m.w.events, sessionId);
    BySessionAscends(m.w.events, sessionId);
    ClashIsGenuine(c, BySession(m.w.events, sessionId));
    if Clash(BySession(m.w.events, sessionId)) == NoEvidence {
      LinkedWhenCurrent(c, actions, sessionId);
    }
  }
}
