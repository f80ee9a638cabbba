/**
 Exactly when a row can still come under a revoked grant: which recordings in flight can insert
 one, and the steps with which they do.
 */
module LateInserts {
  import opened ByteStrings
  import opened Wrappers
  import opened Crypto
  import opened Records
  import opened Graph
  import opened Seal
  import opened GrantTable
  import opened EventTable
  import opened LedgerState
  import opened Operations
  import opened Revocation
  import opened Machine
  import opened Interleavings
  import opened Growth
  import opened LateRows

  predicate IdFree(rows: seq<ActionEvent>, eventId: Bytes) {
    forall i | 0 <= i < |rows| :: rows[i].eventId != eventId
  }

  /** No grant of the chain from a position on is revoked. */
  predicate RestUnrevoked(w: Ledger, chain: seq<Grant>, from: nat) {
    forall k | from <= k < |chain| :: chain[k].grantId !in w.revoked
  }

  /** What is left of the checks and writes of an operation, up to its insert, would succeed. */
  predicate InsertAhead(w: Ledger, pc: Pc) {
    match pc
    case Checking(req, chain, checked) =>
      && |chain| > 0
      && RestUnrevoked(w, chain, checked)
      && Allows(chain[|chain| - 1], req.actionType, req.resource, req.valueCents)
      && Countable(w, req.sessionId)
    case Drafted(e) => IdFree(w.events, e.eventId)
    case Signing(e) => IdFree(w.events, e.eventId)
    case _ => false
  }

  /** A recording past its check of g that nothing which holds for good keeps from inserting. */
  ghost predicate CanInsert(m: State, op: nat, g: Bytes) {
    PastCheck(m, op, g) && InsertAhead(m.w, m.ops[op])
  }

  // What can insert after a step could before it

  lemma AheadBeforeGrowth(c: Suite, w: Ledger, after: Ledger, pc: Pc)
    requires Grown(c, w, after) && InsertAhead(after, pc)
    requires pc.Checking? ==> pc.req.sessionId in w.sessions
    ensures InsertAhead(w, pc)
  {
    hide GrantsGrow, Allows;
    forall i | 0 <= i < |w.events|
      ensures w.events[i] == after.events[i]
    {
    }
  }

  lemma UnmovedAhead(c: Suite, m: State, a: Action, op: nat)
    requires Inv(c, m) && FreshAction(m, a) && !Moves(a, op) && op in Next(c, m, a).ops
    requires InsertAhead(Next(c, m, a).w, Next(c, m, a).ops[op])
    ensures op in m.ops && InsertAhead(m.w, m.ops[op])
  {
    hide Inv, Next, FreshAction, Grown, InsertAhead, Moves;
    OthersDoNotMove(c, m, a, op);
    NextGrows(c, m, a);
    CheckingHasSession(c, m, op);
    AheadBeforeGrowth(c, m.w, Next(c, m, a).w, m.ops[op]);
  }

  lemma CheckingHasSession(c: Suite, m: State, op: nat)
    requires Inv(c, m) && op in m.ops
    ensures m.ops[op].Checking? ==> m.ops[op].req.sessionId in m.w.sessions
  {
    hide Sound, SlotsSound, ChainAccepted, ChainOf, OfSession, EventSound, PrevIn, RootPast, IssuedAfter;
    assert PcSound(c, m.w, m.ops[op]);
  }

  lemma NumberedAhead(m: State, op: nat, ctx: Context)
    requires op in m.ops && op in TakeNumberStep(m, op, ctx).ops
    requires InsertAhead(TakeNumberStep(m, op, ctx).w, TakeNumberStep(m, op, ctx).ops[op])
    ensures InsertAhead(m.w, m.ops[op])
  {
    hide Allows, RequestDraft;
  }

  lemma ReadAhead(c: Suite, m: State, op: nat, ctx: Context)
    requires op in m.ops && op in ReadLastStep(c, m, op, ctx).ops
    requires InsertAhead(ReadLastStep(c, m, op, ctx).w, ReadLastStep(c, m, op, ctx).ops[op])
    ensures InsertAhead(m.w, m.ops[op])
  {
    hide Allows, SealedEvent, LastOf;
    if m.ops[op].Drafted? {
      var draft := m.ops[op].draft;
      SealKeepsFields(c, draft, if LastEvent in ctx.down then None else LastOf(m.w.events, draft.sessionId));
    }
  }

  lemma MovedAhead(c: Suite, m: State, a: Action, op: nat)
    requires Moves(a, op) && op in m.ops && op in Next(c, m, a).ops
    requires InsertAhead(Next(c, m, a).w, Next(c, m, a).ops[op])
    ensures InsertAhead(m.w, m.ops[op])
  {
    hide Allows, TakeNumberStep, ReadLastStep, SessionRoot, Refused, WithGrant, StoredEvent, Delegable, Admitted;
    match a
    case TakeNumber(_, ctx) => NumberedAhead(m, op, ctx);
    case ReadLast(_, ctx) => ReadAhead(c, m, op, ctx);
    case _ =>
  }

  lemma NextCanInsert(c: Suite, m: State, a: Action, op: nat, g: Bytes)
    requires Inv(c, m) && FreshAction(m, a) && g in m.w.revoked && CanInsert(Next(c, m, a), op, g)
    ensures CanInsert(m, op, g)
  {
    hide Inv, Next, FreshAction, PastCheck, Moves, InsertAhead;
    NextPastCheck(c, m, a, op, g);
    PastIsInFlight(m, op, g);
    PastIsInFlight(Next(c, m, a), op, g);
    if Moves(a, op) {
      MovedAhead(c, m, a, op);
    } else {
      UnmovedAhead(c, m, a, op);
    }
  }

  lemma {:induction false} CouldInsertBefore(c: Suite, m: State, actions: seq<Action>, op: nat, g: Bytes)
    requires Inv(c, m) && FreshActions(c, m, actions) && g in m.w.revoked
    requires CanInsert(Exec(c, m, actions), op, g)
    ensures CanInsert(m, op, g)
  {
    hide Inv, Next, FreshAction, CanInsert, Extends;
    if |actions| > 0 {
      var earlier := actions[..|actions| - 1];
      ExecGrows(c, m, earlier);
      NextCanInsert(c, Exec(c, m, earlier), actions[|actions| - 1], op, g);
      CouldInsertBefore(c, m, earlier, op, g);
    }
  }

  /** An operation that inserts a row under g could insert one. */
  lemma InserterCanInsert(c: Suite, m: State, a: Action, i: nat, g: Bytes)
    requires Inv(c, m) && FreshAction(m, a) && |m.w.events| <= i < |Next(c, m, a).w.events|
    requires InChain(Next(c, m, a).w.grants, Next(c, m, a).w.events[i].grantId, g)
    ensures a.Insert? && CanInsert(m, a.op, g)
  {
    hide Inv, Next, FreshAction, InChain, PastCheck;
    AppendedUnder(c, m, a, i, g);
    PastIsInFlight(m, a.op, g);
    InsertedIdFree(c, m, a.op, a.ctx);
  }

  lemma InsertedIdFree(c: Suite, m: State, op: nat, ctx: Context)
    requires op in m.ops && |Next(c, m, Insert(op, ctx)).w.events| > |m.w.events|
    ensures InsertAhead(m.w, m.ops[op])
  {
    hide StoredEvent;
  }

  /** A late row comes from an operation that could insert it when g was revoked. */
  lemma {:induction false} LateRowCouldCome(c: Suite, m: State, actions: seq<Action>, g: Bytes, i: nat)
    requires Inv(c, m) && FreshActions(c, m, actions) && g in m.w.revoked
    requires |m.w.events| <= i < |Exec(c, m, actions).w.events|
    requires InChain(Exec(c, m, actions).w.grants, Exec(c, m, actions).w.events[i].grantId, g)
    ensures exists op :: CanInsert(m, op, g)
  {
    hide Inv, Next, FreshAction, CanInsert, Extends, InChain;
    if |actions| > 0 {
      var earlier, a := actions[..|actions| - 1], actions[|actions| - 1];
      var before := Exec(c, m, earlier);
      ExecGrows(c, m, earlier);
      NextGrows(c, before, a);
      if i < |before.w.events| {
        RowKept(c, before, Next(c, before, a), i, g);
        LateRowCouldCome(c, m, earlier, g, i);
      } else {
        InserterCanInsert(c, before, a, i, g);
        CouldInsertBefore(c, m, earlier, a.op, g);
      }
    }
  }

  // The steps that insert

  lemma {:induction false} ExecFirst(c: Suite, m: State, a: Action, rest: seq<Action>)
    ensures Exec(c, m, [a] + rest) == Exec(c, Next(c, m, a), rest)
    ensures FreshAction(m, a) && FreshActions(c, Next(c, m, a), rest) ==> FreshActions(c, m, [a] + rest)
  {
    hide Next, FreshAction;
    var all := [a] + rest;
    if |rest| == 0 {
      assert all[..0] == [] && all[|all| - 1] == a;
      assert FreshActions(c, m, all[..0]);
    } else {
      ExecFirst(c, m, a, rest[..|rest| - 1]);
      assert all[..|all| - 1] == [a] + rest[..|rest| - 1];
    }
  }

  function EventIds(rows: seq<ActionEvent>): (ids: seq<Bytes>) {
    seq(|rows|, i requires 0 <= i < |rows| => rows[i].eventId)
  }

  /** An id that no row has. */
  function NewEventId(rows: seq<ActionEvent>): Bytes {
    Unlisted(EventIds(rows))
  }

  lemma NewEventIdIsFree(rows: seq<ActionEvent>)
    ensures IdFree(rows, NewEventId(rows))
  {
    hide TotalLength;
    forall i | 0 <= i < |rows|
      ensures rows[i].eventId != NewEventId(rows)
    {
      assert EventIds(rows)[i] == rows[i].eventId;
      MembersAreShorter(EventIds(rows), rows[i].eventId);
    }
  }

  /** Nothing fails, and a generated event id is one that no row has. */
  function Calm(m: State): Context {
    Context(true, 0, 0, 0, NewEventId(m.w.events), {})
  }

  /** How many steps the insert is away. */
  function StepsAhead(pc: Pc): nat {
    match pc
    case Checking(req, chain, checked) => 3 + if checked < |chain| then |chain| - checked else 0
    case Drafted(e) => 2
    case Signing(e) => 1
    case _ => 0
  }

  function StepAhead(m: State, op: nat): Action
    requires op in m.ops
  {
    match m.ops[op]
    case Checking(req, chain, checked) =>
      if checked < |chain| then CheckGrant(op, Calm(m)) else TakeNumber(op, Calm(m))
    case Drafted(e) => ReadLast(op, Calm(m))
    case _ => Insert(op, Calm(m))
  }

  lemma CheckOn(m: State, op: nat, g: Bytes)
    requires CanInsert(m, op, g) && m.ops[op].Checking? && m.ops[op].checked < |m.ops[op].chain|
    ensures var after := CheckGrantStep(m, op, Calm(m));
      && after.w == m.w && CanInsert(after, op, g)
      && StepsAhead(after.ops[op]) < StepsAhead(m.ops[op])
  {
    hide InChain, Allows, NewEventId, Countable;
  }

  lemma NumberOn(c: Suite, m: State, op: nat, g: Bytes)
    requires Inv(c, m) && CanInsert(m, op, g) && m.ops[op].Checking? && m.ops[op].checked >= |m.ops[op].chain|
    ensures var after := TakeNumberStep(m, op, Calm(m));
      && after.w.events == m.w.events && after.w.revoked == m.w.revoked && CanInsert(after, op, g)
      && StepsAhead(after.ops[op]) < StepsAhead(m.ops[op])
  {
    hide Sound, SlotsSound, ChainAccepted, ChainOf, Allows, NewEventId, IdFree;
    assert PcSound(c, m.w, m.ops[op]);
    NewEventIdIsFree(m.w.events);
    var chain := m.ops[op].chain;
    var k :| 0 <= k < |chain| && chain[k].grantId == g;
    assert InChain(m.w.grants, m.ops[op].req.grantId, g);
  }

  lemma ReadOn(c: Suite, m: State, op: nat, g: Bytes)
    requires CanInsert(m, op, g) && m.ops[op].Drafted?
    ensures var after := ReadLastStep(c, m, op, Calm(m));
      && after.w == m.w && CanInsert(after, op, g)
      && StepsAhead(after.ops[op]) < StepsAhead(m.ops[op])
  {
    hide InChain, SealedEvent, LastOf, NewEventId, IdFree;
    var draft := m.ops[op].draft;
    SealKeepsFields(c, draft, LastOf(m.w.events, draft.sessionId));
  }

  lemma InsertOn(c: Suite, m: State, op: nat, g: Bytes)
    requires Inv(c, m) && CanInsert(m, op, g) && m.ops[op].Signing?
    ensures var after := InsertStep(m, op, Calm(m));
      && |after.w.events| == |m.w.events| + 1
      && InChain(after.w.grants, after.w.events[|m.w.events|].grantId, g)
  {
    hide Inv, InChain, Refused, NewEventId;
    InsertRefusedOnlyById(c, m, op);
  }

  lemma CanInsertIsAtWork(m: State, op: nat, g: Bytes)
    requires CanInsert(m, op, g)
    ensures op in m.ops && (m.ops[op].Checking? || m.ops[op].Drafted? || m.ops[op].Signing?)
  {
    hide InChain, HasGrant, InsertAhead;
  }

  /** A step towards the insert. */
  lemma StepOn(c: Suite, m: State, op: nat, g: Bytes)
    requires Inv(c, m) && g in m.w.revoked && CanInsert(m, op, g) && !m.ops[op].Signing?
    ensures var after := Next(c, m, StepAhead(m, op));
      && FreshAction(m, StepAhead(m, op))
      && Inv(c, after) && g in after.w.revoked && after.w.events == m.w.events
      && CanInsert(after, op, g) && StepsAhead(after.ops[op]) < StepsAhead(m.ops[op])
  {
    hide Inv, CanInsert, CheckGrantStep, TakeNumberStep, ReadLastStep, StepsAhead, NewEventId;
    CanInsertIsAtWork(m, op, g);
    var a := StepAhead(m, op);
    NextKeepsInv(c, m, a);
    if m.ops[op].Drafted? {
      ReadOn(c, m, op, g);
    } else if m.ops[op].checked < |m.ops[op].chain| {
      CheckOn(m, op, g);
    } else {
      NumberOn(c, m, op, g);
    }
  }

  /** Taken alone from now on, an operation that can insert does: a row under g comes next. */
  lemma {:induction false} InsertsWhenAlone(c: Suite, m: State, op: nat, g: Bytes) returns (actions: seq<Action>)
    requires Inv(c, m) && g in m.w.revoked && CanInsert(m, op, g)
    ensures FreshActions(c, m, actions)
    ensures var after := Exec(c, m, actions);
      && |after.w.events| == |m.w.events| + 1
      && InChain(after.w.grants, after.w.events[|m.w.events|].grantId, g)
    decreases StepsAhead(m.ops[op])
  {
    hide Inv, Next, CanInsert, InChain, StepsAhead, Exec, FreshActions, NewEventId;
    CanInsertIsAtWork(m, op, g);
    var a, rest := StepAhead(m, op), [];
    if m.ops[op].Signing? {
      InsertOn(c, m, op, g);
      NextIsInsert(c, m, op);
      NothingDone(c, Next(c, m, a));
    } else {
      StepOn(c, m, op, g);
      rest := InsertsWhenAlone(c, Next(c, m, a), op, g);
    }
    ExecFirst(c, m, a, rest);
    actions := [a] + rest;
  }

  lemma NextIsInsert(c: Suite, m: State, op: nat)
    ensures Next(c, m, Insert(op, Calm(m))) == InsertStep(m, op, Calm(m))
  {
  }

  lemma NothingDone(c: Suite, m: State)
    ensures Exec(c, m, []) == m && FreshActions(c, m, [])
  {
  }

  /** A row that some interleaving from here adds under g. */
  ghost predicate LateRowPossible(c: Suite, m: State, g: Bytes) {
    exists actions ::
      FreshActions(c, m, actions) && !AvoidedSince(Exec(c, m, actions).w, |m.w.events|, g)
  }

  /**
   Late rows exactly: with g revoked, some interleaving adds a row under a chain that contains g
   if and only if a recording in flight is past its check of g, no later grant of its chain is
   revoked, its leaf allows the action, its session can count on, and, once it has its event id,
   no row has that id.
   */
  lemma LateRowsExactly(c: Suite, m: State, g: Bytes)
    requires Inv(c, m) && g in m.w.revoked
    ensures LateRowPossible(c, m, g) <==> exists op :: CanInsert(m, op, g)
  {
    hide Inv, Exec, FreshActions, CanInsert, InChain;
    if LateRowPossible(c, m, g) {
      var actions :| FreshActions(c, m, actions) && !AvoidedSince(Exec(c, m, actions).w, |m.w.events|, g);
      var after := Exec(c, m, actions).w;
      var i :| |m.w.events| <= i < |after.events| && InChain(after.grants, after.events[i].grantId, g);
      LateRowCouldCome(c, m, actions, g, i);
    }
    if op :| CanInsert(m, op, g) {
      var actions := InsertsWhenAlone(c, m, op, g);
      assert !AvoidedSince(Exec(c, m, actions).w, |m.w.events|, g);
    }
  }
}
