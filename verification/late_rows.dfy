/**
 Revocation and the rows of an interleaving: which rows can still come under a revoked grant,
 and that nothing else can.
 */
module LateRows {
  import opened ByteStrings
  import opened Wrappers
  import opened Crypto
  import opened Records
  import opened Graph
  import opened Seal
  import opened GrantTable
  import opened EventTable
  import opened LedgerState
  import opened Operations
  import opened Runs
  import opened Machine
  import opened Interleavings
  import opened Growth
  import opened Revocation

  ghost predicate HasGrant(chain: seq<Grant>, from: nat, g: Bytes) {
    exists k :: from <= k < |chain| && chain[k].grantId == g
  }

  /** An operation in flight under a chain that contains g has already checked g, for good. */
  ghost predicate PastCheck(m: State, op: nat, g: Bytes) {
    op in m.ops &&
      match m.ops[op]
      case Checking(req, chain, checked) => HasGrant(chain, 0, g) && !HasGrant(chain, checked, g)
      case Drafted(e) => InChain(m.w.grants, e.grantId, g)
      case Signing(e) => InChain(m.w.grants, e.grantId, g)
      case _ => false
  }

  /** What an operation in flight records under keeps its chain while the tables grow. */
  lemma HeldChainKept(c: Suite, m: State, after: Ledger, op: nat, g: Bytes)
    requires Inv(c, m) && Grown(c, m.w, after) && op in m.ops && (m.ops[op].Drafted? || m.ops[op].Signing?)
    ensures var grantId := if m.ops[op].Drafted? then m.ops[op].draft.grantId else m.ops[op].event.grantId;
      InChain(after.grants, grantId, g) <==> InChain(m.w.grants, grantId, g)
  {
    hide Sound, SlotsSound, OfSession, WholeMicros, ContentSealed, SignatureSealed, ChainAccepted, PrevIn, StoredEvent,
         GrantsGrow, SessionsGrow, InChain;
    assert PcSound(c, m.w, m.ops[op]);
    var grantId := if m.ops[op].Drafted? then m.ops[op].draft.grantId else m.ops[op].event.grantId;
    LoggedChainKept(c, m.w.grants, after.grants, grantId, g);
  }

  lemma CheckedNotRevoked(m: State, op: nat, ctx: Context, g: Bytes)
    requires g in m.w.revoked && PastCheck(CheckGrantStep(m, op, ctx), op, g)
    ensures PastCheck(m, op, g)
  {
    hide InChain;
  }

  lemma NumberedPastCheck(c: Suite, m: State, op: nat, ctx: Context, g: Bytes)
    requires Inv(c, m) && PastCheck(TakeNumberStep(m, op, ctx), op, g)
    ensures PastCheck(m, op, g)
  {
    hide Sound, SlotsSound, OfSession, ContentSealed, ChainAccepted, ChainOf, Allows, SessionRoot;
    if op in m.ops && m.ops[op].Checking? && m.ops[op].checked == |m.ops[op].chain| {
      assert PcSound(c, m.w, m.ops[op]);
      var chain := ChainOf(m.w.grants, m.ops[op].req.grantId);
      var k :| 0 <= k < |chain| && chain[k].grantId == g;
      assert HasGrant(chain, 0, g);
    }
  }

  lemma ReadPastCheck(c: Suite, m: State, op: nat, ctx: Context, g: Bytes)
    requires PastCheck(ReadLastStep(c, m, op, ctx), op, g)
    ensures PastCheck(m, op, g)
  {
    hide InChain, SealedEvent, LastOf;
    if op in m.ops && m.ops[op].Drafted? {
      var draft := m.ops[op].draft;
      SealKeepsFields(c, draft, if LastEvent in ctx.down then None else LastOf(m.w.events, draft.sessionId));
    }
  }

  lemma UnmovedPastCheck(c: Suite, m: State, after: State, op: nat, g: Bytes)
    requires Inv(c, m) && Grown(c, m.w, after.w) && op in m.ops && op in after.ops && after.ops[op] == m.ops[op]
    requires PastCheck(after, op, g)
    ensures PastCheck(m, op, g)
  {
    hide Inv, Grown, InChain, HasGrant;
    if m.ops[op].Drafted? || m.ops[op].Signing? {
      HeldChainKept(c, m, after.w, op, g);
    }
  }

  /** Moves of an operation from one place to another. */
  predicate Moves(a: Action, op: nat) {
    match a
    case StartRecord(o, req, ctx) => o == op
    case CheckGrant(o, ctx) => o == op
    case TakeNumber(o, ctx) => o == op
    case ReadLast(o, ctx) => o == op
    case Insert(o, ctx) => o == op
    case ReadRows(o, ctx) => o == op
    case Publish(o, ctx) => o == op
    case StartEnd(o, sessionId, ctx) => o == op
    case StartDelegate(o, req, ctx) => o == op
    case StoreGrant(o, ctx) => o == op
    case Abort(o) => o == op
    case Single(whole) => false
  }

  lemma OthersDoNotMove(c: Suite, m: State, a: Action, op: nat)
    requires !Moves(a, op)
    ensures op in Next(c, m, a).ops <==> op in m.ops
    ensures op in m.ops ==> Next(c, m, a).ops[op] == m.ops[op]
  {
    hide SessionRoot, SealedEvent, LastOf, Refused, Admitted, Delegable, Allows, RequestDraft, WithGrant, StoredEvent,
         Apply;
  }

  lemma MoverPastCheck(c: Suite, m: State, a: Action, op: nat, g: Bytes)
    requires Inv(c, m) && g in m.w.revoked && Moves(a, op) && PastCheck(Next(c, m, a), op, g)
    ensures PastCheck(m, op, g)
  {
    hide Inv, InChain, TakeNumberStep, ReadLastStep, CheckGrantStep, HasGrant, SessionRoot, Refused, WithGrant,
         StoredEvent, Delegable;
    match a
    case CheckGrant(_, ctx) => CheckedNotRevoked(m, op, ctx, g);
    case TakeNumber(_, ctx) => NumberedPastCheck(c, m, op, ctx, g);
    case ReadLast(_, ctx) => ReadPastCheck(c, m, op, ctx, g);
    case _ =>
  }

  /** Once g is revoked, no step brings another operation past its check of g. */
  lemma NextPastCheck(c: Suite, m: State, a: Action, op: nat, g: Bytes)
    requires Inv(c, m) && FreshAction(m, a) && g in m.w.revoked && PastCheck(Next(c, m, a), op, g)
    ensures PastCheck(m, op, g)
  {
    hide Inv, Next, FreshAction, Grown, PastCheck, Moves;
    if Moves(a, op) {
      MoverPastCheck(c, m, a, op, g);
    } else {
      OthersDoNotMove(c, m, a, op);
      NextGrows(c, m, a);
      PastIsInFlight(Next(c, m, a), op, g);
      UnmovedPastCheck(c, m, Next(c, m, a), op, g);
    }
  }

  lemma PastIsInFlight(m: State, op: nat, g: Bytes)
    requires PastCheck(m, op, g)
    ensures op in m.ops
  {
    hide InChain, HasGrant;
  }

  // Rows

  /** The step of an interleaving that appended row i. */
  function AppendStep(c: Suite, m: State, actions: seq<Action>, i: nat): nat {
    if |actions| == 0 then 0
    else if i < |Exec(c, m, actions[..|actions| - 1]).w.events| then AppendStep(c, m, actions[..|actions| - 1], i)
    else |actions| - 1
  }

  /** A row under g that was not there before is the insert of an operation past its check of g, which ends it. */
  lemma AppendedUnder(c: Suite, m: State, a: Action, i: nat, g: Bytes)
    requires Inv(c, m) && FreshAction(m, a) && |m.w.events| <= i < |Next(c, m, a).w.events|
    requires InChain(Next(c, m, a).w.grants, Next(c, m, a).w.events[i].grantId, g)
    ensures a.Insert? && PastCheck(m, a.op, g) && !PastCheck(Next(c, m, a), a.op, g)
    ensures i == |m.w.events| && |Next(c, m, a).w.events| == i + 1
  {
    hide Inv, FreshAction, InChain, HasGrant, TakeNumberStep, ReadLastStep, SessionRoot, Refused, WithGrant, Apply;
    if a.Single? && OneStep(a.whole) {
      OneStepKeepsEvents(c, m, a.whole);
    }
    if a.TakeNumber? {
      NumberKeepsEvents(m, a.op, a.ctx);
    }
    if a.ReadLast? {
      ReadKeepsEvents(c, m, a.op, a.ctx);
    }
    if a.StoreGrant? && a.op in m.ops && m.ops[a.op].Granting? {
      GrantOnly(m.w, m.ops[a.op].grant);
    }
  }

  lemma OneStepKeepsEvents(c: Suite, m: State, whole: Op)
    requires OneStep(whole)
    ensures Apply(c, m.w, whole).events == m.w.events
  {
    hide Apply;
    OthersKeepEvents(c, m.w, whole);
  }

  lemma NumberKeepsEvents(m: State, op: nat, ctx: Context)
    ensures TakeNumberStep(m, op, ctx).w.events == m.w.events
  {
    hide Allows, RequestDraft;
  }

  lemma ReadKeepsEvents(c: Suite, m: State, op: nat, ctx: Context)
    ensures ReadLastStep(c, m, op, ctx).w.events == m.w.events
  {
    hide SealedEvent, LastOf;
  }

  /** Rows of the earlier state stay, with the chains they were recorded under. */
  lemma RowKept(c: Suite, m: State, after: State, i: nat, g: Bytes)
    requires Inv(c, m) && Grown(c, m.w, after.w) && i < |m.w.events|
    ensures i < |after.w.events| && after.w.events[i] == m.w.events[i]
    ensures InChain(after.w.grants, after.w.events[i].grantId, g) <==> InChain(m.w.grants, m.w.events[i].grantId, g)
  {
    hide Issued, AnchorsSound, SessionsSound, KeysUnique, PcsSound, SlotsSound, OfSession, ContentSealed,
         SignatureSealed, ChainAccepted, PrevIn, GrantsGrow, SessionsGrow, InChain;
    assert EventSound(c, m.w.grants, m.w.sessions, m.w.events[i]);
    LoggedChainKept(c, m.w.grants, after.w.grants, m.w.events[i].grantId, g);
  }

  /** An operation past its check of g is so ever since g was revoked: it was in flight then. */
  lemma {:induction false} PastSinceRevoked(c: Suite, m: State, actions: seq<Action>, op: nat, g: Bytes, j: nat)
    requires Inv(c, m) && FreshActions(c, m, actions) && g in m.w.revoked && j <= |actions|
    requires PastCheck(Exec(c, m, actions), op, g)
    ensures PastCheck(Exec(c, m, actions[..j]), op, g)
  {
    hide Inv, Next, FreshAction, PastCheck, Extends;
    if j == |actions| {
      assert actions[..j] == actions;
    } else {
      var earlier := actions[..|actions| - 1];
      ExecGrows(c, m, earlier);
      NextPastCheck(c, Exec(c, m, earlier), actions[|actions| - 1], op, g);
      PastSinceRevoked(c, m, earlier, op, g, j);
      assert earlier[..j] == actions[..j];
    }
  }

  /**
   Revocation under interleaving: once g is revoked, every further row under a chain that contains
   g is the insert of an operation that was past its check of g when g was revoked and stayed in
   flight until that insert, which ends it.
   */
  lemma {:induction false} LateRowWasChecked(c: Suite, m: State, actions: seq<Action>, g: Bytes, i: nat)
    requires Inv(c, m) && FreshActions(c, m, actions) && g in m.w.revoked
    requires |m.w.events| <= i < |Exec(c, m, actions).w.events|
    requires InChain(Exec(c, m, actions).w.grants, Exec(c, m, actions).w.events[i].grantId, g)
    ensures var k := AppendStep(c, m, actions, i);
      && k < |actions| && actions[k].Insert?
      && (forall j :: 0 <= j <= k ==> PastCheck(Exec(c, m, actions[..j]), actions[k].op, g))
      && !PastCheck(Exec(c, m, actions), actions[k].op, g)
  {
    hide Inv, Next, FreshAction, PastCheck, Extends, InChain;
    if |actions| > 0 {
      var earlier, a := actions[..|actions| - 1], actions[|actions| - 1];
      var before := Exec(c, m, earlier);
      ExecGrows(c, m, earlier);
      NextGrows(c, before, a);
      if i < |before.w.events| {
        RowKept(c, before, Next(c, before, a), i, g);
        LateRowWasChecked(c, m, earlier, g, i);
        var k := AppendStep(c, m, earlier, i);
        forall j | 0 <= j <= k
          ensures PastCheck(Exec(c, m, actions[..j]), actions[k].op, g)
        {
          assert earlier[..j] == actions[..j];
        }
        StaysUnpast(c, before, a, actions[k].op, g);
      } else {
        AppendedUnder(c, before, a, i, g);
        forall j | 0 <= j <= |earlier|
          ensures PastCheck(Exec(c, m, actions[..j]), a.op, g)
        {
          PastSinceRevoked(c, m, earlier, a.op, g, j);
          assert earlier[..j] == actions[..j];
        }
      }
    }
  }

  lemma StaysUnpast(c: Suite, m: State, a: Action, op: nat, g: Bytes)
    requires Inv(c, m) && FreshAction(m, a) && g in m.w.revoked && !PastCheck(m, op, g)
    ensures !PastCheck(Next(c, m, a), op, g)
  {
    hide Inv, Next, FreshAction, PastCheck;
    if PastCheck(Next(c, m, a), op, g) {
      NextPastCheck(c, m, a, op, g);
    }
  }

  /** Each such operation inserts at most one such row. */
  lemma {:induction false} OneLateRowEach(c: Suite, m: State, actions: seq<Action>, g: Bytes, i: nat, j: nat)
    requires Inv(c, m) && FreshActions(c, m, actions) && g in m.w.revoked
    requires |m.w.events| <= i < j < |Exec(c, m, actions).w.events|
    requires InChain(Exec(c, m, actions).w.grants, Exec(c, m, actions).w.events[i].grantId, g)
    requires InChain(Exec(c, m, actions).w.grants, Exec(c, m, actions).w.events[j].grantId, g)
    ensures var k, l := AppendStep(c, m, actions, i), AppendStep(c, m, actions, j);
      k < |actions| && l < |actions| && actions[k].Insert? && actions[l].Insert? && actions[k].op != actions[l].op
  {
    hide Inv, Next, FreshAction, PastCheck, Extends, InChain;
    LateRowWasChecked(c, m, actions, g, i);
    LateRowWasChecked(c, m, actions, g, j);
    var earlier, a := actions[..|actions| - 1], actions[|actions| - 1];
    var before := Exec(c, m, earlier);
    ExecGrows(c, m, earlier);
    NextGrows(c, before, a);
    if j < |before.w.events| {
      RowKept(c, before, Next(c, before, a), i, g);
      RowKept(c, before, Next(c, before, a), j, g);
      OneLateRowEach(c, m, earlier, g, i, j);
    } else {
      AppendedUnder(c, before, a, j, g);
      RowKept(c, before, Next(c, before, a), i, g);
      LateRowWasChecked(c, m, earlier, g, i);
    }
  }

  /** If no operation in flight is past its check of g when g is revoked, no later row comes under g. */
  lemma NothingInFlightNothingLate(c: Suite, m: State, actions: seq<Action>, g: Bytes)
    requires Inv(c, m) && FreshActions(c, m, actions) && g in m.w.revoked
    requires forall op :: !PastCheck(m, op, g)
    ensures AvoidedSince(Exec(c, m, actions).w, |m.w.events|, g)
  {
    hide Inv, Exec, FreshActions, PastCheck, InChain;
    var after := Exec(c, m, actions);
    forall i | |m.w.events| <= i < |after.w.events|
      ensures !InChain(after.w.grants, after.w.events[i].grantId, g)
    {
      if InChain(after.w.grants, after.w.events[i].grantId, g) {
        LateRowWasChecked(c, m, actions, g, i);
        ExecNothing(c, m, actions);
      }
    }
  }

  lemma ExecNothing(c: Suite, m: State, actions: seq<Action>)
    ensures Exec(c, m, actions[..0]) == m
  {
  }
}
