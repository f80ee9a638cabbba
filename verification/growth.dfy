/** What every step and every interleaving only adds to: grants, revocations, sessions and rows. */
module Growth {
  import opened ByteStrings
  import opened Wrappers
  import opened Crypto
  import opened Records
  import opened Graph
  import opened Seal
  import opened GrantTable
  import opened EventTable
  import opened LedgerState
  import opened Operations
  import opened Runs
  import opened Machine
  import opened Interleavings

  ghost predicate Grown(c: Suite, w: Ledger, after: Ledger) {
    Extends(c, w, after) && w.revoked.Keys <= after.revoked.Keys
  }

  lemma GrownRefl(c: Suite, w: Ledger)
    requires Issued(c, w.grants)
    ensures Grown(c, w, w)
  {
    hide Issued;
  }

  lemma GrownTrans(c: Suite, w: Ledger, middle: Ledger, after: Ledger)
    requires Grown(c, w, middle) && Grown(c, middle, after)
    ensures Grown(c, w, after)
  {
    hide Issued;
  }

  lemma InvIsIssued(c: Suite, m: State)
    requires Inv(c, m)
    ensures Issued(c, m.w.grants)
  {
    hide Issued, EventsSound, AnchorsSound, SessionsSound, KeysUnique, PcsSound, SlotsSound;
  }

  /** Steps that leave grants and revocations alone and at most append a row or grow a session. */
  lemma RecordingGrows(c: Suite, w: Ledger, after: Ledger)
    requires Issued(c, w.grants) && after.grants == w.grants && after.revoked == w.revoked
    requires SessionsGrow(w.sessions, after.sessions) && w.events <= after.events
    ensures Grown(c, w, after)
  {
    hide Issued, SessionsGrow;
  }

  lemma TakeNumberGrows(c: Suite, m: State, op: nat, ctx: Context)
    requires Inv(c, m)
    ensures Grown(c, m.w, TakeNumberStep(m, op, ctx).w)
  {
    hide Issued, Inv, Allows, RequestDraft;
    InvIsIssued(c, m);
  }

  lemma InsertGrows(c: Suite, m: State, op: nat, ctx: Context)
    requires Inv(c, m)
    ensures Grown(c, m.w, InsertStep(m, op, ctx).w)
  {
    hide Issued, Inv, Refused, StoredEvent;
    InvIsIssued(c, m);
  }

  lemma StoreGrantGrows(c: Suite, m: State, op: nat, ctx: Context)
    requires Inv(c, m) && FreshAction(m, StoreGrant(op, ctx))
    ensures Grown(c, m.w, StoreGrantStep(m, op, ctx).w)
  {
    hide SlotsSound, EventsSound, KeysUnique, SessionsSound, AnchorsSound, IssuedAfter, WithGrant;
    GrownRefl(c, m.w);
    if op in m.ops && m.ops[op].Granting? {
      assert PcSound(c, m.w, m.ops[op]);
      GrantKeepsSound(c, m.w, m.ops[op].grant);
      GrantOnly(m.w, m.ops[op].grant);
    }
  }

  lemma SingleGrows(c: Suite, m: State, whole: Op)
    requires Inv(c, m) && OneStep(whole) && FreshId(m.w, whole)
    ensures Grown(c, m.w, Apply(c, m.w, whole))
  {
    hide SlotsSound, PcsSound, EventsSound, KeysUnique, SessionsSound, AnchorsSound, IssuedAfter, WithGrant, RootGrant,
         ChildGrant, Issued;
    GrownRefl(c, m.w);
    match whole
    case OpIssue(req, ctx) =>
      var g := RootGrant(c, req, ctx.newId);
      RootGrantIssued(c, m.w.grants, req, ctx.newId);
      GrantIdsKept(c, req, DelegateRequest([], [], [], None), g, ctx.newId);
      GrantKeepsSound(c, m.w, g);
      GrantOnly(m.w, g);
    case OpRevoke(grantId, reason, ctx) =>
    case OpBegin(rootGrantId, surface, ctx) =>
    case _ =>
  }

  /** Steps that only read, move in memory or stop. */
  lemma OthersKeepTables(c: Suite, m: State, a: Action)
    requires a.StartRecord? || a.CheckGrant? || a.ReadLast? || a.ReadRows? || a.StartDelegate? || a.Abort?
             || (a.Single? && !OneStep(a.whole))
    ensures Next(c, m, a).w == m.w
  {
    hide Admitted, Delegable, SealedEvent, LastOf, SessionRoot, Apply;
  }

  lemma EndGrows(c: Suite, m: State, op: nat, sessionId: Bytes, ctx: Context)
    requires Issued(c, m.w.grants)
    ensures Grown(c, m.w, StartEndStep(m, op, sessionId, ctx).w)
  {
    hide Issued, Grown;
    RecordingGrows(c, m.w, StartEndStep(m, op, sessionId, ctx).w);
  }

  lemma PublishGrows(c: Suite, m: State, op: nat, ctx: Context)
    requires Issued(c, m.w.grants)
    ensures Grown(c, m.w, PublishStep(m, op, ctx).w)
  {
    hide Issued, Grown;
    RecordingGrows(c, m.w, PublishStep(m, op, ctx).w);
  }

  lemma NextGrows(c: Suite, m: State, a: Action)
    requires Inv(c, m) && FreshAction(m, a)
    ensures Grown(c, m.w, Next(c, m, a).w)
  {
    hide Inv, Grown, Issued, StartRecordStep, CheckGrantStep, TakeNumberStep, ReadLastStep, InsertStep, ReadRowsStep,
         PublishStep, StartEndStep, StartDelegateStep, StoreGrantStep, Stop, Apply, FreshId;
    InvIsIssued(c, m);
    GrownRefl(c, m.w);
    match a
    case TakeNumber(op, ctx) => TakeNumberGrows(c, m, op, ctx);
    case Insert(op, ctx) => InsertGrows(c, m, op, ctx);
    case StoreGrant(op, ctx) => StoreGrantGrows(c, m, op, ctx);
    case StartEnd(op, sessionId, ctx) => EndGrows(c, m, op, sessionId, ctx);
    case Publish(op, ctx) => PublishGrows(c, m, op, ctx);
    case Single(whole) =>
      if OneStep(whole) {
        SingleGrows(c, m, whole);
      }
    case _ => OthersKeepTables(c, m, a);
  }

  /** Every interleaving from a state that keeps the invariant keeps it, and only adds to the tables. */
  lemma {:induction false} ExecGrows(c: Suite, m: State, actions: seq<Action>)
    requires Inv(c, m) && FreshActions(c, m, actions)
    ensures Inv(c, Exec(c, m, actions)) && Grown(c, m.w, Exec(c, m, actions).w)
  {
    hide Inv, Next, FreshAction, Grown;
    if |actions| == 0 {
      InvIsIssued(c, m);
      GrownRefl(c, m.w);
    } else {
      var before, a := Exec(c, m, actions[..|actions| - 1]), actions[|actions| - 1];
      ExecGrows(c, m, actions[..|actions| - 1]);
      NextKeepsInv(c, before, a);
      NextGrows(c, before, a);
      GrownTrans(c, m.w, before.w, Next(c, before, a).w);
    }
  }
}
