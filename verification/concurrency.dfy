/**
 How interleavings and whole operations relate: the steps of an operation without interruption
 are the whole operation. And no recording that starts after a revocation passes its check.
 */
module Concurrency {
  import opened ByteStrings
  import opened Wrappers
  import opened Crypto
  import opened Records
  import opened Graph
  import opened Seal
  import opened GrantTable
  import opened EventTable
  import opened LedgerState
  import opened Operations
  import opened Runs
  import opened Machine
  import opened Revocation

  lemma {:induction false} ExecConcat(c: Suite, m: State, first: seq<Action>, second: seq<Action>)
    ensures Exec(c, m, first + second) == Exec(c, Exec(c, m, first), second)
  {
    hide Next;
    if |second| == 0 {
      assert first + second == first;
    } else {
      ExecConcat(c, m, first, second[..|second| - 1]);
      assert (first + second)[..|first + second| - 1] == first + second[..|second| - 1];
    }
  }

  lemma ExecSnoc(c: Suite, m: State, actions: seq<Action>, a: Action)
    ensures Exec(c, m, actions + [a]) == Next(c, Exec(c, m, actions), a)
  {
    hide Next;
    assert (actions + [a])[..|actions|] == actions;
  }

  // Revocation under interleaving

  predicate Starts(a: Action, op: nat) {
    (a.StartRecord? || a.StartEnd? || a.StartDelegate?) && a.op == op
  }

  /** The operation has ended, or still has the grant g ahead of it in its revocation check. */
  ghost predicate Blocked(m: State, op: nat, g: Bytes) {
    op in m.ops ==>
      && m.ops[op].Checking?
      && exists k :: m.ops[op].checked <= k < |m.ops[op].chain| && m.ops[op].chain[k].grantId == g
  }

  lemma NextKeepsRevoked(c: Suite, m: State, a: Action, g: Bytes)
    requires g in m.w.revoked
    ensures g in Next(c, m, a).w.revoked
  {
    hide SessionRoot, SealedEvent, LastOf, Refused, Admitted, Delegable, Allows, RequestDraft, RootGrant, StoredGrant,
         PutRow, StoredEvent;
  }

  lemma NextKeepsBlocked(c: Suite, m: State, a: Action, op: nat, g: Bytes)
    requires g in m.w.revoked && Blocked(m, op, g) && !Starts(a, op)
    ensures Blocked(Next(c, m, a), op, g)
  {
    hide SessionRoot, SealedEvent, LastOf, Refused, Admitted, Delegable, Allows, RequestDraft, RootGrant, StoredGrant,
         PutRow, StoredEvent, Apply;
  }

  /**
   Revocation safety under interleaving: a recording that starts after g was revoked, with g in
   its grant's chain, never gets past its revocation check, whatever other operations do.
   */
  lemma {:induction false} LateRecordingIsBlocked(c: Suite, m: State, op: nat, req: ActionRequest, ctx: Context,
                                                  g: Bytes, actions: seq<Action>)
    requires op !in m.ops && g in m.w.revoked && InChain(m.w.grants, req.grantId, g)
    requires forall i :: 0 <= i < |actions| ==> !Starts(actions[i], op)
    ensures var after := Exec(c, Next(c, m, StartRecord(op, req, ctx)), actions);
      g in after.w.revoked && Blocked(after, op, g)
  {
    hide Next, ChainOf, Blocked;
    var started := Next(c, m, StartRecord(op, req, ctx));
    if |actions| == 0 {
      StartedIsBlocked(c, m, op, req, ctx, g);
    } else {
      var before := Exec(c, started, actions[..|actions| - 1]);
      LateRecordingIsBlocked(c, m, op, req, ctx, g, actions[..|actions| - 1]);
      NextKeepsRevoked(c, before, actions[|actions| - 1], g);
      NextKeepsBlocked(c, before, actions[|actions| - 1], op, g);
    }
  }

  lemma StartedIsBlocked(c: Suite, m: State, op: nat, req: ActionRequest, ctx: Context, g: Bytes)
    requires op !in m.ops && g in m.w.revoked && InChain(m.w.grants, req.grantId, g)
    ensures var started := Next(c, m, StartRecord(op, req, ctx)); g in started.w.revoked && Blocked(started, op, g)
  {
    hide ChainOf, ChainHolds;
  }

  // A recording without interruption

  function CheckSteps(op: nat, ctx: Context, n: nat): seq<Action> {
    if n == 0 then [] else CheckSteps(op, ctx, n - 1) + [CheckGrant(op, ctx)]
  }

  /** The steps of a recording under a chain of n grants. */
  function RecordSteps(op: nat, req: ActionRequest, ctx: Context, n: nat): seq<Action> {
    ([StartRecord(op, req, ctx)] + CheckSteps(op, ctx, n)) + LateSteps(op, ctx)
  }

  function LateSteps(op: nat, ctx: Context): seq<Action> {
    [TakeNumber(op, ctx), ReadLast(op, ctx), Insert(op, ctx), ReadRows(op, ctx), Publish(op, ctx)]
  }

  /** Once an operation has ended, its further steps do nothing. */
  lemma {:induction false} EndedStaysEnded(c: Suite, m: State, op: nat, ctx: Context, n: nat)
    requires op !in m.ops
    ensures Exec(c, m, CheckSteps(op, ctx, n)) == m
  {
    if n > 0 {
      EndedStaysEnded(c, m, op, ctx, n - 1);
      ExecSnoc(c, m, CheckSteps(op, ctx, n - 1), CheckGrant(op, ctx));
    }
  }

  lemma ExecLateSteps(c: Suite, m: State, op: nat, ctx: Context)
    ensures Exec(c, m, LateSteps(op, ctx)) ==
      var inserted := InsertStep(ReadLastStep(c, TakeNumberStep(m, op, ctx), op, ctx), op, ctx);
      PublishStep(ReadRowsStep(c, inserted, op, ctx), op, ctx)
  {
    hide TakeNumberStep, ReadLastStep, InsertStep, ReadRowsStep, PublishStep;
    var s := LateSteps(op, ctx);
    assert s[..5] == s && s[..4][..3] == s[..3] && s[..3][..2] == s[..2] && s[..2][..1] == s[..1] && s[..1][..0] == [];
    assert s == s[..4] + [s[4]] && s[..4] == s[..3] + [s[3]] && s[..3] == s[..2] + [s[2]] && s[..2] == s[..1] + [s[1]];
    assert s[..1] == [] + [s[0]];
    ExecSnoc(c, m, s[..4], s[4]);
    ExecSnoc(c, m, s[..3], s[3]);
    ExecSnoc(c, m, s[..2], s[2]);
    ExecSnoc(c, m, s[..1], s[1]);
    ExecSnoc(c, m, [], s[0]);
  }

  predicate AnyRevokedBelow(revoked: map<Bytes, Bytes>, chain: seq<Grant>, n: nat)
    requires n <= |chain|
  {
    exists i | 0 <= i < n :: chain[i].grantId in revoked
  }

  /** The operation has passed n grants, or ended at a revoked one, without touching the tables. */
  predicate CheckedTo(m: State, after: State, op: nat, req: ActionRequest, chain: seq<Grant>, ctx: Context, n: nat)
    requires n <= |chain|
  {
    && after.w == m.w
    && if n > 0 && (IsRevoked in ctx.down || AnyRevokedBelow(m.w.revoked, chain, n)) then op !in after.ops
       else op in after.ops && after.ops[op] == Checking(req, chain, n)
  }

  lemma CheckNext(m: State, after: State, op: nat, req: ActionRequest, chain: seq<Grant>, ctx: Context, n: nat)
    requires n < |chain| && CheckedTo(m, after, op, req, chain, ctx, n)
    ensures CheckedTo(m, CheckGrantStep(after, op, ctx), op, req, chain, ctx, n + 1)
  {
    hide AnyRevokedBelow;
    AnyRevokedNext(m.w.revoked, chain, n);
  }

  lemma AnyRevokedNext(revoked: map<Bytes, Bytes>, chain: seq<Grant>, n: nat)
    requires n < |chain|
    ensures AnyRevokedBelow(revoked, chain, n + 1) <==>
      AnyRevokedBelow(revoked, chain, n) || chain[n].grantId in revoked
    ensures !AnyRevokedBelow(revoked, chain, 0)
  {
  }

  /** The revocation check, step by step: it ends at the first revoked grant or reaches the chain's end. */
  lemma {:induction false} ExecCheckSteps(c: Suite, m: State, op: nat, req: ActionRequest, chain: seq<Grant>,
                                          ctx: Context, n: nat)
    requires op in m.ops && m.ops[op] == Checking(req, chain, 0) && n <= |chain|
    ensures CheckedTo(m, Exec(c, m, CheckSteps(op, ctx, n)), op, req, chain, ctx, n)
  {
    hide CheckGrantStep, AnyRevokedBelow;
    if n > 0 {
      ExecCheckSteps(c, m, op, req, chain, ctx, n - 1);
      ExecSnoc(c, m, CheckSteps(op, ctx, n - 1), CheckGrant(op, ctx));
      CheckNext(m, Exec(c, m, CheckSteps(op, ctx, n - 1)), op, req, chain, ctx, n - 1);
    }
  }

  /** From a passed check on, the five store calls do what `Record` does after its authorization. */
  lemma LateStepsRecord(c: Suite, m: State, op: nat, req: ActionRequest, chain: seq<Grant>, ctx: Context)
    requires op in m.ops && m.ops[op] == Checking(req, chain, |chain|) && |chain| > 0
    ensures var after := Exec(c, m, LateSteps(op, ctx));
      && op !in after.ops
      && after.w ==
        if !Allows(chain[|chain| - 1], req.actionType, req.resource, req.valueCents)
           || NextSequence in ctx.down || !Countable(m.w, req.sessionId) then m.w
        else Notarize(c, WithNextSequence(m.w, req.sessionId), RequestDraft(m.w, req, ctx), ctx).0
  {
    hide Allows, SessionRoot, SealedEvent, LastOf, Refused, RequestDraft, Countable, StoredEvent;
    ExecLateSteps(c, m, op, ctx);
    var m1 := TakeNumberStep(m, op, ctx);
    if op in m1.ops {
      var draft := m1.ops[op].draft;
      var prev := if LastEvent in ctx.down then None else LastOf(m1.w.events, draft.sessionId);
      SealKeepsFields(c, draft, prev);
    }
  }

  lemma SplitAuthorization(c: Suite, w: Ledger, req: ActionRequest, ctx: Context)
    requires Admitted(c, w, req, ctx).Ok?
    ensures var chain := Admitted(c, w, req, ctx).value;
      Authorized(c, w, req, ctx).Ok? <==>
        && IsRevoked !in ctx.down
        && !AnyRevokedBelow(w.revoked, chain, |chain|)
        && Allows(chain[|chain| - 1], req.actionType, req.resource, req.valueCents)
  {
    hide Admitted, Allows;
  }

  /**
   Refinement: the steps of a recording with nothing in between have exactly the effect of
   `Record`, so runs of whole operations are among the interleavings.
   */
  lemma UninterruptedRecordingIsRecord(c: Suite, m: State, op: nat, req: ActionRequest, ctx: Context)
    requires op !in m.ops
    ensures var n := |ChainOf(m.w.grants, req.grantId)|;
      var after := Exec(c, m, RecordSteps(op, req, ctx, n));
      after.w == Record(c, m.w, req, ctx).0 && op !in after.ops
  {
    hide Next, Notarize, Allows, RequestDraft, Countable, ChainOf, ChainHolds;
    var n := |ChainOf(m.w.grants, req.grantId)|;
    var started := StartRecordStep(c, m, op, req, ctx);
    var checked := Exec(c, started, CheckSteps(op, ctx, n));
    StartFirst(c, m, op, req, ctx, n);
    if Admitted(c, m.w, req, ctx).Err? {
      EndedStaysEnded(c, m, op, ctx, n);
      EndedSkipsLateSteps(c, m, op, ctx);
    } else {
      var chain := Admitted(c, m.w, req, ctx).value;
      ExecCheckSteps(c, started, op, req, chain, ctx, n);
      SplitAuthorization(c, m.w, req, ctx);
      if op in checked.ops {
        LateStepsRecord(c, checked, op, req, chain, ctx);
      } else {
        EndedSkipsLateSteps(c, checked, op, ctx);
      }
    }
  }

  lemma StartFirst(c: Suite, m: State, op: nat, req: ActionRequest, ctx: Context, n: nat)
    ensures Exec(c, m, RecordSteps(op, req, ctx, n)) ==
      Exec(c, Exec(c, StartRecordStep(c, m, op, req, ctx), CheckSteps(op, ctx, n)), LateSteps(op, ctx))
  {
    hide StartRecordStep, LateSteps, CheckSteps;
    var start := [StartRecord(op, req, ctx)];
    ExecConcat(c, m, start + CheckSteps(op, ctx, n), LateSteps(op, ctx));
    ExecConcat(c, m, start, CheckSteps(op, ctx, n));
    ExecSnoc(c, m, [], StartRecord(op, req, ctx));
    assert [] + start == start;
  }

  lemma EndedSkipsLateSteps(c: Suite, m: State, op: nat, ctx: Context)
    requires op !in m.ops
    ensures Exec(c, m, LateSteps(op, ctx)) == m
  {
    ExecLateSteps(c, m, op, ctx);
  }

  // An ending and a delegation without interruption

  /** The two steps of a checkpoint with nothing in between have exactly the effect of `Checkpoint`. */
  lemma CheckpointSteps(c: Suite, m: State, op: nat, ctx: Context, sessionId: Bytes)
    requires op in m.ops && m.ops[op] == Checkpointing(sessionId)
    ensures var after := PublishStep(ReadRowsStep(c, m, op, ctx), op, ctx);
      after.w == Checkpoint(c, m.w, sessionId, ctx).0 && op !in after.ops
  {
    hide SessionRoot;
  }

  /** The steps of an ending with nothing in between have exactly the effect of `End`. */
  lemma UninterruptedEndIsEnd(c: Suite, m: State, op: nat, sessionId: Bytes, ctx: Context)
    requires op !in m.ops
    ensures var after := Exec(c, m, [StartEnd(op, sessionId, ctx), ReadRows(op, ctx), Publish(op, ctx)]);
      after.w == End(c, m.w, sessionId, ctx).0 && op !in after.ops
  {
    hide ReadRowsStep, PublishStep, Checkpoint;
    var start, read, publish := StartEnd(op, sessionId, ctx), ReadRows(op, ctx), Publish(op, ctx);
    ExecSnoc(c, m, [start, read], publish);
    ExecSnoc(c, m, [start], read);
    ExecSnoc(c, m, [], start);
    assert [start, read] + [publish] == [start, read, publish];
    assert [start] + [read] == [start, read] && [] + [start] == [start];
    var started := StartEndStep(m, op, sessionId, ctx);
    if op in started.ops {
      CheckpointSteps(c, started, op, ctx, sessionId);
    } else {
      NoCheckpointSteps(c, started, op, ctx);
    }
  }

  lemma NoCheckpointSteps(c: Suite, m: State, op: nat, ctx: Context)
    requires op !in m.ops
    ensures PublishStep(ReadRowsStep(c, m, op, ctx), op, ctx) == m
  {
  }

  /** The steps of a delegation with nothing in between have exactly the effect of `Delegate`. */
  lemma UninterruptedDelegateIsDelegate(c: Suite, m: State, op: nat, req: DelegateRequest, ctx: Context)
    requires op !in m.ops
    ensures var after := Exec(c, m, [StartDelegate(op, req, ctx), StoreGrant(op, ctx)]);
      after.w == Delegate(c, m.w, req, ctx).0 && op !in after.ops
  {
    hide Delegable, WithGrant;
    var start, store := StartDelegate(op, req, ctx), StoreGrant(op, ctx);
    ExecSnoc(c, m, [start], store);
    ExecSnoc(c, m, [], start);
    assert [start] + [store] == [start, store] && [] + [start] == [start];
  }
}
