/**
 The services under concurrency: every operation is a sequence of steps, and the steps of any
 number of operations interleave. An operation can stop at any step. A step makes one store call,
 except that an operation's first reads are joined with each other or with the write after them:
 what they find never changes, so the step stands at the last of its calls (`StoreCalls`).
 */
module Machine {
  import opened ByteStrings
  import opened Wrappers
  import opened Crypto
  import opened Records
  import opened Graph
  import opened Seal
  import opened GrantTable
  import opened EventTable
  import opened LedgerState
  import opened Operations
  import opened Runs

  /** How far an operation in flight has come, and what it holds in memory. */
  datatype Pc =
    | Checking(req: ActionRequest, chain: seq<Grant>, checked: nat)
    | Drafted(draft: ActionEvent)
    | Signing(event: ActionEvent)
    | Checkpointing(sessionId: Bytes)
    | Rooted(rootedId: Bytes, root: Bytes)
    | Granting(grant: Grant)

  /** A sequence number of a session. */
  datatype Slot = Slot(sessionId: Bytes, sequence: int)

  /** `lost` remembers the numbers whose operation stopped before its event was inserted. */
  datatype State = State(w: Ledger, ops: map<nat, Pc>, lost: set<Slot>)

  const INITIAL := State(EMPTY_LEDGER, map[], {})

  datatype Action =
    | StartRecord(op: nat, req: ActionRequest, ctx: Context)
    | CheckGrant(op: nat, ctx: Context)
    | TakeNumber(op: nat, ctx: Context)
    | ReadLast(op: nat, ctx: Context)
    | Insert(op: nat, ctx: Context)
    | ReadRows(op: nat, ctx: Context)
    | Publish(op: nat, ctx: Context)
    | StartEnd(op: nat, sessionId: Bytes, ctx: Context)
    | StartDelegate(op: nat, delegate: DelegateRequest, ctx: Context)
    | StoreGrant(op: nat, ctx: Context)
    | Abort(op: nat)
    | Single(whole: Op)

  function SlotOf(pc: Pc): Option<Slot> {
    match pc
    case Drafted(e) => Some(Slot(e.sessionId, e.sequence))
    case Signing(e) => Some(Slot(e.sessionId, e.sequence))
    case _ => None
  }

  function Goto(m: State, op: nat, pc: Pc): State {
    m.(ops := m.ops[op := pc])
  }

  /** The operation ends; a number that it holds is lost. */
  function Stop(m: State, op: nat): State
    requires op in m.ops
  {
    var slot := SlotOf(m.ops[op]);
    m.(ops := m.ops - {op}, lost := if slot.Some? then m.lost + {slot.value} else m.lost)
  }

  function StartRecordStep(c: Suite, m: State, op: nat, req: ActionRequest, ctx: Context): State {
    var admitted := Admitted(c, m.w, req, ctx);
    if op in m.ops || admitted.Err? then m else Goto(m, op, Checking(req, admitted.value, 0))
  }

  /** One iteration of `ensureNotRevoked`. */
  function CheckGrantStep(m: State, op: nat, ctx: Context): State {
    if op !in m.ops || !m.ops[op].Checking? || m.ops[op].checked >= |m.ops[op].chain| then m
    else
      var pc := m.ops[op];
      if IsRevoked in ctx.down || pc.chain[pc.checked].grantId in m.w.revoked then Stop(m, op)
      else Goto(m, op, pc.(checked := pc.checked + 1))
  }

  /** `Authorizes` on the leaf, `NextSequence` and the draft; a session's project and surface never change. */
  function TakeNumberStep(m: State, op: nat, ctx: Context): State {
    if op !in m.ops || !m.ops[op].Checking? || m.ops[op].checked != |m.ops[op].chain| then m
    else
      var req, chain := m.ops[op].req, m.ops[op].chain;
      if |chain| == 0 || !Allows(chain[|chain| - 1], req.actionType, req.resource, req.valueCents)
         || NextSequence in ctx.down || !Countable(m.w, req.sessionId) then Stop(m, op)
      else Goto(m.(w := WithNextSequence(m.w, req.sessionId)), op, Drafted(RequestDraft(m.w, req, ctx)))
  }

  function ReadLastStep(c: Suite, m: State, op: nat, ctx: Context): State {
    if op !in m.ops || !m.ops[op].Drafted? then m
    else
      var draft := m.ops[op].draft;
      var prev := if LastEvent in ctx.down then None else LastOf(m.w.events, draft.sessionId);
      Goto(m, op, Signing(SealedEvent(c, draft, prev)))
  }

  function InsertStep(m: State, op: nat, ctx: Context): State {
    if op !in m.ops || !m.ops[op].Signing? then m
    else
      var e := m.ops[op].event;
      if AppendEvent in ctx.down || Refused(m.w.events, e) then Stop(m, op)
      else Goto(m.(w := WithEvent(m.w, e)), op, Checkpointing(e.sessionId))
  }

  function ReadRowsStep(c: Suite, m: State, op: nat, ctx: Context): State {
    if op !in m.ops || !m.ops[op].Checkpointing? then m
    else if Call.EventsBySession in ctx.down then Stop(m, op)
    else
      var sessionId := m.ops[op].sessionId;
      Goto(m, op, Rooted(sessionId, SessionRoot(c, m.w.events, sessionId)))
  }

  function PublishStep(m: State, op: nat, ctx: Context): State {
    if op !in m.ops || !m.ops[op].Rooted? then m
    else if UpsertAnchor in ctx.down then Stop(m, op)
    else
      Stop(m.(w := WithAnchor(m.w, m.ops[op].rootedId, Anchor(m.ops[op].root, ctx.anchoredAt))), op)
  }

  function StartEndStep(m: State, op: nat, sessionId: Bytes, ctx: Context): State {
    if op in m.ops || GetSession in ctx.down || sessionId !in m.w.sessions || !ctx.access || Call.EndSession in ctx.down
    then m
    else
      var s := m.w.sessions[sessionId].(endedAt := StoredTime(Some(ctx.recordedAt)));
      Goto(m.(w := WithSession(m.w, sessionId, s)), op, Checkpointing(sessionId))
  }

  function StartDelegateStep(c: Suite, m: State, op: nat, req: DelegateRequest, ctx: Context): State {
    var child := Delegable(c, m.w, req, ctx);
    if op in m.ops || child.Err? then m else Goto(m, op, Granting(child.value))
  }

  function StoreGrantStep(m: State, op: nat, ctx: Context): State {
    if op !in m.ops || !m.ops[op].Granting? then m
    else if PutGrant in ctx.down then Stop(m, op)
    else Stop(m.(w := WithGrant(m.w, m.ops[op].grant)), op)
  }

  /** Operations with a single write after a read of what never changes take one step. */
  predicate OneStep(op: Op) {
    op.OpIssue? || op.OpRevoke? || op.OpBegin?
  }

  function Next(c: Suite, m: State, a: Action): State {
    match a
    case StartRecord(op, req, ctx) => StartRecordStep(c, m, op, req, ctx)
    case CheckGrant(op, ctx) => CheckGrantStep(m, op, ctx)
    case TakeNumber(op, ctx) => TakeNumberStep(m, op, ctx)
    case ReadLast(op, ctx) => ReadLastStep(c, m, op, ctx)
    case Insert(op, ctx) => InsertStep(m, op, ctx)
    case ReadRows(op, ctx) => ReadRowsStep(c, m, op, ctx)
    case Publish(op, ctx) => PublishStep(m, op, ctx)
    case StartEnd(op, sessionId, ctx) => StartEndStep(m, op, sessionId, ctx)
    case StartDelegate(op, req, ctx) => StartDelegateStep(c, m, op, req, ctx)
    case StoreGrant(op, ctx) => StoreGrantStep(m, op, ctx)
    case Abort(op) => if op in m.ops then Stop(m, op) else m
    case Single(whole) => if OneStep(whole) then m.(w := Apply(c, m.w, whole)) else m
  }

  function Exec(c: Suite, m: State, actions: seq<Action>): State {
    if |actions| == 0 then m else Next(c, Exec(c, m, actions[..|actions| - 1]), actions[|actions| - 1])
  }

  /** Generated grant ids are nonempty, and not those of stored grants when the grant is stored. */
  predicate FreshAction(m: State, a: Action) {
    match a
    case StartDelegate(op, req, ctx) => ctx.newId != []
    case StoreGrant(op, ctx) =>
      op in m.ops && m.ops[op].Granting? ==> FindGrant(m.w.grants, m.ops[op].grant.grantId).None?
    case Single(whole) => FreshId(m.w, whole)
    case _ => true
  }

  predicate FreshActions(c: Suite, m: State, actions: seq<Action>) {
    |actions| > 0 ==>
      && FreshActions(c, m, actions[..|actions| - 1])
      && FreshAction(Exec(c, m, actions[..|actions| - 1]), actions[|actions| - 1])
  }
}
