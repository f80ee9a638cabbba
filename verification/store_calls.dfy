/**
 The services cut into single store calls: one call a step, an operation keeping in memory what it
 read. Every run of these steps has the tables of a run of the coarser machine, whose steps join
 an operation's first reads, so that what every interleaving keeps is kept here too.
 */
module StoreCalls {
  import opened ByteStrings
  import opened Wrappers
  import opened Crypto
  import opened Records
  import opened Graph
  import opened Seal
  import opened GrantTable
  import opened EventTable
  import opened LedgerState
  import opened Operations
  import opened Runs
  import opened Machine
  import opened Interleavings
  import opened Growth
  import opened SplitReads
  import opened Concurrency

  /** What an operation has read in its first call. */
  datatype FirstRead =
    | RecordRead(req: ActionRequest, session: Session)
    | DelegateRead(delegate: DelegateRequest, parent: Grant)
    | RevokeRead(grantId: Bytes, reason: Bytes)
    | BeginRead(rootGrantId: Bytes, surface: int32, grant: Grant)
    | EndRead(sessionId: Bytes)

  /** The later steps are the machine's; `held` are the sessions that recordings have read. */
  datatype CallState = CallState(m: State, begun: map<nat, FirstRead>, held: map<nat, Session>)

  datatype CallStep =
    | GetSessionToRecord(op: nat, req: ActionRequest, ctx: Context)
    | GetChain(op: nat, ctx: Context)
    | TakeNext(op: nat, ctx: Context)
    | GetParent(op: nat, delegate: DelegateRequest, ctx: Context)
    | GetParentRevoked(op: nat, ctx: Context)
    | GetGrantToRevoke(op: nat, grantId: Bytes, reason: Bytes, ctx: Context)
    | WriteRevocation(op: nat, ctx: Context)
    | GetGrantToBegin(op: nat, rootGrantId: Bytes, surface: int32, ctx: Context)
    | WriteSession(op: nat, ctx: Context)
    | GetSessionToEnd(op: nat, sessionId: Bytes, ctx: Context)
    | WriteEnd(op: nat, ctx: Context)
    | Later(a: Action)
    | GiveUp(op: nat)

  const CALL_INITIAL := CallState(INITIAL, map[], map[])

  /** The machine's steps that make one store call, or none. */
  predicate OneCall(a: Action) {
    a.CheckGrant? || a.ReadLast? || a.Insert? || a.ReadRows? || a.Publish? || a.StoreGrant? || a.Abort?
    || (a.Single? && a.whole.OpIssue?)
  }

  predicate Idle(f: CallState, op: nat) {
    op !in f.begun && op !in f.m.ops
  }

  function Reading(f: CallState, op: nat, r: FirstRead): CallState {
    f.(begun := f.begun[op := r])
  }

  /** The operation goes on from its first read, or is over. */
  function Done(f: CallState, op: nat, m: State): CallState {
    f.(m := m, begun := f.begun - {op})
  }

  // The second calls, on what was read in the first

  function AdmittedWith(c: Suite, w: Ledger, session: Session, req: ActionRequest, ctx: Context): Option<seq<Grant>> {
    var chain := ChainOf(w.grants, req.grantId);
    if GrantChain in ctx.down || |chain| == 0 || !ctx.access || session.projectId != chain[|chain| - 1].projectId
       || !ChainHolds(c, NotaryVerifier(c), chain, ctx.checkedAt)
    then None
    else Some(chain)
  }

  function GetChainStep(c: Suite, f: CallState, op: nat, ctx: Context): CallState
    requires op in f.begun && f.begun[op].RecordRead?
  {
    var req, session := f.begun[op].req, f.begun[op].session;
    var admitted := AdmittedWith(c, f.m.w, session, req, ctx);
    if admitted.None? then Done(f, op, f.m)
    else Done(f, op, Goto(f.m, op, Checking(req, admitted.value, 0))).(held := f.held[op := session])
  }

  function TakeNextStep(f: CallState, op: nat, ctx: Context): CallState {
    var m := f.m;
    if op !in m.ops || !m.ops[op].Checking? || m.ops[op].checked != |m.ops[op].chain| || op !in f.held then f
    else
      var req, chain := m.ops[op].req, m.ops[op].chain;
      if |chain| == 0 || !Allows(chain[|chain| - 1], req.actionType, req.resource, req.valueCents)
         || NextSequence in ctx.down || !Countable(m.w, req.sessionId) then f.(m := Stop(m, op))
      else
        var number := m.w.sessions[req.sessionId].eventCount + 1;
        var draft := Draft(f.held[op], req, number, ctx.recordedAt, ctx.newId);
        f.(m := Goto(m.(w := WithNextSequence(m.w, req.sessionId)), op, Drafted(draft)))
  }

  function GetParentRevokedStep(c: Suite, f: CallState, op: nat, ctx: Context): CallState
    requires op in f.begun && f.begun[op].DelegateRead?
  {
    var req, parent := f.begun[op].delegate, f.begun[op].parent;
    if !ctx.access || IsRevoked in ctx.down || parent.grantId in f.m.w.revoked then Done(f, op, f.m)
    else Done(f, op, Goto(f.m, op, Granting(ChildGrant(c, parent, req, ctx.newId))))
  }

  function WriteRevocationStep(f: CallState, op: nat, ctx: Context): CallState
    requires op in f.begun && f.begun[op].RevokeRead?
  {
    if !ctx.access || PutRevocation in ctx.down then Done(f, op, f.m)
    else Done(f, op, f.m.(w := WithRevocation(f.m.w, f.begun[op].grantId, f.begun[op].reason)))
  }

  function WriteSessionStep(f: CallState, op: nat, ctx: Context): CallState
    requires op in f.begun && f.begun[op].BeginRead?
  {
    var r := f.begun[op];
    var s := Session(ctx.newId, r.grant.projectId, r.rootGrantId, r.surface, ctx.recordedAt, None, 0);
    if !ctx.access || CreateSession in ctx.down || s.sessionId in f.m.w.sessions then Done(f, op, f.m)
    else Done(f, op, f.m.(w := WithSession(f.m.w, s.sessionId, StoredSession(s))))
  }

  function WriteEndStep(f: CallState, op: nat, ctx: Context): CallState
    requires op in f.begun && f.begun[op].EndRead?
  {
    var m, id := f.m, f.begun[op].sessionId;
    if !ctx.access || Call.EndSession in ctx.down || id !in m.w.sessions then Done(f, op, m)
    else
      var s := m.w.sessions[id].(endedAt := StoredTime(Some(ctx.recordedAt)));
      Done(f, op, Goto(m.(w := WithSession(m.w, id, s)), op, Checkpointing(id)))
  }

  function FirstCall(f: CallState, a: CallStep): Option<FirstRead> {
    var w := f.m.w;
    match a
    case GetSessionToRecord(op, req, ctx) =>
      if GetSession in ctx.down || req.sessionId !in w.sessions then None
      else Some(RecordRead(req, w.sessions[req.sessionId]))
    case GetParent(op, req, ctx) =>
      if GetGrant in ctx.down || FindGrant(w.grants, req.parentGrantId).None? then None
      else Some(DelegateRead(req, FindGrant(w.grants, req.parentGrantId).value))
    case GetGrantToRevoke(op, grantId, reason, ctx) =>
      if GetGrant in ctx.down || FindGrant(w.grants, grantId).None? then None else Some(RevokeRead(grantId, reason))
    case GetGrantToBegin(op, id, surface, ctx) =>
      if GetGrant in ctx.down || FindGrant(w.grants, id).None? then None
      else Some(BeginRead(id, surface, FindGrant(w.grants, id).value))
    case GetSessionToEnd(op, sessionId, ctx) =>
      if GetSession in ctx.down || sessionId !in w.sessions then None else Some(EndRead(sessionId))
    case _ => None
  }

  predicate IsFirst(a: CallStep) {
    a.GetSessionToRecord? || a.GetParent? || a.GetGrantToRevoke? || a.GetGrantToBegin? || a.GetSessionToEnd?
  }

  function NextCall(c: Suite, f: CallState, a: CallStep): CallState {
    if IsFirst(a) then
      var read := FirstCall(f, a);
      if Idle(f, a.op) && read.Some? then Reading(f, a.op, read.value) else f
    else
      match a
      case GetChain(op, ctx) => if op in f.begun && f.begun[op].RecordRead? then GetChainStep(c, f, op, ctx) else f
      case TakeNext(op, ctx) => TakeNextStep(f, op, ctx)
      case GetParentRevoked(op, ctx) =>
        if op in f.begun && f.begun[op].DelegateRead? then GetParentRevokedStep(c, f, op, ctx) else f
      case WriteRevocation(op, ctx) =>
        if op in f.begun && f.begun[op].RevokeRead? then WriteRevocationStep(f, op, ctx) else f
      case WriteSession(op, ctx) =>
        if op in f.begun && f.begun[op].BeginRead? then WriteSessionStep(f, op, ctx) else f
      case WriteEnd(op, ctx) => if op in f.begun && f.begun[op].EndRead? then WriteEndStep(f, op, ctx) else f
      case Later(a) => if OneCall(a) then f.(m := Next(c, f.m, a)) else f
      case GiveUp(op) => f.(begun := f.begun - {op})
      case _ => f
  }

  function ExecCalls(c: Suite, steps: seq<CallStep>): CallState {
    if |steps| == 0 then CALL_INITIAL else NextCall(c, ExecCalls(c, steps[..|steps| - 1]), steps[|steps| - 1])
  }

  // The joined step

  /** The context of a joined step: its first read has succeeded. */
  function Joined(ctx: Context): Context {
    ctx.(down := ctx.down - {GetSession, GetGrant})
  }

  /** The machine's step that a call amounts to, if it amounts to one. */
  function JoinedStep(f: CallState, a: CallStep): Option<Action> {
    match a
    case GetChain(op, ctx) =>
      if op in f.begun && f.begun[op].RecordRead? then Some(StartRecord(op, f.begun[op].req, Joined(ctx))) else None
    case TakeNext(op, ctx) => if op in f.held then Some(TakeNumber(op, ctx)) else None
    case GetParentRevoked(op, ctx) =>
      if op in f.begun && f.begun[op].DelegateRead? then Some(StartDelegate(op, f.begun[op].delegate, Joined(ctx)))
      else None
    case WriteRevocation(op, ctx) =>
      if op in f.begun && f.begun[op].RevokeRead?
      then Some(Single(OpRevoke(f.begun[op].grantId, f.begun[op].reason, Joined(ctx)))) else None
    case WriteSession(op, ctx) =>
      if op in f.begun && f.begun[op].BeginRead?
      then Some(Single(OpBegin(f.begun[op].rootGrantId, f.begun[op].surface, Joined(ctx)))) else None
    case WriteEnd(op, ctx) =>
      if op in f.begun && f.begun[op].EndRead? then Some(StartEnd(op, f.begun[op].sessionId, Joined(ctx))) else None
    case Later(a) => if OneCall(a) then Some(a) else None
    case _ => None
  }

  /** Generated grant ids are nonempty, and not those of stored grants when the grant is stored. */
  predicate FreshCall(f: CallState, a: CallStep) {
    match a
    case GetParentRevoked(op, ctx) => ctx.newId != []
    case Later(a) => FreshAction(f.m, a)
    case _ => true
  }

  predicate FreshCalls(c: Suite, steps: seq<CallStep>) {
    |steps| > 0 ==>
      && FreshCalls(c, steps[..|steps| - 1])
      && FreshCall(ExecCalls(c, steps[..|steps| - 1]), steps[|steps| - 1])
  }

  // What was read still holds

  predicate SessionHolds(w: Ledger, sessionId: Bytes, s: Session) {
    sessionId in w.sessions &&
      w.sessions[sessionId].projectId == s.projectId && w.sessions[sessionId].surface == s.surface
  }

  predicate ReadHolds(w: Ledger, r: FirstRead) {
    match r
    case RecordRead(req, s) => SessionHolds(w, req.sessionId, s)
    case DelegateRead(req, parent) => FindGrant(w.grants, req.parentGrantId) == Some(parent)
    case RevokeRead(grantId, reason) => FindGrant(w.grants, grantId).Some?
    case BeginRead(id, surface, g) => FindGrant(w.grants, id) == Some(g)
    case EndRead(sessionId) => sessionId in w.sessions
  }

  ghost predicate ReadsHold(w: Ledger, f: CallState) {
    && (forall op :: op in f.begun ==> op !in f.m.ops && ReadHolds(w, f.begun[op]))
    && (forall op :: op in f.m.ops && f.m.ops[op].Checking? ==>
          op in f.held && SessionHolds(w, f.m.ops[op].req.sessionId, f.held[op]))
  }

  lemma ReadStillHolds(c: Suite, w: Ledger, after: Ledger, r: FirstRead)
    requires Grown(c, w, after) && ReadHolds(w, r)
    ensures ReadHolds(after, r)
  {
    hide Grown, FindGrant, ChainOf;
    match r
    case RecordRead(req, s) => EarlierReadsHold(c, w, after, [], req.sessionId);
    case DelegateRead(req, parent) => EarlierReadsHold(c, w, after, req.parentGrantId, []);
    case RevokeRead(grantId, reason) => EarlierReadsHold(c, w, after, grantId, []);
    case BeginRead(id, surface, g) => EarlierReadsHold(c, w, after, id, []);
    case EndRead(sessionId) => EarlierReadsHold(c, w, after, [], sessionId);
  }

  lemma ReadsStillHold(c: Suite, w: Ledger, after: Ledger, f: CallState)
    requires Grown(c, w, after) && ReadsHold(w, f)
    ensures ReadsHold(after, f)
  {
    hide Grown, ReadHolds;
    forall op | op in f.begun
      ensures ReadHolds(after, f.begun[op])
    {
      ReadStillHolds(c, w, after, f.begun[op]);
    }
    forall op | op in f.m.ops && f.m.ops[op].Checking?
      ensures SessionHolds(after, f.m.ops[op].req.sessionId, f.held[op])
    {
      EarlierReadsHold(c, w, after, [], f.m.ops[op].req.sessionId);
    }
  }

  // Each call does what its joined step does

  lemma GetChainJoins(c: Suite, f: CallState, op: nat, ctx: Context)
    requires ReadsHold(f.m.w, f) && op in f.begun && f.begun[op].RecordRead?
    ensures GetChainStep(c, f, op, ctx).m == StartRecordStep(c, f.m, op, f.begun[op].req, Joined(ctx))
  {
    hide ChainOf, ChainHolds;
    assert ReadHolds(f.m.w, f.begun[op]);
  }

  lemma TakeNextJoins(f: CallState, op: nat, ctx: Context)
    requires ReadsHold(f.m.w, f) && op in f.held
    ensures TakeNextStep(f, op, ctx).m == TakeNumberStep(f.m, op, ctx)
  {
    hide Allows;
  }

  lemma GetParentRevokedJoins(c: Suite, f: CallState, op: nat, ctx: Context)
    requires ReadsHold(f.m.w, f) && op in f.begun && f.begun[op].DelegateRead?
    ensures GetParentRevokedStep(c, f, op, ctx).m == StartDelegateStep(c, f.m, op, f.begun[op].delegate, Joined(ctx))
  {
    hide FindGrant, ChildGrant;
    assert ReadHolds(f.m.w, f.begun[op]);
    ChildOfContext(c, f.begun[op].parent, f.begun[op].delegate, ctx);
  }

  lemma ChildOfContext(c: Suite, parent: Grant, req: DelegateRequest, ctx: Context)
    ensures ChildGrant(c, parent, req, Joined(ctx).newId) == ChildGrant(c, parent, req, ctx.newId)
  {
  }

  lemma WriteRevocationJoins(c: Suite, f: CallState, op: nat, ctx: Context)
    requires ReadsHold(f.m.w, f) && op in f.begun && f.begun[op].RevokeRead?
    ensures var r := f.begun[op];
      WriteRevocationStep(f, op, ctx).m == Next(c, f.m, Single(OpRevoke(r.grantId, r.reason, Joined(ctx))))
  {
    hide FindGrant;
    assert ReadHolds(f.m.w, f.begun[op]);
  }

  lemma WriteSessionJoins(c: Suite, f: CallState, op: nat, ctx: Context)
    requires ReadsHold(f.m.w, f) && op in f.begun && f.begun[op].BeginRead?
    ensures var r := f.begun[op];
      WriteSessionStep(f, op, ctx).m == Next(c, f.m, Single(OpBegin(r.rootGrantId, r.surface, Joined(ctx))))
  {
    hide FindGrant;
    assert ReadHolds(f.m.w, f.begun[op]);
  }

  lemma WriteEndJoins(f: CallState, op: nat, ctx: Context)
    requires ReadsHold(f.m.w, f) && op in f.begun && f.begun[op].EndRead?
    ensures WriteEndStep(f, op, ctx).m == StartEndStep(f.m, op, f.begun[op].sessionId, Joined(ctx))
  {
    assert ReadHolds(f.m.w, f.begun[op]);
  }

  /** The machine after a call. */
  function MachineAfter(c: Suite, f: CallState, a: CallStep): State {
    var joined := JoinedStep(f, a);
    if joined.None? then f.m else Next(c, f.m, joined.value)
  }

  lemma TakeNextWithoutRead(f: CallState, op: nat, ctx: Context)
    requires op !in f.held
    ensures TakeNextStep(f, op, ctx) == f
  {
  }

  lemma CallJoins(c: Suite, f: CallState, a: CallStep)
    requires ReadsHold(f.m.w, f)
    ensures NextCall(c, f, a).m == MachineAfter(c, f, a)
  {
    hide ReadsHold, GetChainStep, TakeNextStep, GetParentRevokedStep, WriteRevocationStep, WriteSessionStep,
         WriteEndStep, StartRecordStep, TakeNumberStep, StartDelegateStep, StartEndStep, Apply, FirstCall;
    match a
    case GetChain(op, ctx) =>
      if op in f.begun && f.begun[op].RecordRead? {
        GetChainJoins(c, f, op, ctx);
      }
    case TakeNext(op, ctx) =>
      if op in f.held {
        TakeNextJoins(f, op, ctx);
      } else {
        TakeNextWithoutRead(f, op, ctx);
      }
    case GetParentRevoked(op, ctx) =>
      if op in f.begun && f.begun[op].DelegateRead? {
        GetParentRevokedJoins(c, f, op, ctx);
      }
    case WriteRevocation(op, ctx) =>
      if op in f.begun && f.begun[op].RevokeRead? {
        WriteRevocationJoins(c, f, op, ctx);
      }
    case WriteSession(op, ctx) =>
      if op in f.begun && f.begun[op].BeginRead? {
        WriteSessionJoins(c, f, op, ctx);
      }
    case WriteEnd(op, ctx) =>
      if op in f.begun && f.begun[op].EndRead? {
        WriteEndJoins(f, op, ctx);
      }
    case _ =>
  }

  // What was read holds on

  /** No operation starts, and a recording's check is of the request that it started with. */
  ghost predicate NoneStarts(m: State, after: State) {
    forall op :: op in after.ops ==>
      && op in m.ops
      && (after.ops[op].Checking? ==> m.ops[op].Checking? && m.ops[op].req == after.ops[op].req)
  }

  lemma OneCallStartsNone(c: Suite, m: State, a: Action)
    requires OneCall(a)
    ensures NoneStarts(m, Next(c, m, a))
  {
    hide SealedEvent, LastOf, Refused, SessionRoot, StoredEvent, WithGrant, Apply;
  }

  lemma ReadsHoldWithoutStart(f: CallState, after: CallState)
    requires ReadsHold(after.m.w, f) && NoneStarts(f.m, after.m) && after.held == f.held
    requires forall op :: op in after.begun ==> op in f.begun && after.begun[op] == f.begun[op]
    ensures ReadsHold(after.m.w, after)
  {
    hide ReadHolds, SessionHolds;
  }

  /** A first call reads what is there. */
  lemma FirstCallHolds(f: CallState, a: CallStep)
    requires ReadsHold(f.m.w, f) && IsFirst(a) && Idle(f, a.op) && FirstCall(f, a).Some?
    ensures ReadsHold(f.m.w, Reading(f, a.op, FirstCall(f, a).value))
  {
    hide FindGrant;
  }

  lemma GetChainHolds(c: Suite, f: CallState, op: nat, ctx: Context)
    requires op in f.begun && f.begun[op].RecordRead?
    requires ReadsHold(f.m.w, f)
    ensures var after := GetChainStep(c, f, op, ctx); after.m.w == f.m.w && ReadsHold(after.m.w, after)
  {
    hide AdmittedWith, ReadHolds;
    RecordReadHolds(f.m.w, f.begun[op]);
  }

  lemma TakeNextHolds(f: CallState, op: nat, ctx: Context)
    requires ReadsHold(TakeNextStep(f, op, ctx).m.w, f)
    ensures ReadsHold(TakeNextStep(f, op, ctx).m.w, TakeNextStep(f, op, ctx))
  {
    hide Allows, ReadHolds, SessionHolds, Draft;
  }

  /** The operation goes on from its first read to something other than a recording's check, or is over. */
  lemma DoneHolds(f: CallState, op: nat, m: State)
    requires ReadsHold(m.w, f) && (op in m.ops && m.ops[op].Checking? ==> op in f.m.ops && m.ops[op] == f.m.ops[op])
    requires forall other :: other in m.ops && other != op ==> other in f.m.ops && m.ops[other] == f.m.ops[other]
    ensures ReadsHold(m.w, Done(f, op, m))
  {
    hide ReadHolds, SessionHolds;
  }

  lemma SecondCallHolds(c: Suite, f: CallState, a: CallStep)
    requires ReadsHold(f.m.w, f) && ReadsHold(NextCall(c, f, a).m.w, f) && !IsFirst(a) && !a.Later? && !a.GiveUp?
    ensures ReadsHold(NextCall(c, f, a).m.w, NextCall(c, f, a))
  {
    hide FindGrant, ChildGrant, ReadsHold, GetChainStep, TakeNextStep;
    match a
    case GetChain(op, ctx) =>
      if op in f.begun && f.begun[op].RecordRead? {
        GetChainHolds(c, f, op, ctx);
      }
    case TakeNext(op, ctx) => TakeNextHolds(f, op, ctx);
    case GetParentRevoked(op, ctx) => DoneHolds(f, op, NextCall(c, f, a).m);
    case WriteRevocation(op, ctx) => DoneHolds(f, op, NextCall(c, f, a).m);
    case WriteSession(op, ctx) => DoneHolds(f, op, NextCall(c, f, a).m);
    case WriteEnd(op, ctx) => DoneHolds(f, op, NextCall(c, f, a).m);
    case _ =>
  }

  lemma RecordReadHolds(w: Ledger, r: FirstRead)
    requires r.RecordRead? && ReadHolds(w, r)
    ensures SessionHolds(w, r.req.sessionId, r.session)
  {
  }

  lemma JoinedIsFresh(f: CallState, a: CallStep)
    requires FreshCall(f, a) && JoinedStep(f, a).Some?
    ensures FreshAction(f.m, JoinedStep(f, a).value)
  {
  }

  lemma NextCallHolds(c: Suite, f: CallState, a: CallStep)
    requires Inv(c, f.m) && ReadsHold(f.m.w, f) && FreshCall(f, a)
    ensures ReadsHold(NextCall(c, f, a).m.w, NextCall(c, f, a))
  {
    hide Inv, Next, ReadsHold, Grown, FirstCall, JoinedStep, FreshCall, FreshAction;
    var after := NextCall(c, f, a);
    InvIsIssued(c, f.m);
    GrownRefl(c, f.m.w);
    CallJoins(c, f, a);
    if JoinedStep(f, a).Some? {
      JoinedIsFresh(f, a);
      NextGrows(c, f.m, JoinedStep(f, a).value);
    }
    ReadsStillHold(c, f.m.w, after.m.w, f);
    if IsFirst(a) {
      if Idle(f, a.op) && FirstCall(f, a).Some? {
        FirstCallHolds(f, a);
      }
    } else if a.Later? {
      if OneCall(a.a) {
        OneCallStartsNone(c, f.m, a.a);
        ReadsHoldWithoutStart(f, after);
      }
    } else if a.GiveUp? {
      SameStartsNone(f.m);
      ReadsHoldWithoutStart(f, after);
    } else {
      SecondCallHolds(c, f, a);
    }
  }

  lemma SameStartsNone(m: State)
    ensures NoneStarts(m, m)
  {
  }

  /** The machine's run that a run of store calls amounts to. */
  function JoinedRun(c: Suite, steps: seq<CallStep>): seq<Action> {
    if |steps| == 0 then []
    else
      var joined := JoinedStep(ExecCalls(c, steps[..|steps| - 1]), steps[|steps| - 1]);
      JoinedRun(c, steps[..|steps| - 1]) + if joined.None? then [] else [joined.value]
  }

  /**
   Refinement: whatever store calls of whatever operations interleave, one call a step, the tables
   and the operations past their first reads are those of an interleaving of the machine's steps.
   So everything that every interleaving keeps, and every exact condition, holds call by call.
   */
  lemma {:induction false} CallsRefineMachine(c: Suite, steps: seq<CallStep>)
    requires FreshCalls(c, steps)
    ensures var f := ExecCalls(c, steps);
      && FreshActions(c, INITIAL, JoinedRun(c, steps))
      && f.m == Exec(c, INITIAL, JoinedRun(c, steps))
      && Inv(c, f.m) && ReadsHold(f.m.w, f)
  {
    hide Inv, Next, FreshAction, ReadsHold, NextCall, JoinedStep, FreshCall;
    if |steps| == 0 {
      InitialInv(c);
      InitialReadsHold();
    } else {
      var before, a := ExecCalls(c, steps[..|steps| - 1]), steps[|steps| - 1];
      var run := JoinedRun(c, steps[..|steps| - 1]);
      CallsRefineMachine(c, steps[..|steps| - 1]);
      CallJoins(c, before, a);
      NextCallHolds(c, before, a);
      if JoinedStep(before, a).Some? {
        var joined := JoinedStep(before, a).value;
        JoinedIsFresh(before, a);
        ExecSnoc(c, INITIAL, run, joined);
        NextKeepsInv(c, before.m, joined);
        assert (run + [joined])[..|run|] == run;
      } else {
        assert run + [] == run;
      }
    }
  }

  lemma InitialReadsHold()
    ensures ReadsHold(CALL_INITIAL.m.w, CALL_INITIAL)
  {
  }
}
