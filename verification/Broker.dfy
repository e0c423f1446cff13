/** CapabilityBroker.invoke as the code runs it: policy, binding, claim, proposal, RUNNING,
    the tool, the outcome, and the consumption, in that order on one store. */
module Broker {
  import opened Domain
  import opened Projections
  import opened Repositories
  import opened Policy
  import opened Store
  import Authority
  import Recovery

  // How the tool adapter ended.
  datatype ToolOutcome = Output(result: ToolResult) | OutcomeUncertain | ToolRaised

  datatype Ending =
    | Returned | DeniedByPolicy | BindingMismatch | ApprovalMissing | NotClaimed(reply: Reply) | NotRecorded
    | EndedUncertain | EndedFailed | NotConsumed

  // One invocation: bound says that the registered tool, the arguments and the target
  // match the action; now is the moment of the policy context.
  datatype Request = Request(
    action: ActionSpec, digest: string, decision: Decision, bound: bool, approvalId: Option<string>,
    callId: string, actor: string, tool: ToolOutcome, now: Time, at: Time)

  // _record_proposal
  function ProposalOps(db: Db, r: Request, st: CallState): seq<Op> {
    if r.callId !in db.tables.calls then
      [Record(Draft(r.action.runId, r.actor, r.at,
                    ToolCallProposed(r.callId, r.approvalId, r.action.toolName, r.digest, CallText(st, true), 1)))]
    else if db.tables.calls[r.callId].state != CallText(st, true) then
      [CallStep(r.callId, r.actor, CallText(st, true), None, None, r.at)]
    else []
  }

  function ClaimOp(r: Request): Op
    requires r.approvalId.Some?
  {
    Take(ClaimArgs(r.approvalId.value, r.action.runId, r.action.requesterId, r.digest, r.actor, Some(r.action), r.now))
  }

  function StateOp(r: Request, st: CallState, result: Option<ToolResult>, error: Option<string>): Op {
    CallStep(r.callId, r.actor, CallText(st, true), result, error, r.at)
  }

  predicate Asks(r: Request) { r.decision.RequireApproval? }

  // What is recorded of the tool's outcome.
  function OutcomeOp(r: Request): Op {
    match r.tool
    case Output(result) => StateOp(r, Succeeded, Some(result), None)
    case OutcomeUncertain => StateOp(r, Uncertain, None, Some(""))
    case ToolRaised => StateOp(r, CallFailed, None, Some(""))
  }

  // The operations of an invocation that gets as far as the tool, by the tool's outcome.
  function ToolOps(r: Request): seq<Op> {
    [StateOp(r, Running, None, None), OutcomeOp(r)] +
    (if r.tool.Output? && Asks(r) && r.approvalId.Some? then [Use(r.approvalId.value, r.actor, r.now)] else [])
  }

  function ClaimOps(r: Request): seq<Op> { if Asks(r) && r.approvalId.Some? then [ClaimOp(r)] else [] }

  function AfterClaim(db: Db, r: Request): seq<Op> { ProposalOps(db, r, Authorized) + ToolOps(r) }

  // Everything submitted by an invocation whose writes all succeed.
  function AllOps(db: Db, r: Request): seq<Op> { ClaimOps(r) + AfterClaim(ExecAll(db, ClaimOps(r)), r) }

  // What an invocation sets out to submit: a refusal is one proposal.
  function Planned(db: Db, r: Request): seq<Op> {
    if r.decision.Deny? || !r.bound then ProposalOps(db, r, CallDenied)
    else if Asks(r) && r.approvalId.None? then ProposalOps(db, r, AwaitingOwner)
    else AllOps(db, r)
  }

  // Every operation of the list commits, one after the other.
  predicate AllDone(db: Db, ops: seq<Op>)
    decreases ops
  {
    ops == [] || (Exec(db, ops[0]).1 == Done && AllDone(Exec(db, ops[0]).0, ops[1..]))
  }

  // The first done operations of a list were committed, and nothing else.
  predicate Submitted(db: Db, db': Db, ops: seq<Op>, done: nat) {
    done <= |ops| && AllDone(db, ops[..done]) && db' == ExecAll(db, ops[..done])
  }

  // Nothing but a missing name makes a write of the invocation raise.
  predicate Writable(db: Db, r: Request) {
    r.actor != "" && r.action.runId != "" && (r.callId in db.tables.calls ==> db.tables.calls[r.callId].runId != "")
  }

  // The call stands in a state, written by at most one event; a new one is bound to the
  // request.
  predicate Entered(db: Db, db': Db, r: Request, st: CallState) {
    && r.callId in db'.tables.calls && db'.tables.calls[r.callId].state == CallText(st, true)
    && db'.tables == db.tables.(calls := db.tables.calls[r.callId := db'.tables.calls[r.callId]])
    && db.journal <= db'.journal && |db'.journal| <= |db.journal| + 1
    && (r.callId !in db.tables.calls ==>
          var row := db'.tables.calls[r.callId];
          && row.runId == r.action.runId && row.approvalId == r.approvalId && row.toolName == r.action.toolName
          && row.actionDigest == r.digest && |db'.journal| == |db.journal| + 1)
  }

  // The last event moved the call to a state with a result, and the call stands there.
  predicate Recorded(db: Db, r: Request, st: CallState, result: Option<ToolResult>) {
    && r.callId in db.tables.calls
    && var row := db.tables.calls[r.callId];
       && row.state == CallText(st, true) && row.result == result && db.journal != []
       && db.journal[|db.journal| - 1].payload == ToolCallStateChanged(r.callId, row.state, row.result, row.error)
  }

  // The approval the invocation claimed.
  predicate Holds(db: Db, r: Request, status: ApprovalStatus) {
    && r.approvalId.Some? && r.approvalId.value in db.tables.approvals
    && db.tables.approvals[r.approvalId.value].status == status
    && db.tables.approvals[r.approvalId.value].claimedBy == Some(r.actor)
  }

  // SUCCEEDED with the tool's result.
  predicate Delivered(db: Db, r: Request) {
    && r.tool.Output? && r.callId in db.tables.calls
    && db.tables.calls[r.callId].state == CallText(Succeeded, true)
    && db.tables.calls[r.callId].result == Some(r.tool.result)
  }

  // A claimed approval of the run.
  predicate HeldForRun(db: Db, r: Request) { Holds(db, r, Claimed) && RunOfApproval(db, r) == r.action.runId }

  function RunOfApproval(db: Db, r: Request): string {
    if r.approvalId.Some? && r.approvalId.value in db.tables.approvals then db.tables.approvals[r.approvalId.value].runId
    else ""
  }

  // What the ending says of the call and of the approval.
  predicate Concluded(db: Db, r: Request, e: Ending) {
    && (e.Returned? ==> Delivered(db, r) && (Asks(r) && r.approvalId.Some? ==> Holds(db, r, Consumed)))
    && (e.EndedUncertain? ==> r.tool.OutcomeUncertain? && Recorded(db, r, Uncertain, None))
    && (e.EndedFailed? ==> r.tool.ToolRaised? && Recorded(db, r, CallFailed, None))
    && (e.NotConsumed? ==> Asks(r) && Delivered(db, r))
  }

  class Gateway {
    const store: Database

    constructor (s: Database)
      ensures store == s
    {
      store := s;
    }

    // One operation of the broker's kind, as a transaction on the store.
    method Submit(op: Op) returns (ok: bool)
      requires OfBroker(op)
      modifies store
      ensures store.Value() == Exec(old(store.Value()), op).0 && (ok <==> Exec(old(store.Value()), op).1 == Done)
    {
      var reply;
      match op {
        case Take(c) => reply := store.ClaimNow(c);
        case CallStep(id, actor, st, result, error, at) =>
          reply := store.ChangeCallStateNow(id, actor, st, result, error, at);
        case Use(id, claimant, at) => reply := store.ConsumeNow(id, claimant, at);
        case Record(d) => reply := store.Submit(d);
      }
      ok := reply == Done;
    }

    method Propose(r: Request, st: CallState) returns (ok: bool)
      modifies store
      ensures var ops := ProposalOps(old(store.Value()), r, st);
              Submitted(old(store.Value()), store.Value(), ops, if ok then |ops| else 0) && (!ok ==> ops != [])
      ensures ok ==> Entered(old(store.Value()), store.Value(), r, st)
      ensures Writable(old(store.Value()), r) ==> ok && Writable(store.Value(), r)
    {
      hide Exec, Submitted, Entered, Writable;
      ghost var v0 := store.Value();
      var ops := ProposalOps(store.Value(), r, st);
      Nothing(v0, ops);
      ProposalMeans(v0, r, st);
      ok := true;
      if ops != [] { ok := SubmitNext(ops[0], v0, ops, 0); }
    }

    // The next operation of a list that was committed up to here.
    method SubmitNext(op: Op, ghost v0: Db, ghost ops: seq<Op>, ghost n: nat) returns (ok: bool)
      requires n < |ops| && ops[n] == op && OfBroker(op) && !op.Take?
      requires Submitted(v0, store.Value(), ops, n)
      modifies store
      ensures Submitted(v0, store.Value(), ops, if ok then n + 1 else n)
      ensures store.Value() == Exec(old(store.Value()), op).0 && (ok <==> Exec(old(store.Value()), op).1 == Done)
      ensures !ok ==> store.Value() == old(store.Value())
    {
      hide Exec, Submitted, OfBroker;
      ghost var now := store.Value();
      OneMore(v0, now, ops, n);
      if Exec(now, op).1 != Done { FailureChangesNothing(now, op); }
      ok := Submit(op);
    }

    // RUNNING, the tool, and its outcome; done counts what was committed.
    method Execute(r: Request) returns (e: Ending, ghost done: nat)
      modifies store
      ensures Submitted(old(store.Value()), store.Value(), ToolOps(r), done)
      ensures Ran(e) <==> done == |ToolOps(r)|
      ensures e.NotConsumed? ==> Asks(r) && r.tool.Output? && done == |ToolOps(r)| - 1
      ensures Ran(e) || e.NotRecorded? || e.NotConsumed?
      ensures Concluded(store.Value(), r, e) && (e.Returned? ==> r.tool.Output?)
      ensures !(e.Returned? && Asks(r)) ==> store.approvals == old(store.approvals)
      ensures Writable(old(store.Value()), r) && r.callId in old(store.calls) ==> !e.NotRecorded?
      ensures Writable(old(store.Value()), r) && HeldForRun(old(store.Value()), r) ==> !e.NotConsumed?
    {
      hide Exec, ToolOps, Submitted, Recorded, Delivered, Writable, Holds, HeldForRun, StateOp;
      ghost var v0, ops := store.Value(), ToolOps(r);
      ToolOpsAre(r);
      Nothing(v0, ops);
      StateMeans(v0, r, Running, None, None);
      var ok := SubmitNext(StateOp(r, Running, None, None), v0, ops, 0);
      if !ok { return NotRecorded, 0; }
      var outcome := OutcomeOp(r);
      OutcomeMeans(store.Value(), r);
      ok := SubmitNext(outcome, v0, ops, 1);
      if !ok { return NotRecorded, 1; }
      done := 2;
      e := if r.tool.Output? then Returned else if r.tool.OutcomeUncertain? then EndedUncertain else EndedFailed;
      if r.tool.Output? && Asks(r) && r.approvalId.Some? {
        SameHold(v0, store.Value(), r);
        UseMeans(store.Value(), r);
        ok := SubmitNext(Use(r.approvalId.value, r.actor, r.now), v0, ops, 2);
        if !ok { return NotConsumed, 2; }
        done := 3;
      }
    }

    // The claim, where the decision asks for approval.
    method ClaimIfAsked(r: Request) returns (reply: Reply)
      requires Asks(r) ==> r.approvalId.Some?
      modifies store
      ensures Asks(r) ==> (store.Value(), reply) == Exec(old(store.Value()), ClaimOp(r))
      ensures !Asks(r) ==> reply == Done && store.Value() == old(store.Value())
      ensures reply == Done && Asks(r) ==> HeldForRun(store.Value(), r)
      ensures reply == Done && Writable(old(store.Value()), r) ==> Writable(store.Value(), r)
      ensures reply == Done ==> Submitted(old(store.Value()), store.Value(), ClaimOps(r), |ClaimOps(r)|)
    {
      ghost var v0 := store.Value();
      hide Exec, Submitted, HeldForRun, Writable;
      reply := Done;
      Nothing(v0, ClaimOps(r));
      if Asks(r) {
        ClaimedFor(v0, r);
        ClaimIs(v0, ClaimOp(r));
        OneMore(v0, v0, ClaimOps(r), 0);
        reply := store.ClaimNow(ClaimOp(r).claim);
      }
    }

    /** invoke.  In every ending the store holds exactly a committed beginning of what the
        invocation set out to submit, done operations of it: all of it when the tool's
        outcome was recorded or the refusal was journalled, everything but the consumption
        when only that failed, less when a write raised.  A refused claim leaves what the
        claim itself journals.  A success that asked for approval is bracketed in the
        journal by its claim and its consumption.  The call row says how it ended: an
        uncertain outcome stands there as UNCERTAIN with the approval still claimed, and
        recovery takes the call up; a tool's exception stands there as FAILED; a refusal as
        DENIED or AWAITING_APPROVAL, by at most one event. */
    method Invoke(r: Request) returns (e: Ending, ghost done: nat)
      modifies store
      ensures r.decision.Deny? ==> e.DeniedByPolicy? || e.NotRecorded?
      ensures !r.decision.Deny? && !r.bound ==> e.BindingMismatch? || e.NotRecorded?
      ensures e.NotClaimed? ==>
                Asks(r) && r.approvalId.Some? && e.reply != Done &&
                (store.Value(), e.reply) == Exec(old(store.Value()), ClaimOp(r))
      ensures !e.NotClaimed? ==> Submitted(old(store.Value()), store.Value(), Planned(old(store.Value()), r), done)
      ensures !e.NotClaimed? ==>
                var n := |Planned(old(store.Value()), r)|;
                && (done == n <==> Ran(e) || e.DeniedByPolicy? || e.BindingMismatch? || e.ApprovalMissing?)
                && (e.NotConsumed? ==> Asks(r) && r.tool.Output? && done == n - 1)
      ensures Ran(e) || e.NotConsumed? ==> !r.decision.Deny? && r.bound && (Asks(r) ==> r.approvalId.Some?)
      ensures e.DeniedByPolicy? ==> r.decision.Deny? && Entered(old(store.Value()), store.Value(), r, CallDenied)
      ensures e.BindingMismatch? ==> !r.bound && Entered(old(store.Value()), store.Value(), r, CallDenied)
      ensures e.ApprovalMissing? ==>
                Asks(r) && r.approvalId.None? && Entered(old(store.Value()), store.Value(), r, AwaitingOwner)
      ensures Concluded(store.Value(), r, e)
      ensures (e.EndedUncertain? || e.EndedFailed? || e.NotConsumed?) && Asks(r) ==> HeldForRun(store.Value(), r)
      ensures e.EndedUncertain? ==>
                (r.callId in Recovery.Selection(store.Value()) <==> !Recovery.BlockedIn(store.journal, r.callId))
      ensures e.EndedFailed? || e.Returned? ==> r.callId !in Recovery.Selection(store.Value())
      ensures Writable(old(store.Value()), r) ==> !e.NotRecorded? && !e.NotConsumed?
      ensures e.Returned? && Asks(r) ==> Bracketed(old(store.journal), store.journal, r)
    {
      hide Exec, ProposalOps, ToolOps, ClaimOps, ClaimOp, Submitted, Bracketed, AllOps, Entered, Writable, Concluded, HeldForRun,
           Recovery.Selection, Recovery.BlockedIn;
      ghost var v0 := store.Value();
      var ok;
      if r.decision.Deny? || !r.bound {
        ok := Propose(r, CallDenied);
        done := if ok then |Planned(v0, r)| else 0;
        e := if !ok then NotRecorded else if r.decision.Deny? then DeniedByPolicy else BindingMismatch;
        NothingConcluded(store.Value(), r, e);
        return;
      }
      if Asks(r) && r.approvalId.None? {
        ok := Propose(r, AwaitingOwner);
        done := if ok then |Planned(v0, r)| else 0;
        e := if ok then ApprovalMissing else NotRecorded;
        NothingConcluded(store.Value(), r, e);
        return;
      }
      var reply := ClaimIfAsked(r);
      if reply != Done {
        NothingConcluded(store.Value(), r, NotClaimed(reply));
        return NotClaimed(reply), 0;
      }
      ghost var v1 := store.Value();
      ghost var part;
      e, part := ProposeAndExecute(r);
      done := |ClaimOps(r)| + part;
      ClaimThenRest(v0, v1, store.Value(), r, part);
      if !(e.Returned? && Asks(r)) { SameHold(v1, store.Value(), r); }
      ConcludedSelection(store.Value(), r, e);
      if e.Returned? && Asks(r) { SuccessIsBracketed(v0, store.Value(), r); }
    }

    // What follows the claim.
    method ProposeAndExecute(r: Request) returns (e: Ending, ghost done: nat)
      modifies store
      ensures Submitted(old(store.Value()), store.Value(), AfterClaim(old(store.Value()), r), done)
      ensures Ran(e) <==> done == |AfterClaim(old(store.Value()), r)|
      ensures e.NotConsumed? ==> Asks(r) && r.tool.Output? && done == |AfterClaim(old(store.Value()), r)| - 1
      ensures Ran(e) || e.NotRecorded? || e.NotConsumed?
      ensures Concluded(store.Value(), r, e) && (e.Returned? ==> r.tool.Output?)
      ensures !(e.Returned? && Asks(r)) ==> store.approvals == old(store.approvals)
      ensures Writable(old(store.Value()), r) ==> !e.NotRecorded?
      ensures Writable(old(store.Value()), r) && HeldForRun(old(store.Value()), r) ==> !e.NotConsumed?
    {
      hide Exec, ProposalOps, ToolOps, Submitted, Writable, Concluded, HeldForRun;
      ghost var v0 := store.Value();
      ghost var proposal := ProposalOps(v0, r, Authorized);
      var ok := Propose(r, Authorized);
      if !ok {
        Nothing(v0, AfterClaim(v0, r));
        NothingDone(v0, store.Value(), proposal);
        NothingConcluded(v0, r, NotRecorded);
        return NotRecorded, 0;
      }
      ghost var v1 := store.Value();
      SameHold(v0, v1, r);
      ghost var part;
      e, part := Execute(r);
      done := |proposal| + part;
      Joined(v0, v1, store.Value(), proposal, ToolOps(r), part);
    }
  }

  // The tool was reached and everything up to its outcome was recorded.
  predicate Ran(e: Ending) { e.Returned? || e.EndedUncertain? || e.EndedFailed? }

  // The operations the broker submits.
  predicate OfBroker(op: Op) {
    op.Take? || op.CallStep? || op.Use? || (op.Record? && Recordable(op.draft.payload))
  }

  lemma ToolOpsAre(r: Request)
    ensures var ops := ToolOps(r);
            && |ops| == (if r.tool.Output? && Asks(r) && r.approvalId.Some? then 3 else 2)
            && ops[0] == StateOp(r, Running, None, None)
            && ops[1] == OutcomeOp(r)
            && (|ops| == 3 ==> ops[2] == Use(r.approvalId.value, r.actor, r.now))
  {
  }

  // ---------- what single writes mean ----------

  // A change of the call's state, whatever it was before.
  lemma StateMeans(db: Db, r: Request, st: CallState, result: Option<ToolResult>, error: Option<string>)
    ensures var (db', reply) := Exec(db, StateOp(r, st, result, error));
            && OfBroker(StateOp(r, st, result, error)) && !StateOp(r, st, result, error).Take?
            && (Writable(db, r) && r.callId in db.tables.calls ==> reply == Done)
            && (reply == Done ==>
                  && Recorded(db', r, st, result) && r.callId in db'.tables.calls
                  && db'.tables.approvals == db.tables.approvals && (Writable(db, r) ==> Writable(db', r)))
  {
    Authority.ChangeCallMeans(db, r.callId, r.actor, CallText(st, true), result, error, r.at);
    hide ChangeCallState;
  }

  lemma OutcomeMeans(db: Db, r: Request)
    ensures var (db', reply) := Exec(db, OutcomeOp(r));
            && OfBroker(OutcomeOp(r)) && !OutcomeOp(r).Take?
            && (Writable(db, r) && r.callId in db.tables.calls ==> reply == Done)
            && (reply == Done ==>
                  && (r.tool.Output? ==> Delivered(db', r))
                  && (r.tool.OutcomeUncertain? ==> Recorded(db', r, Uncertain, None))
                  && (r.tool.ToolRaised? ==> Recorded(db', r, CallFailed, None))
                  && r.callId in db'.tables.calls && db'.tables.approvals == db.tables.approvals
                  && (Writable(db, r) ==> Writable(db', r)))
  {
    hide Exec, Writable;
    StateMeans(db, r, Succeeded, if r.tool.Output? then Some(r.tool.result) else None, None);
    StateMeans(db, r, Uncertain, None, Some(""));
    StateMeans(db, r, CallFailed, None, Some(""));
  }

  lemma NothingConcluded(db: Db, r: Request, e: Ending)
    requires !Ran(e) && !e.NotConsumed?
    ensures Concluded(db, r, e)
  {
  }

  // Recovery takes up a call whose outcome is uncertain, and no other that has ended.
  lemma ConcludedSelection(db: Db, r: Request, e: Ending)
    requires Concluded(db, r, e)
    ensures e.EndedUncertain? ==> (r.callId in Recovery.Selection(db) <==> !Recovery.BlockedIn(db.journal, r.callId))
    ensures e.EndedFailed? || e.Returned? ==> r.callId !in Recovery.Selection(db)
  {
    hide Recovery.BlockedIn;
  }

  // A claim that succeeds holds the approval for the run, and touches no call.
  lemma ClaimedFor(db: Db, r: Request)
    requires r.approvalId.Some?
    ensures var (db', reply) := Exec(db, ClaimOp(r));
            reply == Done ==> HeldForRun(db', r) && (Writable(db, r) ==> Writable(db', r))
  {
    Authority.ClaimMeans(db, ClaimOp(r).claim);
    hide Claim;
  }

  lemma SameHold(db: Db, db': Db, r: Request)
    requires db'.tables.approvals == db.tables.approvals
    ensures HeldForRun(db, r) <==> HeldForRun(db', r)
  {
  }

  lemma UseMeans(db: Db, r: Request)
    requires r.approvalId.Some?
    ensures var (db', reply) := Exec(db, Use(r.approvalId.value, r.actor, r.now));
            && (Writable(db, r) && HeldForRun(db, r) ==> reply == Done)
            && (reply == Done ==> Holds(db', r, Consumed) && (Delivered(db, r) ==> Delivered(db', r)))
            && (reply != Done ==> db' == db)
  {
    Authority.ConsumeMeans(db, r.approvalId.value, r.actor, r.now);
    hide Consume;
  }

  // The first entry of the call, or its change to the proposed state.
  lemma ProposalMeans(db: Db, r: Request, st: CallState)
    ensures var ops := ProposalOps(db, r, st);
            && |ops| <= 1
            && (ops == [] ==> Entered(db, db, r, st))
            && (ops != [] ==>
                  var (db', reply) := Exec(db, ops[0]);
                  && OfBroker(ops[0]) && !ops[0].Take? && (Writable(db, r) ==> reply == Done)
                  && (reply == Done ==> Entered(db, db', r, st) && (Writable(db, r) ==> Writable(db', r))))
  {
    if r.callId in db.tables.calls {
      Authority.ChangeCallMeans(db, r.callId, r.actor, CallText(st, true), None, None, r.at);
      hide ChangeCallState;
    } else {
      NewCallMeans(db, r, st);
    }
  }

  lemma NewCallMeans(db: Db, r: Request, st: CallState)
    requires r.callId !in db.tables.calls
    ensures var d := Draft(r.action.runId, r.actor, r.at,
                           ToolCallProposed(r.callId, r.approvalId, r.action.toolName, r.digest, CallText(st, true), 1));
            var (db', reply) := Exec(db, Record(d));
            && (Writable(db, r) <==> reply == Done)
            && (reply == Done ==> Entered(db, db', r, st) && Writable(db', r))
  {
  }

  // ---------- lists of committed operations ----------

  lemma Nothing(db: Db, ops: seq<Op>)
    ensures Submitted(db, db, ops, 0)
  {
    assert ops[..0] == [];
  }

  lemma NothingDone(db: Db, db': Db, ops: seq<Op>)
    requires Submitted(db, db', ops, 0)
    ensures db' == db
  {
    assert ops[..0] == [];
  }

  lemma {:induction false} Concatenated(db: Db, p: seq<Op>, q: seq<Op>)
    requires AllDone(db, p)
    ensures ExecAll(db, p + q) == ExecAll(ExecAll(db, p), q)
    ensures AllDone(db, p + q) <==> AllDone(ExecAll(db, p), q)
    decreases p
  {
    hide Exec;
    if p == [] {
      assert p + q == q;
    } else {
      assert (p + q)[0] == p[0] && (p + q)[1..] == p[1..] + q;
      Concatenated(Exec(db, p[0]).0, p[1..], q);
    }
  }

  // One list after the other.
  lemma Joined(db: Db, mid: Db, db': Db, p: seq<Op>, q: seq<Op>, n: nat)
    requires Submitted(db, mid, p, |p|) && Submitted(mid, db', q, n)
    ensures Submitted(db, db', p + q, |p| + n)
  {
    hide Exec, ExecAll, AllDone;
    assert p[..|p|] == p && (p + q)[..|p| + n] == p + q[..n];
    Concatenated(db, p, q[..n]);
  }

  // A claim, and what follows it.
  lemma ClaimThenRest(db: Db, mid: Db, db': Db, r: Request, n: nat)
    requires Submitted(db, mid, ClaimOps(r), |ClaimOps(r)|) && Submitted(mid, db', AfterClaim(mid, r), n)
    ensures Submitted(db, db', AllOps(db, r), |ClaimOps(r)| + n)
    ensures |AllOps(db, r)| == |ClaimOps(r)| + |AfterClaim(mid, r)|
  {
    hide Exec, ExecAll, AllDone, ClaimOps, AfterClaim;
    assert ClaimOps(r)[..|ClaimOps(r)|] == ClaimOps(r);
    Joined(db, mid, db', ClaimOps(r), AfterClaim(mid, r), n);
  }

  // What submitting the next operation of a list does.
  lemma OneMore(db: Db, now: Db, ops: seq<Op>, n: nat)
    requires n < |ops| && Submitted(db, now, ops, n)
    ensures Exec(now, ops[n]).1 == Done ==> Submitted(db, Exec(now, ops[n]).0, ops, n + 1)
  {
    hide Exec;
    assert ops[..n + 1] == ops[..n] + [ops[n]] && [ops[n]][1..] == [];
    Concatenated(db, ops[..n], [ops[n]]);
  }

  lemma FailureChangesNothing(db: Db, op: Op)
    requires OfBroker(op) && !op.Take? && Exec(db, op).1 != Done
    ensures Exec(db, op).0 == db
  {
  }

  lemma ClaimIs(db: Db, op: Op)
    requires op.Take?
    ensures Exec(db, op) == Claim(db, op.claim)
  {
  }

  // ---------- the journal of a success ----------

  // The event a committed operation of the broker appends.
  predicate Journals(op: Op, e: Event) {
    match op
    case Take(c) => e.payload == ApprovalClaimed(c.approvalId, c.claimedBy)
    case Record(d) => e.payload == d.payload
    case CallStep(id, _, st, result, error, _) => e.payload == ToolCallStateChanged(id, st, result, error)
    case Use(id, claimant, _) => e.payload == ApprovalConsumed(id, claimant)
    case _ => false
  }

  lemma OneJournals(db: Db, op: Op)
    requires OfBroker(op) && Exec(db, op).1 == Done
    ensures var j' := Exec(db, op).0.journal;
            |j'| == |db.journal| + 1 && db.journal <= j' && Journals(op, j'[|db.journal|])
  {
    if op.Take? { assert ClaimRejection(db.tables.approvals[op.claim.approvalId], op.claim).None?; }
  }

  lemma {:induction false} AllJournal(db: Db, ops: seq<Op>)
    requires AllDone(db, ops) && forall i :: 0 <= i < |ops| ==> OfBroker(ops[i])
    ensures var j' := ExecAll(db, ops).journal;
            && |j'| == |db.journal| + |ops| && db.journal <= j'
            && forall i :: 0 <= i < |ops| ==> Journals(ops[i], j'[|db.journal| + i])
    decreases ops
  {
    hide Exec, Journals, OfBroker;
    if ops != [] {
      OneJournals(db, ops[0]);
      var next := Exec(db, ops[0]).0;
      AllJournal(next, ops[1..]);
      var j' := ExecAll(db, ops).journal;
      forall i | 0 <= i < |ops| ensures Journals(ops[i], j'[|db.journal| + i]) {
        if i == 0 {
          assert j'[|db.journal|] == next.journal[|db.journal|];
        } else {
          assert ops[i] == ops[1..][i - 1];
          assert Journals(ops[1..][i - 1], j'[|next.journal| + (i - 1)]);
        }
      }
    }
  }

  predicate IsSuccess(e: Event) { e.payload.ToolCallStateChanged? && e.payload.state.state == Succeeded }

  // The new part of the journal: the claim, at most one proposal, RUNNING, the one
  // SUCCEEDED with the tool's result, and the consumption, in this order and nothing else.
  predicate Bracketed(j: seq<Event>, j': seq<Event>, r: Request) {
    && r.approvalId.Some? && r.tool.Output? && j <= j' && |j| + 4 <= |j'| <= |j| + 5
    && j'[|j|].payload == ApprovalClaimed(r.approvalId.value, r.actor)
    && j'[|j'| - 3].payload == ToolCallStateChanged(r.callId, CallText(Running, true), None, None)
    && j'[|j'| - 2].payload == ToolCallStateChanged(r.callId, CallText(Succeeded, true), Some(r.tool.result), None)
    && j'[|j'| - 1].payload == ApprovalConsumed(r.approvalId.value, r.actor)
    && (|j'| == |j| + 5 ==> IsProposal(j'[|j| + 1], r))
    && forall k :: |j| <= k < |j'| && k != |j'| - 2 ==> !IsSuccess(j'[k])
  }

  // AUTHORIZED, as a new call or as a change of one that was known.
  predicate IsProposal(e: Event, r: Request) {
    || e.payload == ToolCallProposed(r.callId, r.approvalId, r.action.toolName, r.digest, CallText(Authorized, true), 1)
    || e.payload == ToolCallStateChanged(r.callId, CallText(Authorized, true), None, None)
  }

  // The operations of such a success, from both ends.
  lemma SuccessOps(db: Db, r: Request)
    requires Asks(r) && r.approvalId.Some? && r.tool.Output?
    ensures var ops := AllOps(db, r); var n := |ops|;
            && 4 <= n <= 5 && ops[0] == ClaimOp(r) && (forall i :: 0 <= i < n ==> OfBroker(ops[i]))
            && ops[n - 3] == StateOp(r, Running, None, None)
            && ops[n - 2] == StateOp(r, Succeeded, Some(r.tool.result), None)
            && ops[n - 1] == Use(r.approvalId.value, r.actor, r.now)
            && (n == 5 ==> Proposes(ops[1], r))
  {
    hide Exec, ExecAll;
  }

  predicate Proposes(op: Op, r: Request) {
    || (op.Record? && op.draft.payload ==
          ToolCallProposed(r.callId, r.approvalId, r.action.toolName, r.digest, CallText(Authorized, true), 1))
    || (op.CallStep? && op == StateOp(r, Authorized, None, None))
  }

  /** A success that asked for approval lies in the journal between its claim and its
      consumption, and it is the only one the invocation leaves there. */
  lemma SuccessIsBracketed(db: Db, db': Db, r: Request)
    requires Asks(r) && r.approvalId.Some? && r.tool.Output? && Submitted(db, db', AllOps(db, r), |AllOps(db, r)|)
    ensures Bracketed(db.journal, db'.journal, r)
  {
    hide Exec, ExecAll, AllDone, AllOps;
    var ops, n := AllOps(db, r), |db.journal|;
    assert ops[..|ops|] == ops;
    SuccessOps(db, r);
    AllJournal(db, ops);
    var j' := db'.journal;
    forall i | 0 <= i < |ops| ensures Journals(ops[i], j'[n + i]) {}
    assert Journals(ops[0], j'[n + 0]) && Journals(ops[1], j'[n + 1]);
    assert Journals(ops[|ops| - 3], j'[n + (|ops| - 3)]) && Journals(ops[|ops| - 2], j'[n + (|ops| - 2)]);
    assert Journals(ops[|ops| - 1], j'[n + (|ops| - 1)]);
    forall k | n <= k < |j'| && k != |j'| - 2 ensures !IsSuccess(j'[k]) { assert Journals(ops[k - n], j'[n + (k - n)]); }
  }
}
