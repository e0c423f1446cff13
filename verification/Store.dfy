/** The event store and its repositories as one mutable object: the journal and the
    current-state tables are updated in place, transaction by transaction, and every
    method is tied to its specification function in Repositories. */
module Store {
  import opened Domain
  import opened Projections
  import opened Repositories
  import TextOrder

  class Database {
    var journal: seq<Event>
    var runs: map<string, RunRow>
    var workItems: map<string, WorkItemRow>
    var messages: map<string, MessageRow>
    var approvals: map<string, ApprovalRow>
    var calls: map<string, CallRow>
    var artifacts: map<string, ArtifactRow>
    var budgets: map<string, BudgetRow>

    function TablesNow(): Tables
      reads this
    {
      Tables(runs, workItems, messages, approvals, calls, artifacts, budgets)
    }

    function Value(): Db
      reads this
    {
      Db(journal, TablesNow())
    }

    constructor ()
      ensures Value() == EMPTY_DB
    {
      journal := [];
      runs, workItems, messages, approvals := map[], map[], map[], map[];
      calls, artifacts, budgets := map[], map[], map[];
    }

    // ROLLBACK to a state remembered at BEGIN.
    method Restore(d: Db)
      modifies this
      ensures Value() == d
    {
      journal := d.journal;
      runs, workItems, messages := d.tables.runs, d.tables.workItems, d.tables.messages;
      approvals, calls := d.tables.approvals, d.tables.calls;
      artifacts, budgets := d.tables.artifacts, d.tables.budgets;
    }

    method UpdateRuns(e: Event) returns (ok: bool)
      requires TableOf(e.payload).RunsTable?
      modifies this`runs
      ensures ok <==> ApplyRun(old(runs), e).Some?
      ensures runs == if ok then ApplyRun(old(runs), e).value else old(runs)
    {
      ok := if e.payload.RunCreated? then e.runId !in runs else e.runId in runs;
      if !ok { return; }
      if e.payload.RunCreated? {
        runs := runs[e.runId := RunRow(e.payload.runOwner, e.payload.initialState, e.payload.objective, 1,
                                       e.createdAt, e.createdAt, None, e.payload.lease, None, e.sequence)];
        return;
      }
      var row := runs[e.runId];
      row := row.(version := row.version + 1, updatedAt := e.createdAt, lastSequence := e.sequence);
      if e.payload.RunStateChanged? {
        row := row.(state := e.payload.newState, terminalReason := e.payload.reason,
                    leaseExpiresAt := e.payload.lease);
      } else {
        row := row.(state := Cancelled, cancelledAt := Some(e.createdAt),
                    terminalReason := Some(e.payload.cancelReason), leaseExpiresAt := None);
      }
      runs := runs[e.runId := row];
    }

    method UpdateApprovals(e: Event) returns (ok: bool)
      requires TableOf(e.payload).ApprovalsTable?
      modifies this`approvals
      ensures ok <==> ApplyApproval(old(approvals), e).Some?
      ensures approvals == if ok then ApplyApproval(old(approvals), e).value else old(approvals)
    {
      var id := e.payload.approvalId;
      if e.payload.ApprovalRequested? {
        ok := id !in approvals && !NonceTaken(approvals, e.payload.nonce);
        if ok { approvals := approvals[id := RequestedRow(e)]; }
      } else if id !in approvals {
        ok := false;
      } else {
        var row := UpdateApproval(approvals[id], e);
        ok := row.Some?;
        if ok { approvals := approvals[id := row.value]; }
      }
    }

    method UpdateCalls(e: Event) returns (ok: bool)
      requires TableOf(e.payload).CallsTable?
      modifies this`calls
      ensures ok <==> ApplyCall(old(calls), e).Some?
      ensures calls == if ok then ApplyCall(old(calls), e).value else old(calls)
    {
      var id := e.payload.callId;
      if e.payload.ToolCallProposed? {
        ok := id !in calls;
        if ok {
          calls := calls[id := CallRow(e.runId, e.payload.callApproval, e.payload.toolName,
                                       e.payload.actionDigest, e.payload.state, e.payload.attempt, None,
                                       None, None, None, e.sequence)];
        }
        return;
      }
      ok := id in calls;
      if ok {
        var row := calls[id];
        if StampsStart(e.payload.state) && row.startedAt.None? {
          row := row.(startedAt := Some(e.createdAt));
        }
        if StampsFinish(e.payload.state) { row := row.(finishedAt := Some(e.createdAt)); }
        calls := calls[id := row.(state := e.payload.state, result := e.payload.result,
                                  error := e.payload.error, lastSequence := e.sequence)];
      }
    }

    /** ProjectionStore.apply: the tables move by exactly the reducer, or nothing
        changes and the caller rolls back. */
    method ApplyEvent(e: Event) returns (ok: bool)
      modifies this
      ensures journal == old(journal)
      ensures ok <==> Apply(old(TablesNow()), e).Some?
      ensures TablesNow() == if ok then Apply(old(TablesNow()), e).value else old(TablesNow())
    {
      match TableOf(e.payload)
      case RunsTable => ok := UpdateRuns(e);
      case ApprovalsTable => ok := UpdateApprovals(e);
      case CallsTable => ok := UpdateCalls(e);
      case MessagesTable =>
        var r := ApplyMessage(messages, e);
        ok := r.Some?;
        if ok { messages := r.value; }
      case WorkItemsTable =>
        var r := ApplyWorkItem(workItems, e);
        ok := r.Some?;
        if ok { workItems := r.value; }
      case ArtifactsTable =>
        var r := ApplyArtifact(artifacts, e);
        ok := r.Some?;
        if ok { artifacts := r.value; }
      case BudgetsTable =>
        var r := ApplyBudget(budgets, e);
        ok := r.Some?;
        if ok { budgets := r.value; }
      case NoTable => ok := true;
    }

    /** append_in_transaction. */
    method AppendEvent(d: Draft) returns (ok: bool)
      modifies this
      ensures ok <==> Append(old(Value()), d).Some?
      ensures Value() == if ok then Append(old(Value()), d).value else old(Value())
    {
      ok := d.runId != "" && d.actorId != "";
      if ok {
        var e := NextEvent(journal, d);
        ok := ApplyEvent(e);
        if ok { journal := journal + [e]; }
      }
    }

    // One event, as a transaction of its own.
    method Submit(d: Draft) returns (reply: Reply)
      modifies this
      ensures (Value(), reply) == Commit(old(Value()), Append(old(Value()), d))
    {
      var ok := AppendEvent(d);
      reply := if ok then Done else ProjectionError;
    }

    /** RunRepository.transition: compare-and-set on state and version. */
    method TransitionRun(run: string, target: RunState, actor: string, expectedState: Option<RunState>,
                         expectedVersion: Option<nat>, reason: Option<string>, lease: Option<Time>, at: Time)
      returns (reply: Reply)
      modifies this
      ensures (Value(), reply) ==
              Transition(old(Value()), run, target, actor, expectedState, expectedVersion, reason, lease, at)
    {
      hide Append;
      if run !in runs { return NotFound; }
      var row := runs[run];
      if Stale(row, expectedState, expectedVersion) { return Conflict; }
      reply := Submit(Draft(run, actor, at, RunStateChanged(target, reason, lease)));
    }

    /** Appends a list of drafts inside one transaction: all of them or none. */
    method AppendEach(drafts: seq<Draft>) returns (ok: bool)
      modifies this
      ensures ok <==> AppendAll(old(Value()), drafts).Some?
      ensures ok ==> Value() == AppendAll(old(Value()), drafts).value
    {
      ghost var before := Value();
      var i := 0;
      assert drafts[..0] == [];
      while i < |drafts|
        invariant 0 <= i <= |drafts|
        invariant AppendAll(before, drafts[..i]) == Some(Value())
      {
        AppendAllConcat(before, drafts[..i], [drafts[i]]);
        AppendAllConcat(before, drafts[..i + 1], drafts[i + 1..]);
        assert drafts[..i] + [drafts[i]] == drafts[..i + 1] && drafts[..i + 1] + drafts[i + 1..] == drafts;
        AppendAllOne(Value(), drafts[i]);
        ok := AppendEvent(drafts[i]);
        if !ok { return; }
        i := i + 1;
      }
      assert drafts[..i] == drafts;
      ok := true;
    }

    /** RunRepository.cancel: the run and every live approval of it, atomically. */
    method CancelRunNow(run: string, actor: string, reason: string, at: Time) returns (reply: Reply)
      modifies this
      ensures (Value(), reply) == CancelRun(old(Value()), run, actor, reason, at)
    {
      var begin := Value();
      var ok := AppendEvent(Draft(run, actor, at, RunCancelled(reason)));
      if !ok { return ProjectionError; }
      var ids := TextOrder.Sorted(LiveApprovals(TablesNow(), run));
      ok := AppendEach(Revocations(ids, run, actor, at));
      if !ok {
        Restore(begin);
        return ProjectionError;
      }
      reply := Done;
    }

    method RequestApprovalNow(r: Request, safe: bool, at: Time) returns (reply: Reply)
      modifies this
      ensures (Value(), reply) == RequestApproval(old(Value()), r, safe, at)
    {
      if !safe { return Unsafe; }
      var begin := Value();
      var ok := AppendEvent(Draft(r.runId, r.actor, at,
        ApprovalRequested(r.approvalId, r.workItemId, r.requesterId, r.ownerId, r.actionDigest, r.metadata,
                          r.policyVersion, r.expiresAt, r.nonce)));
      if !ok { return ProjectionError; }
      var e := journal[|journal| - 1];
      if r.approvalId !in approvals || approvals[r.approvalId].lastSequence != e.sequence {
        Restore(begin);
        return Conflict;
      }
      approvals := approvals[r.approvalId := approvals[r.approvalId].(action := Exact(r.action))];
      reply := Done;
    }

    method ApproveNow(id: string, owner: string, at: Time) returns (reply: Reply)
      modifies this
      ensures (Value(), reply) == Approve(old(Value()), id, owner, at)
    {
      if id !in approvals { return NotFound; }
      var row := approvals[id];
      if row.ownerId != owner { return NotOwner; }
      if row.status != Pending { return WrongStatus; }
      if row.action.Metadata? { return Unavailable; }
      var expired := IsExpired(row.expiresAt, at);
      var ok := AppendEvent(Draft(row.runId, owner, at,
                                  if expired then ApprovalExpired(id) else ApprovalApproved(id)));
      reply := if !ok then ProjectionError else if expired then ExpiredError else Done;
    }

    /** ApprovalRepository.claim: one transaction decides and journals the outcome. */
    method ClaimNow(c: ClaimArgs) returns (reply: Reply)
      modifies this
      ensures (Value(), reply) == Claim(old(Value()), c)
    {
      if c.approvalId !in approvals { return NotFound; }
      var row := approvals[c.approvalId];
      var rejection: Reply := Done;
      if row.status != Approved {
        rejection := WrongStatus;
      } else if IsExpired(row.expiresAt, c.at) {
        rejection := ExpiredError;
      } else if row.runId != c.runId || row.requesterId != c.requesterId || row.actionDigest != c.actionDigest {
        rejection := Mismatch;
      } else if row.action.Metadata? {
        rejection := Unavailable;
      } else if c.action.Some? && row.action != Exact(c.action.value) {
        rejection := Mismatch;
      }
      var ok := true;
      if rejection.Done? {
        ok := AppendEvent(Draft(c.runId, c.claimedBy, c.at, ApprovalClaimed(c.approvalId, c.claimedBy)));
      } else if rejection.ExpiredError? {
        ok := AppendEvent(Draft(row.runId, c.claimedBy, c.at, ApprovalExpired(c.approvalId)));
      } else if row.status != Expired {
        ok := AppendEvent(Draft(row.runId, c.claimedBy, c.at,
                                ApprovalClaimRejected(c.approvalId, c.actionDigest)));
      }
      reply := if ok then rejection else ProjectionError;
    }

    method ConsumeNow(id: string, claimedBy: string, at: Time) returns (reply: Reply)
      modifies this
      ensures (Value(), reply) == Consume(old(Value()), id, claimedBy, at)
    {
      if id !in approvals { return NotFound; }
      reply := Submit(Draft(approvals[id].runId, claimedBy, at, ApprovalConsumed(id, claimedBy)));
    }

    method ExpireDueNow(at: Time) returns (reply: Reply)
      modifies this
      ensures (Value(), reply) == ExpireDue(old(Value()), at)
    {
      var begin := Value();
      var ok := AppendEach(Expiries(TablesNow(), DueIds(TablesNow(), at), at));
      if !ok {
        Restore(begin);
        return ProjectionError;
      }
      reply := Done;
    }

    method ChangeCallStateNow(id: string, actor: string, state: CallText, result: Option<ToolResult>,
                              error: Option<string>, at: Time) returns (reply: Reply)
      modifies this
      ensures (Value(), reply) == ChangeCallState(old(Value()), id, actor, state, result, error, at)
    {
      if id !in calls { return NotFound; }
      reply := Submit(Draft(calls[id].runId, actor, at, ToolCallStateChanged(id, state, result, error)));
    }

    /** ProjectionStore.rebuild inside its transaction: the tables are cleared and the
        whole journal is folded again. */
    method RebuildNow() returns (reply: Reply)
      modifies this
      ensures (Value(), reply) == Rebuild(old(Value()))
    {
      var begin := Value();
      runs, workItems, messages, approvals := map[], map[], map[], map[];
      calls, artifacts, budgets := map[], map[], map[];
      var i := 0;
      while i < |journal|
        invariant 0 <= i <= |journal| && journal == begin.journal
        invariant Fold(journal[..i]) == Some(TablesNow())
      {
        FoldSnoc(journal[..i], journal[i]);
        assert journal[..i] + [journal[i]] == journal[..i + 1];
        var ok := ApplyEvent(journal[i]);
        if !ok {
          FoldFails(journal, i + 1);
          Restore(begin);
          return ProjectionError;
        }
        i := i + 1;
      }
      assert journal[..i] == journal;
      reply := Done;
    }
  }

  lemma AppendAllOne(db: Db, d: Draft)
    ensures AppendAll(db, [d]) == Append(db, d)
  {
    assert [d][1..] == [];
  }

  // A prefix that does not fold makes the whole journal fail.
  lemma {:induction false} FoldFails(journal: seq<Event>, i: nat)
    requires i <= |journal| && Fold(journal[..i]).None?
    ensures Fold(journal).None?
  {
    if i == |journal| {
      assert journal[..i] == journal;
    } else {
      assert journal[..|journal| - 1][..i] == journal[..i];
      FoldFails(journal[..|journal| - 1], i);
    }
  }
}
