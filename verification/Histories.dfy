/** What every history of repository operations keeps: operations are decomposed
    into guarded micro steps, and each invariant is proved once per micro step. */
module Histories {
  import opened Domain
  import opened Projections
  import opened Repositories
  import TextOrder

  // ---------- micro steps ----------

  datatype Micro = Add(draft: Draft) | Open(draft: Draft, action: ActionSpec) | Refold

  function Do(db: Db, m: Micro): Db {
    match m
    case Add(d) => Commit(db, Append(db, d)).0
    case Open(d, action) =>
      var r := Append(db, d);
      if r.None? || !d.payload.ApprovalRequested? || d.payload.approvalId !in r.value.tables.approvals
      then db
      else r.value.(tables := RetainAction(r.value.tables, d.payload.approvalId, action))
    case Refold => Rebuild(db).0
  }

  // What the repositories have checked before an event reaches the journal.
  // `checked` adds the edge check made by the orchestrator and by recovery.
  predicate GuardedDraft(db: Db, d: Draft, checked: bool) {
    var p, rows := d.payload, db.tables.approvals;
    match p
    case ApprovalRequested(_, _, _, _, _, _, _, _, _) => false
    case ApprovalApproved(id) =>
      id in rows && rows[id].status == Pending && rows[id].action.Exact? &&
      d.actorId == rows[id].ownerId && d.runId == rows[id].runId && d.at < rows[id].expiresAt
    case ApprovalExpired(id) => id in rows && rows[id].expiresAt <= d.at
    case ApprovalClaimed(id, claimant) =>
      id in rows && rows[id].status == Approved && rows[id].action.Exact? &&
      d.runId == rows[id].runId && d.actorId == claimant && d.at < rows[id].expiresAt
    case ApprovalDenied(id) => id in rows && d.actorId == rows[id].ownerId
    case RunStateChanged(target, _, _) =>
      checked ==> d.runId in db.tables.runs && CanTransition(db.tables.runs[d.runId].state, target)
    case _ => true
  }

  predicate Guarded(db: Db, m: Micro, checked: bool) {
    match m
    case Add(d) => GuardedDraft(db, d, checked)
    case Open(d, _) => d.payload.ApprovalRequested?
    case Refold => true
  }

  function DoAll(db: Db, ms: seq<Micro>): Db
    decreases ms
  {
    if ms == [] then db else DoAll(Do(db, ms[0]), ms[1..])
  }

  predicate AllGuarded(db: Db, ms: seq<Micro>, checked: bool)
    decreases ms
  {
    ms == [] || (Guarded(db, ms[0], checked) && AllGuarded(Do(db, ms[0]), ms[1..], checked))
  }

  // The operations whose run transitions were checked against the lifecycle graph
  // on the state they expect to find.
  predicate CheckedOp(op: Op) {
    op.MoveRun? ==> op.expectedState.Some? && CanTransition(op.expectedState.value, op.target)
  }

  function Adds(drafts: seq<Draft>): (r: seq<Micro>)
    ensures |r| == |drafts|
  {
    seq(|drafts|, i requires 0 <= i < |drafts| => Add(drafts[i]))
  }

  function Micros(db: Db, op: Op): seq<Micro> {
    if Exec(db, op).0 == db then [] else
    match op
    case Record(d) => [Add(d)]
    case MoveRun(run, target, actor, _, _, reason, lease, at) =>
      [Add(Draft(run, actor, at, RunStateChanged(target, reason, lease)))]
    case StopRun(run, actor, why, at) =>
      var first := Append(db, Draft(run, actor, at, RunCancelled(why)));
      if first.None? then [] else
      [Add(Draft(run, actor, at, RunCancelled(why)))] +
      Adds(Revocations(TextOrder.Sorted(LiveApprovals(first.value.tables, run)), run, actor, at))
    case Ask(r, _, at) =>
      [Open(Draft(r.runId, r.actor, at,
                  ApprovalRequested(r.approvalId, r.workItemId, r.requesterId, r.ownerId, r.actionDigest,
                                    r.metadata, r.policyVersion, r.expiresAt, r.nonce)), r.action)]
    case Expiry(at) => Adds(Expiries(db.tables, DueIds(db.tables, at), at))
    case RebuildTables => [Refold]
    case _ => [Add(LastDraft(Exec(db, op).0))]
  }

  // The draft of the newest event.
  function LastDraft(db: Db): Draft {
    if db.journal == [] then Draft("", "", 0, Other("")) else
    var e := db.journal[|db.journal| - 1];
    Draft(e.runId, e.actorId, e.createdAt, e.payload)
  }

  lemma AppendLast(db: Db, d: Draft)
    requires Append(db, d).Some?
    ensures LastDraft(Append(db, d).value) == d
    ensures Append(db, d).value != db
  {
    assert |Append(db, d).value.journal| == |db.journal| + 1;
  }

  lemma {:induction false} AddsAll(db: Db, drafts: seq<Draft>)
    requires AppendAll(db, drafts).Some?
    ensures DoAll(db, Adds(drafts)) == AppendAll(db, drafts).value
    decreases drafts
  {
    if drafts != [] {
      assert Adds(drafts)[1..] == Adds(drafts[1..]);
      AddsAll(Append(db, drafts[0]).value, drafts[1..]);
    }
  }

  // Revocations carry no guard of their own.
  lemma {:induction false} RevocationsGuarded(db: Db, drafts: seq<Draft>, checked: bool)
    requires forall i :: 0 <= i < |drafts| ==> drafts[i].payload.ApprovalCancelled?
    ensures AllGuarded(db, Adds(drafts), checked)
    decreases drafts
  {
    if drafts != [] {
      assert Adds(drafts)[1..] == Adds(drafts[1..]);
      RevocationsGuarded(Do(db, Add(drafts[0])), drafts[1..], checked);
    }
  }

  // No later event changes the expiry bound to an existing approval.
  lemma ExpiryFixed(db: Db, d: Draft, id: string)
    requires d.payload.ApprovalExpired? && id in db.tables.approvals
    ensures id in Do(db, Add(d)).tables.approvals
    ensures Do(db, Add(d)).tables.approvals[id].expiresAt == db.tables.approvals[id].expiresAt
  {
  }

  predicate DueDraft(db: Db, d: Draft) {
    d.payload.ApprovalExpired? && GuardedDraft(db, d, true)
  }

  lemma {:induction false} ExpiriesGuarded(db: Db, drafts: seq<Draft>, checked: bool)
    requires forall i :: 0 <= i < |drafts| ==> DueDraft(db, drafts[i])
    ensures AllGuarded(db, Adds(drafts), checked)
    decreases drafts
  {
    if drafts != [] {
      assert Adds(drafts)[1..] == Adds(drafts[1..]);
      assert DueDraft(db, drafts[0]);
      var next := Do(db, Add(drafts[0]));
      forall i | 0 <= i < |drafts[1..]| ensures DueDraft(next, drafts[1..][i]) {
        assert DueDraft(db, drafts[i + 1]);
        ExpiryFixed(db, drafts[0], drafts[i + 1].payload.approvalId);
      }
      ExpiriesGuarded(next, drafts[1..], checked);
    }
  }

  lemma DueGuarded(db: Db, at: Time, checked: bool)
    ensures AllGuarded(db, Adds(Expiries(db.tables, DueIds(db.tables, at), at)), checked)
  {
    var ids := DueIds(db.tables, at);
    var drafts := Expiries(db.tables, ids, at);
    forall i | 0 <= i < |drafts| ensures DueDraft(db, drafts[i]) {
      assert ids[i] in Due(db.tables, at);
    }
    ExpiriesGuarded(db, drafts, checked);
  }

  lemma SingleMicro(db: Db, m: Micro, checked: bool)
    requires Guarded(db, m, checked)
    ensures DoAll(db, [m]) == Do(db, m) && AllGuarded(db, [m], checked)
  {
    assert [m][1..] == [];
    assert AllGuarded(Do(db, m), [], checked);
  }

  lemma StopRunIsMicros(db: Db, op: Op, checked: bool)
    requires op.StopRun?
    ensures DoAll(db, Micros(db, op)) == Exec(db, op).0
    ensures AllGuarded(db, Micros(db, op), checked)
  {
    var d := Draft(op.run, op.actor, op.at, RunCancelled(op.why));
    var first := Append(db, d);
    if Micros(db, op) != [] {
      var drafts := Revocations(TextOrder.Sorted(LiveApprovals(first.value.tables, op.run)), op.run,
                                op.actor, op.at);
      assert ([Add(d)] + Adds(drafts))[1..] == Adds(drafts);
      AddsAll(first.value, drafts);
      RevocationsGuarded(first.value, drafts, checked);
    }
  }

  lemma ExpiryIsMicros(db: Db, op: Op, checked: bool)
    requires op.Expiry?
    ensures DoAll(db, Micros(db, op)) == Exec(db, op).0
    ensures AllGuarded(db, Micros(db, op), checked)
  {
    if Micros(db, op) != [] {
      var drafts := Expiries(db.tables, DueIds(db.tables, op.at), op.at);
      AddsAll(db, drafts);
      DueGuarded(db, op.at, checked);
    }
  }

  // The remaining operations append at most one event, under their own guards.
  lemma OneEventOp(db: Db, op: Op, checked: bool) returns (d: Draft)
    requires !op.StopRun? && !op.Expiry? && !op.Ask? && !op.RebuildTables?
    requires checked ==> CheckedOp(op)
    requires Exec(db, op).0 != db
    ensures Append(db, d).Some? && Exec(db, op).0 == Append(db, d).value
    ensures GuardedDraft(db, d, checked)
  {
    match op
    case Record(r) => d := r;
    case MoveRun(run, target, actor, _, _, reason, lease, at) =>
      d := Draft(run, actor, at, RunStateChanged(target, reason, lease));
    case Grant(id, owner, at) =>
      var row := db.tables.approvals[id];
      d := Draft(row.runId, owner, at,
                 if IsExpired(row.expiresAt, at) then ApprovalExpired(id) else ApprovalApproved(id));
    case Refuse(id, owner, at) =>
      d := Draft(db.tables.approvals[id].runId, owner, at, ApprovalDenied(id));
    case Withdraw(id, actor, at) =>
      d := Draft(db.tables.approvals[id].runId, actor, at, ApprovalCancelled(id));
    case Take(c) =>
      var row := db.tables.approvals[c.approvalId];
      var rejection := ClaimRejection(row, c);
      d := if rejection.None? then
             Draft(c.runId, c.claimedBy, c.at, ApprovalClaimed(c.approvalId, c.claimedBy))
           else if rejection.value.ExpiredError? then
             Draft(row.runId, c.claimedBy, c.at, ApprovalExpired(c.approvalId))
           else
             Draft(row.runId, c.claimedBy, c.at, ApprovalClaimRejected(c.approvalId, c.actionDigest));
    case Use(id, claimant, at) =>
      d := Draft(db.tables.approvals[id].runId, claimant, at, ApprovalConsumed(id, claimant));
    case CallStep(id, actor, state, result, error, at) =>
      d := Draft(db.tables.calls[id].runId, actor, at, ToolCallStateChanged(id, state, result, error));
    case WorkStep(id, actor, state, lease, at) =>
      d := Draft(db.tables.workItems[id].runId, actor, at, WorkItemStateChanged(id, state, lease));
  }

  /** Every operation is exactly its guarded micro steps; one that raises is none. */
  lemma ExecIsMicros(db: Db, op: Op, checked: bool)
    requires checked ==> CheckedOp(op)
    ensures DoAll(db, Micros(db, op)) == Exec(db, op).0
    ensures AllGuarded(db, Micros(db, op), checked)
  {
    if Micros(db, op) == [] {
      MicrosEmpty(db, op);
    } else if op.StopRun? {
      StopRunIsMicros(db, op, checked);
    } else if op.Expiry? {
      ExpiryIsMicros(db, op, checked);
    } else if op.Ask? || op.RebuildTables? {
      SingleMicro(db, Micros(db, op)[0], checked);
    } else {
      var d := OneEventOp(db, op, checked);
      AppendLast(db, d);
      assert Micros(db, op) == [Add(d)];
      SingleMicro(db, Add(d), checked);
    }
  }

  lemma MicrosEmpty(db: Db, op: Op)
    requires Micros(db, op) == []
    ensures Exec(db, op).0 == db
  {
  }
}
