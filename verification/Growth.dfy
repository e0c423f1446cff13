/** What no repository operation can undo: journal prefixes, the bindings of approvals
    and calls, claims, and cancellations. */
module Growth {
  import opened Domain
  import opened Projections
  import opened Repositories
  import opened Histories
  import opened Invariants
  import TextOrder

  predicate SameBinding(row: ApprovalRow, row': ApprovalRow) {
    && row'.runId == row.runId && row'.requesterId == row.requesterId && row'.ownerId == row.ownerId
    && row'.actionDigest == row.actionDigest && row'.policyVersion == row.policyVersion
    && row'.expiresAt == row.expiresAt && row'.nonce == row.nonce
    && (row.status in {Claimed, Consumed} ==>
          row'.status in {Claimed, Consumed} && row'.claimedBy == row.claimedBy)
  }

  predicate SameCall(row: CallRow, row': CallRow) {
    row'.runId == row.runId && row'.approvalId == row.approvalId && row'.toolName == row.toolName &&
    row'.actionDigest == row.actionDigest
  }

  ghost predicate Kept(db: Db, db': Db) {
    && db.journal <= db'.journal
    && (forall id :: id in db.tables.approvals ==>
          id in db'.tables.approvals && SameBinding(db.tables.approvals[id], db'.tables.approvals[id]))
    && (forall c :: c in db.tables.calls ==>
          c in db'.tables.calls && SameCall(db.tables.calls[c], db'.tables.calls[c]))
  }

  lemma KeptTransitive(a: Db, b: Db, c: Db)
    requires Kept(a, b) && Kept(b, c)
    ensures Kept(a, c)
  {
    forall id | id in a.tables.approvals
      ensures id in c.tables.approvals && SameBinding(a.tables.approvals[id], c.tables.approvals[id])
    {
      assert SameBinding(a.tables.approvals[id], b.tables.approvals[id]);
    }
    forall x | x in a.tables.calls ensures x in c.tables.calls && SameCall(a.tables.calls[x], c.tables.calls[x]) {
      assert SameCall(a.tables.calls[x], b.tables.calls[x]);
    }
  }

  lemma UpdateKeeps(row: ApprovalRow, e: Event)
    requires IsApprovalEvent(e.payload) && !e.payload.ApprovalRequested? && UpdateApproval(row, e).Some?
    ensures SameBinding(row, UpdateApproval(row, e).value)
  {
  }

  lemma AppendKeeps(db: Db, d: Draft)
    requires Append(db, d).Some?
    ensures Kept(db, Append(db, d).value)
  {
    var db', e := Append(db, d).value, NextEvent(db.journal, d);
    match TableOf(d.payload)
    case ApprovalsTable =>
      assert ApplyApproval(db.tables.approvals, e) == Some(db'.tables.approvals);
      var id := d.payload.approvalId;
      if !d.payload.ApprovalRequested? { UpdateKeeps(db.tables.approvals[id], e); }
    case CallsTable =>
      assert ApplyCall(db.tables.calls, e) == Some(db'.tables.calls);
    case _ =>
  }

  lemma StripKeeps(row: ApprovalRow, row': ApprovalRow)
    requires StripRow(row) == StripRow(row')
    ensures SameBinding(row, row')
  {
    assert row' == row.(action := row'.action) by {
      assert StripRow(row).(action := row'.action) == StripRow(row').(action := row'.action);
    }
  }

  lemma RefoldKeeps(db: Db)
    requires Replays(db)
    ensures Kept(db, Do(db, Refold))
  {
    var t := Fold(db.journal).value;
    forall id | id in db.tables.approvals
      ensures id in t.approvals && SameBinding(db.tables.approvals[id], t.approvals[id])
    {
      StripKeeps(db.tables.approvals[id], t.approvals[id]);
    }
  }

  lemma OpenKeeps(db: Db, d: Draft, action: ActionSpec)
    requires d.payload.ApprovalRequested?
    ensures Kept(db, Do(db, Open(d, action)))
  {
    if Append(db, d).Some? {
      AppendKeeps(db, d);
      var next, id := Append(db, d).value, d.payload.approvalId;
      StripKeeps(next.tables.approvals[id], RetainAction(next.tables, id, action).approvals[id]);
      KeptTransitive(db, next, Do(db, Open(d, action)));
    }
  }

  lemma MicroKeeps(db: Db, m: Micro)
    requires Replays(db) && (m.Open? ==> m.draft.payload.ApprovalRequested?)
    ensures Kept(db, Do(db, m))
  {
    match m
    case Add(d) => if Append(db, d).Some? { AppendKeeps(db, d); }
    case Open(d, action) => OpenKeeps(db, d, action);
    case Refold => RefoldKeeps(db);
  }

  // ---------- cancellations ----------

  // A run that was ever cancelled is CANCELLED.
  ghost predicate NoRevival(db: Db) {
    forall k :: 0 <= k < |db.journal| && db.journal[k].payload.RunCancelled? ==>
      db.journal[k].runId in db.tables.runs && db.tables.runs[db.journal[k].runId].state == Cancelled
  }

  lemma RevivalMicro(db: Db, m: Micro)
    requires Replays(db) && NoRevival(db) && Guarded(db, m, true)
    ensures NoRevival(Do(db, m))
  {
    match m
    case Add(d) =>
      if Append(db, d).Some? && TableOf(d.payload).RunsTable? {
        assert ApplyRun(db.tables.runs, NextEvent(db.journal, d)).Some?;
      }
    case Open(d, _) =>
    case Refold =>
  }

  // ---------- completions ----------

  predicate Completes(p: Payload) { p.RunStateChanged? && p.newState == Completed }

  // No event of the journal of db' beyond that of db completes a run.
  ghost predicate NoneCompleted(db: Db, db': Db) {
    db.journal <= db'.journal &&
    forall k :: |db.journal| <= k < |db'.journal| ==> !Completes(db'.journal[k].payload)
  }

  predicate Completing(op: Op) { op.MoveRun? && op.target == Completed }

  predicate Modest(ms: seq<Micro>) {
    forall i :: 0 <= i < |ms| ==> ms[i].Refold? || !Completes(ms[i].draft.payload)
  }

  // A batch of appends none of which completes a run.
  lemma AddsModest(drafts: seq<Draft>)
    requires forall i :: 0 <= i < |drafts| ==> !Completes(drafts[i].payload)
    ensures Modest(Adds(drafts))
  {
    forall i | 0 <= i < |drafts| ensures !Completes(Adds(drafts)[i].draft.payload) { assert Adds(drafts)[i] == Add(drafts[i]); }
  }

  lemma CancelModest(db: Db, op: Op)
    requires op.StopRun?
    ensures Modest(Micros(db, op))
  {
    hide Exec, Append, Adds, TextOrder.Sorted, LiveApprovals;
    var first := Append(db, Draft(op.run, op.actor, op.at, RunCancelled(op.why)));
    if first.Some? {
      AddsModest(Revocations(TextOrder.Sorted(LiveApprovals(first.value.tables, op.run)), op.run, op.actor, op.at));
    }
  }

  lemma ExpiryModest(db: Db, op: Op)
    requires op.Expiry?
    ensures Modest(Micros(db, op))
  {
    hide Exec, Append, Adds, DueIds;
    AddsModest(Expiries(db.tables, DueIds(db.tables, op.at), op.at));
  }

  lemma MicrosModest(db: Db, op: Op)
    requires !Completing(op)
    ensures Modest(Micros(db, op))
  {
    if Micros(db, op) == [] {
    } else if op.StopRun? {
      CancelModest(db, op);
    } else if op.Expiry? {
      ExpiryModest(db, op);
    } else if op.Ask? || op.RebuildTables? {
      assert |Micros(db, op)| == 1;
    } else {
      var d := OneEventOp(db, op, false);
      AppendLast(db, d);
      OneEventModest(db, op, d);
    }
  }

  lemma NoneTransitive(a: Db, b: Db, c: Db)
    requires NoneCompleted(a, b) && NoneCompleted(b, c)
    ensures NoneCompleted(a, c)
  {
    forall k | |a.journal| <= k < |c.journal| ensures !Completes(c.journal[k].payload) {
      if k < |b.journal| { assert c.journal[k] == b.journal[k]; }
    }
  }

  lemma OneEventModest(db: Db, op: Op, d: Draft)
    requires !op.StopRun? && !op.Expiry? && !op.Ask? && !op.RebuildTables? && !Completing(op)
    requires Append(db, d).Some? && Exec(db, op).0 == Append(db, d).value
    ensures !Completes(d.payload)
  {
    var j := Exec(db, op).0.journal;
    assert j[|j| - 1].payload == d.payload;
  }

  lemma ModestTail(ms: seq<Micro>)
    requires ms != [] && Modest(ms)
    ensures Modest(ms[1..]) && (ms[0].Refold? || !Completes(ms[0].draft.payload))
  {
  }

  lemma MicroNoneCompleted(db: Db, m: Micro)
    requires m.Refold? || !Completes(m.draft.payload)
    ensures NoneCompleted(db, Do(db, m))
  {
  }

  // ---------- whole operations ----------

  lemma {:induction false} MicrosGrow(db: Db, ms: seq<Micro>)
    requires Inv(db) && NoRevival(db) && AllGuarded(db, ms, true)
    ensures Kept(db, DoAll(db, ms)) && NoRevival(DoAll(db, ms))
    ensures Modest(ms) ==> NoneCompleted(db, DoAll(db, ms))
    decreases ms
  {
    if ms == [] {
    } else {
      var next := Do(db, ms[0]);
      MicroKeeps(db, ms[0]);
      RevivalMicro(db, ms[0]);
      InvMicro(db, ms[0], true);
      MicrosGrow(next, ms[1..]);
      KeptTransitive(db, next, DoAll(db, ms));
      if Modest(ms) {
        ModestTail(ms);
        MicroNoneCompleted(db, ms[0]);
        NoneTransitive(db, next, DoAll(db, ms));
      }
    }
  }

  /** A checked operation extends the journal, keeps every binding and claim, never
      revives a cancelled run, and completes a run only if it is that transition. */
  lemma ExecGrows(db: Db, op: Op)
    requires Inv(db) && NoRevival(db) && CheckedOp(op)
    ensures Kept(db, Exec(db, op).0) && NoRevival(Exec(db, op).0)
    ensures !Completing(op) ==> NoneCompleted(db, Exec(db, op).0)
  {
    ExecIsMicros(db, op, true);
    MicrosGrow(db, Micros(db, op));
    if !Completing(op) { MicrosModest(db, op); }
  }

  // ---------- names ----------

  // append_in_transaction refuses empty run ids, so no row carries one.
  ghost predicate Named(t: Tables) {
    && (forall c :: c in t.calls ==> t.calls[c].runId != "")
    && (forall id :: id in t.approvals ==> t.approvals[id].runId != "")
  }

  lemma AppendNamed(db: Db, d: Draft)
    requires Named(db.tables) && Append(db, d).Some?
    ensures Named(Append(db, d).value.tables)
  {
    var db', e := Append(db, d).value, NextEvent(db.journal, d);
    match TableOf(d.payload)
    case ApprovalsTable => assert ApplyApproval(db.tables.approvals, e) == Some(db'.tables.approvals);
    case CallsTable => assert ApplyCall(db.tables.calls, e) == Some(db'.tables.calls);
    case _ =>
  }

  lemma SameNames(t: Tables, u: Tables)
    requires SameExceptActions(t, u) && Named(u)
    ensures Named(t)
  {
    forall id | id in t.approvals ensures t.approvals[id].runId != "" {
      assert t.approvals[id].runId == StripRow(t.approvals[id]).runId == StripRow(u.approvals[id]).runId;
    }
  }

  lemma NamedMicro(db: Db, m: Micro)
    requires Replays(db) && Named(db.tables) && (m.Open? ==> m.draft.payload.ApprovalRequested?)
    ensures Named(Do(db, m).tables)
  {
    match m
    case Add(d) => if Append(db, d).Some? { AppendNamed(db, d); }
    case Open(d, action) =>
      if Append(db, d).Some? {
        AppendNamed(db, d);
        RetainKeeps(Append(db, d).value.tables, d.payload.approvalId, action);
        SameNames(Do(db, m).tables, Append(db, d).value.tables);
      }
    case Refold => SameNames(Fold(db.journal).value, db.tables);
  }

  lemma {:induction false} MicrosNamed(db: Db, ms: seq<Micro>)
    requires Inv(db) && Named(db.tables) && AllGuarded(db, ms, true)
    ensures Named(DoAll(db, ms).tables)
    decreases ms
  {
    hide Inv, Named;
    if ms != [] {
      assert Replays(db) by { InvReplays(db); }
      NamedMicro(db, ms[0]);
      InvMicro(db, ms[0], true);
      MicrosNamed(Do(db, ms[0]), ms[1..]);
    }
  }

  lemma InvReplays(db: Db)
    requires Inv(db)
    ensures Replays(db) && SingleUse(db)
  {
  }

  // ---------- databases in good order ----------

  ghost predicate Good(db: Db) { Inv(db) && NoRevival(db) && Named(db.tables) }

  lemma GoodExec(db: Db, op: Op)
    requires Good(db) && CheckedOp(op)
    ensures Good(Exec(db, op).0) && Kept(db, Exec(db, op).0)
  {
    hide Inv, NoRevival, Named, Kept, Exec;
    ExecIsMicros(db, op, true);
    MicrosNamed(db, Micros(db, op));
    InvExec(db, op, true);
    ExecGrows(db, op);
  }

  /** Good order survives any history of checked operations, from the empty database. */
  lemma {:induction false} GoodExecAll(db: Db, ops: seq<Op>)
    requires Good(db) && forall i :: 0 <= i < |ops| ==> CheckedOp(ops[i])
    ensures Good(ExecAll(db, ops)) && Kept(db, ExecAll(db, ops))
    decreases ops
  {
    hide Good, Kept, Exec;
    if ops == [] {
      KeptItself(db);
    } else {
      GoodExec(db, ops[0]);
      GoodExecAll(Exec(db, ops[0]).0, ops[1..]);
      KeptTransitive(db, Exec(db, ops[0]).0, ExecAll(db, ops));
    }
  }

  lemma KeptItself(db: Db)
    ensures Kept(db, db)
  {
  }

  lemma EmptyIsGood()
    ensures Good(EMPTY_DB)
  {
    InvEmpty();
  }
}
