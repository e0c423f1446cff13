/** Invariants of every database reachable by repository operations. */
module Invariants {
  import opened Domain
  import opened Projections
  import opened Repositories
  import opened Histories

  // ---------- numbering ----------

  function RunCount(journal: seq<Event>, run: string): nat {
    if journal == [] then 0 else
    RunCount(journal[..|journal| - 1], run) + if journal[|journal| - 1].runId == run then 1 else 0
  }

  // Sequences are 1, 2, ... globally and 1, 2, ... within every run.
  ghost predicate Numbered(journal: seq<Event>) {
    forall i :: 0 <= i < |journal| ==>
      journal[i].sequence == i + 1 &&
      journal[i].runSequence == RunCount(journal[..i], journal[i].runId) + 1
  }

  lemma {:induction false} MaxIsCount(journal: seq<Event>, run: string)
    requires Numbered(journal)
    ensures MaxRunSequence(journal, run) == RunCount(journal, run)
  {
    if journal != [] {
      var before := journal[..|journal| - 1];
      forall i | 0 <= i < |before|
        ensures before[i].sequence == i + 1 && before[i].runSequence == RunCount(before[..i], before[i].runId) + 1
      {
        assert before[..i] == journal[..i];
      }
      MaxIsCount(before, run);
    }
  }

  lemma NumberedMicro(db: Db, m: Micro)
    requires Numbered(db.journal)
    ensures Numbered(Do(db, m).journal)
  {
    var j, j' := db.journal, Do(db, m).journal;
    if j' != j {
      MaxIsCount(j, m.draft.runId);
      forall i | 0 <= i < |j'|
        ensures j'[i].sequence == i + 1 && j'[i].runSequence == RunCount(j'[..i], j'[i].runId) + 1
      {
        assert j'[..i] == j[..i];
        if i == |j| { assert j[..i] == j; }
      }
    }
  }

  // ---------- replay ----------

  // The tables are what the journal folds to, except for the private columns.
  ghost predicate Replays(db: Db) {
    var t := Fold(db.journal);
    t.Some? && SameExceptActions(t.value, db.tables)
  }

  lemma AppendReplays(db: Db, d: Draft)
    requires Replays(db) && Append(db, d).Some?
    ensures Replays(Append(db, d).value)
  {
    var e := NextEvent(db.journal, d);
    FoldSnoc(db.journal, e);
    ApplyIgnoresActions(Fold(db.journal).value, db.tables, e);
  }

  lemma ReplaysMicro(db: Db, m: Micro)
    requires Replays(db)
    ensures Replays(Do(db, m))
  {
    match m
    case Add(d) => if Append(db, d).Some? { AppendReplays(db, d); }
    case Open(d, _) => if Append(db, d).Some? { AppendReplays(db, d); }
    case Refold =>
  }

  // ---------- versions ----------

  predicate IsStateEvent(e: Event, run: string) {
    e.runId == run && (e.payload.RunStateChanged? || e.payload.RunCancelled?)
  }

  function StateEvents(journal: seq<Event>, run: string): nat {
    if journal == [] then 0 else
    StateEvents(journal[..|journal| - 1], run) + if IsStateEvent(journal[|journal| - 1], run) then 1 else 0
  }

  // A run's version is one plus the number of its run-state events.
  ghost predicate Versioned(db: Db) {
    forall run :: if run in db.tables.runs then db.tables.runs[run].version == 1 + StateEvents(db.journal, run)
                  else StateEvents(db.journal, run) == 0
  }

  lemma StateEventsSnoc(journal: seq<Event>, e: Event, run: string)
    ensures StateEvents(journal + [e], run) == StateEvents(journal, run) + if IsStateEvent(e, run) then 1 else 0
  {
    assert (journal + [e])[..|journal|] == journal;
  }

  lemma VersionedAppend(db: Db, d: Draft)
    requires Versioned(db) && Append(db, d).Some?
    ensures Versioned(Append(db, d).value)
  {
    var e, db' := NextEvent(db.journal, d), Append(db, d).value;
    var runs, runs' := db.tables.runs, db'.tables.runs;
    assert TableOf(d.payload).RunsTable? ==> ApplyRun(runs, e) == Some(runs');
    forall run
      ensures if run in runs' then runs'[run].version == 1 + StateEvents(db'.journal, run)
              else StateEvents(db'.journal, run) == 0
    {
      StateEventsSnoc(db.journal, e, run);
    }
  }

  lemma VersionedMicro(db: Db, m: Micro)
    requires Replays(db) && Versioned(db)
    ensures Versioned(Do(db, m))
  {
    match m
    case Add(d) => if Append(db, d).Some? { VersionedAppend(db, d); }
    case Open(d, _) => if Append(db, d).Some? { VersionedAppend(db, d); }
    case Refold =>
  }

  // ---------- approvals ----------

  ghost predicate RequestedAt(journal: seq<Event>, i: int, id: string, row: ApprovalRow) {
    0 <= i < |journal| && journal[i].runId == row.runId &&
    var p := journal[i].payload;
    p.ApprovalRequested? && p.approvalId == id && p.requesterId == row.requesterId &&
    p.ownerId == row.ownerId && p.actionDigest == row.actionDigest &&
    p.policyVersion == row.policyVersion && p.expiresAt == row.expiresAt && p.nonce == row.nonce
  }

  // Approved by the bound owner, before the bound expiry.
  ghost predicate ApprovedAt(journal: seq<Event>, i: int, id: string, row: ApprovalRow) {
    0 <= i < |journal| && journal[i].payload == ApprovalApproved(id) &&
    journal[i].actorId == row.ownerId && journal[i].createdAt < row.expiresAt
  }

  ghost predicate ClaimedAt(journal: seq<Event>, i: int, id: string, row: ApprovalRow) {
    0 <= i < |journal| && journal[i].payload.ApprovalClaimed? && journal[i].payload.approvalId == id &&
    row.claimedBy == Some(journal[i].payload.claimedBy) && journal[i].createdAt < row.expiresAt
  }

  ghost predicate Granted(journal: seq<Event>, id: string, row: ApprovalRow) {
    exists i, j :: i < j && RequestedAt(journal, i, id, row) && ApprovedAt(journal, j, id, row)
  }

  ghost predicate Taken(journal: seq<Event>, id: string, row: ApprovalRow) {
    exists i, j, k :: i < j < k && RequestedAt(journal, i, id, row) && ApprovedAt(journal, j, id, row) &&
                      ClaimedAt(journal, k, id, row)
  }

  // Each status is backed by the journal events that led to it, in order.
  ghost predicate Backed(journal: seq<Event>, id: string, row: ApprovalRow) {
    && (exists i :: RequestedAt(journal, i, id, row))
    && (row.status == Approved ==> Granted(journal, id, row))
    && (row.status in {Claimed, Consumed} ==> Taken(journal, id, row))
  }

  ghost predicate ApprovalsBacked(db: Db) {
    forall id :: id in db.tables.approvals ==> Backed(db.journal, id, db.tables.approvals[id])
  }

  lemma BackedGrows(journal: seq<Event>, e: Event, id: string, row: ApprovalRow)
    requires Backed(journal, id, row)
    ensures Backed(journal + [e], id, row)
  {
    var j' := journal + [e];
    forall i | RequestedAt(journal, i, id, row) ensures RequestedAt(j', i, id, row) {}
    forall i | ApprovedAt(journal, i, id, row) ensures ApprovedAt(j', i, id, row) {}
    forall i | ClaimedAt(journal, i, id, row) ensures ClaimedAt(j', i, id, row) {}
    if row.status == Approved { GrantedGrows(journal, e, id, row); }
    if row.status in {Claimed, Consumed} { TakenGrows(journal, e, id, row); }
  }

  lemma GrantedGrows(journal: seq<Event>, e: Event, id: string, row: ApprovalRow)
    requires Granted(journal, id, row)
    ensures Granted(journal + [e], id, row)
  {
    var i, j :| i < j && RequestedAt(journal, i, id, row) && ApprovedAt(journal, j, id, row);
    assert RequestedAt(journal + [e], i, id, row) && ApprovedAt(journal + [e], j, id, row);
  }

  lemma TakenGrows(journal: seq<Event>, e: Event, id: string, row: ApprovalRow)
    requires Taken(journal, id, row)
    ensures Taken(journal + [e], id, row)
  {
    var i, j, k :| i < j < k && RequestedAt(journal, i, id, row) && ApprovedAt(journal, j, id, row) &&
                   ClaimedAt(journal, k, id, row);
    assert RequestedAt(journal + [e], i, id, row) && ApprovedAt(journal + [e], j, id, row) &&
           ClaimedAt(journal + [e], k, id, row);
  }

  // An update by event e, appended to the journal, keeps the row backed.
  lemma UpdateBacked(db: Db, d: Draft, checked: bool)
    requires ApprovalsBacked(db) && GuardedDraft(db, d, checked) && Append(db, d).Some?
    requires IsApprovalEvent(d.payload) && !d.payload.ApprovalRequested?
    ensures var id := d.payload.approvalId; var db' := Append(db, d).value;
            id in db'.tables.approvals && Backed(db'.journal, id, db'.tables.approvals[id])
  {
    var id, e := d.payload.approvalId, NextEvent(db.journal, d);
    var row := db.tables.approvals[id];
    var row', j' := UpdateApproval(row, e).value, db.journal + [e];
    var i :| RequestedAt(db.journal, i, id, row);
    assert RequestedAt(j', i, id, row');
    if d.payload.ApprovalApproved? {
      assert ApprovedAt(j', |db.journal|, id, row');
    } else if d.payload.ApprovalClaimed? {
      ClaimBacked(db.journal, e, id, row, row');
    } else if d.payload.ApprovalConsumed? {
      ConsumeBacked(db.journal, e, id, row, row');
    }
  }

  lemma ClaimBacked(journal: seq<Event>, e: Event, id: string, row: ApprovalRow, row': ApprovalRow)
    requires Granted(journal, id, row)
    requires e.payload.ApprovalClaimed? && e.payload.approvalId == id && e.createdAt < row.expiresAt
    requires UpdateApproval(row, e) == Some(row')
    ensures Taken(journal + [e], id, row')
  {
    var i, j :| i < j && RequestedAt(journal, i, id, row) && ApprovedAt(journal, j, id, row);
    assert RequestedAt(journal + [e], i, id, row') && ApprovedAt(journal + [e], j, id, row') &&
           ClaimedAt(journal + [e], |journal|, id, row');
  }

  lemma ConsumeBacked(journal: seq<Event>, e: Event, id: string, row: ApprovalRow, row': ApprovalRow)
    requires Taken(journal, id, row)
    requires e.payload.ApprovalConsumed? && UpdateApproval(row, e) == Some(row')
    ensures Taken(journal + [e], id, row')
  {
    var i, j, k :| i < j < k && RequestedAt(journal, i, id, row) && ApprovedAt(journal, j, id, row) &&
                   ClaimedAt(journal, k, id, row);
    assert RequestedAt(journal + [e], i, id, row') && ApprovedAt(journal + [e], j, id, row') &&
           ClaimedAt(journal + [e], k, id, row');
  }

  lemma BackedStrip(journal: seq<Event>, id: string, row: ApprovalRow, row': ApprovalRow)
    requires Backed(journal, id, row) && StripRow(row) == StripRow(row')
    ensures Backed(journal, id, row')
  {
    assert row' == row.(action := row'.action) by {
      assert StripRow(row).(action := row'.action) == StripRow(row').(action := row'.action);
    }
    forall i | RequestedAt(journal, i, id, row) ensures RequestedAt(journal, i, id, row') {}
    forall i | ApprovedAt(journal, i, id, row) ensures ApprovedAt(journal, i, id, row') {}
    forall i | ClaimedAt(journal, i, id, row) ensures ClaimedAt(journal, i, id, row') {}
  }

  lemma BackedAdd(db: Db, d: Draft, checked: bool)
    requires ApprovalsBacked(db) && GuardedDraft(db, d, checked)
    ensures ApprovalsBacked(Do(db, Add(d)))
  {
    if Append(db, d).Some? {
      var e, db' := NextEvent(db.journal, d), Append(db, d).value;
      if TableOf(d.payload).ApprovalsTable? { UpdateBacked(db, d, checked); }
      forall id | id in db'.tables.approvals ensures Backed(db'.journal, id, db'.tables.approvals[id]) {
        if id in db.tables.approvals && db'.tables.approvals[id] == db.tables.approvals[id] {
          BackedGrows(db.journal, e, id, db.tables.approvals[id]);
        }
      }
    }
  }

  lemma BackedOpen(db: Db, d: Draft, action: ActionSpec)
    requires ApprovalsBacked(db) && d.payload.ApprovalRequested?
    ensures ApprovalsBacked(Do(db, Open(d, action)))
  {
    if Append(db, d).Some? {
      var e, id, db' := NextEvent(db.journal, d), d.payload.approvalId, Do(db, Open(d, action));
      assert db'.journal == db.journal + [e];
      assert db'.tables.approvals == db.tables.approvals[id := RequestedRow(e).(action := Exact(action))];
      assert RequestedAt(db'.journal, |db.journal|, id, db'.tables.approvals[id]);
      forall a | a in db.tables.approvals ensures Backed(db'.journal, a, db.tables.approvals[a]) {
        BackedGrows(db.journal, e, a, db.tables.approvals[a]);
      }
    }
  }

  lemma BackedMicro(db: Db, m: Micro, checked: bool)
    requires Replays(db) && ApprovalsBacked(db) && Guarded(db, m, checked)
    ensures ApprovalsBacked(Do(db, m))
  {
    match m
    case Add(d) => BackedAdd(db, d, checked);
    case Open(d, action) => BackedOpen(db, d, action);
    case Refold =>
      var t := Fold(db.journal).value;
      forall id | id in t.approvals ensures Backed(db.journal, id, t.approvals[id]) {
        BackedStrip(db.journal, id, db.tables.approvals[id], t.approvals[id]);
      }
  }

  // ---------- single use ----------

  function Claims(journal: seq<Event>, id: string): nat {
    if journal == [] then 0 else
    var p := journal[|journal| - 1].payload;
    Claims(journal[..|journal| - 1], id) + if p.ApprovalClaimed? && p.approvalId == id then 1 else 0
  }

  function Consumptions(journal: seq<Event>, id: string): nat {
    if journal == [] then 0 else
    var p := journal[|journal| - 1].payload;
    Consumptions(journal[..|journal| - 1], id) + if p.ApprovalConsumed? && p.approvalId == id then 1 else 0
  }

  predicate HasStatus(rows: map<string, ApprovalRow>, id: string, statuses: set<ApprovalStatus>) {
    id in rows && rows[id].status in statuses
  }

  // The journal holds one claim of each claimed approval and one consumption of
  // each consumed one, and none of any other.
  ghost predicate SingleUse(db: Db) {
    forall id ::
      && Claims(db.journal, id) == (if HasStatus(db.tables.approvals, id, {Claimed, Consumed}) then 1 else 0)
      && Consumptions(db.journal, id) == (if HasStatus(db.tables.approvals, id, {Consumed}) then 1 else 0)
  }

  lemma CountsSnoc(journal: seq<Event>, e: Event, id: string)
    ensures Claims(journal + [e], id) ==
            Claims(journal, id) + if e.payload.ApprovalClaimed? && e.payload.approvalId == id then 1 else 0
    ensures Consumptions(journal + [e], id) ==
            Consumptions(journal, id) + if e.payload.ApprovalConsumed? && e.payload.approvalId == id then 1 else 0
  {
    assert (journal + [e])[..|journal|] == journal;
  }

  lemma SingleUseAppend(db: Db, d: Draft)
    requires SingleUse(db) && Append(db, d).Some?
    ensures SingleUse(Append(db, d).value)
  {
    hide Claims, Consumptions;
    var e, db' := NextEvent(db.journal, d), Append(db, d).value;
    var rows, rows' := db.tables.approvals, db'.tables.approvals;
    forall id
      ensures Claims(db'.journal, id) == (if HasStatus(rows', id, {Claimed, Consumed}) then 1 else 0)
      ensures Consumptions(db'.journal, id) == (if HasStatus(rows', id, {Consumed}) then 1 else 0)
    {
      CountsSnoc(db.journal, e, id);
      if TableOf(d.payload).ApprovalsTable? { StatusStep(rows, e, id); }
    }
  }

  lemma StatusStep(rows: map<string, ApprovalRow>, e: Event, id: string)
    requires IsApprovalEvent(e.payload) && ApplyApproval(rows, e).Some?
    ensures var rows', mine := ApplyApproval(rows, e).value, e.payload.approvalId == id;
            && (HasStatus(rows', id, {Claimed, Consumed}) <==>
                HasStatus(rows, id, {Claimed, Consumed}) || (e.payload.ApprovalClaimed? && mine))
            && (HasStatus(rows', id, {Consumed}) <==>
                HasStatus(rows, id, {Consumed}) || (e.payload.ApprovalConsumed? && mine))
            && (e.payload.ApprovalClaimed? && mine ==> !HasStatus(rows, id, {Claimed, Consumed}))
            && (e.payload.ApprovalConsumed? && mine ==> !HasStatus(rows, id, {Consumed}))
  {
  }

  lemma SameStatus(rows: map<string, ApprovalRow>, rows': map<string, ApprovalRow>, id: string,
                   statuses: set<ApprovalStatus>)
    requires SameApprovals(rows, rows')
    ensures HasStatus(rows, id, statuses) <==> HasStatus(rows', id, statuses)
  {
    if id in rows { assert rows[id].status == StripRow(rows[id]).status == StripRow(rows'[id]).status; }
  }

  lemma SingleUseMicro(db: Db, m: Micro)
    requires Replays(db) && SingleUse(db) && (m.Open? ==> m.draft.payload.ApprovalRequested?)
    ensures SingleUse(Do(db, m))
  {
    match m
    case Add(d) => if Append(db, d).Some? { SingleUseAppend(db, d); }
    case Open(d, _) =>
      if Append(db, d).Some? {
        SingleUseAppend(db, d);
        RetainKeeps(Append(db, d).value.tables, d.payload.approvalId, m.action);
        SingleUseRows(Append(db, d).value, Do(db, m));
      }
    case Refold => SingleUseRows(db, Do(db, m));
  }

  lemma RetainKeeps(t: Tables, id: string, action: ActionSpec)
    requires id in t.approvals
    ensures SameExceptActions(t, RetainAction(t, id, action))
    ensures SameApprovals(RetainAction(t, id, action).approvals, t.approvals)
  {
  }

  lemma SingleUseRows(db: Db, db': Db)
    requires SingleUse(db) && db'.journal == db.journal
    requires SameApprovals(db'.tables.approvals, db.tables.approvals)
    ensures SingleUse(db')
  {
    forall id, s ensures HasStatus(db'.tables.approvals, id, s) == HasStatus(db.tables.approvals, id, s) {
      SameStatus(db'.tables.approvals, db.tables.approvals, id, s);
    }
  }

  // ---------- legal run histories ----------

  // Every RunStateChanged leaves, along an edge of the lifecycle graph, the state
  // that the events before it fold to.
  ghost predicate LegalAt(journal: seq<Event>, k: nat)
    requires k < |journal|
  {
    journal[k].payload.RunStateChanged? ==>
      Fold(journal[..k]).Some? && journal[k].runId in Fold(journal[..k]).value.runs &&
      CanTransition(Fold(journal[..k]).value.runs[journal[k].runId].state, journal[k].payload.newState)
  }

  ghost predicate LegalHistory(journal: seq<Event>) {
    forall k :: 0 <= k < |journal| ==> LegalAt(journal, k)
  }

  lemma LegalMicro(db: Db, m: Micro)
    requires Replays(db) && LegalHistory(db.journal) && Guarded(db, m, true)
    ensures LegalHistory(Do(db, m).journal)
  {
    var j, j' := db.journal, Do(db, m).journal;
    if j' != j {
      assert j' == j + [NextEvent(j, m.draft)];
      forall k | 0 <= k < |j'| ensures LegalAt(j', k) {
        assert j'[..k] == j[..k];
        if k < |j| { assert LegalAt(j, k); } else { assert j[..k] == j; }
      }
    }
  }

  // ---------- all together ----------

  ghost predicate Inv(db: Db) {
    Numbered(db.journal) && Replays(db) && Versioned(db) && ApprovalsBacked(db) && SingleUse(db)
  }

  lemma InvMicro(db: Db, m: Micro, checked: bool)
    requires Inv(db) && Guarded(db, m, checked)
    ensures Inv(Do(db, m))
    ensures checked && LegalHistory(db.journal) ==> LegalHistory(Do(db, m).journal)
  {
    NumberedMicro(db, m);
    ReplaysMicro(db, m);
    VersionedMicro(db, m);
    BackedMicro(db, m, checked);
    SingleUseMicro(db, m);
    if checked && LegalHistory(db.journal) { LegalMicro(db, m); }
  }

  lemma {:induction false} InvMicros(db: Db, ms: seq<Micro>, checked: bool)
    requires Inv(db) && AllGuarded(db, ms, checked)
    ensures Inv(DoAll(db, ms))
    ensures checked && LegalHistory(db.journal) ==> LegalHistory(DoAll(db, ms).journal)
    decreases ms
  {
    if ms != [] {
      InvMicro(db, ms[0], checked);
      InvMicros(Do(db, ms[0]), ms[1..], checked);
    }
  }

  /** One operation, whether it commits or raises, keeps every invariant; one whose
      run transition was checked also keeps the run history legal. */
  lemma InvExec(db: Db, op: Op, checked: bool)
    requires Inv(db) && (checked ==> CheckedOp(op))
    ensures Inv(Exec(db, op).0)
    ensures checked && LegalHistory(db.journal) ==> LegalHistory(Exec(db, op).0.journal)
  {
    ExecIsMicros(db, op, checked);
    InvMicros(db, Micros(db, op), checked);
  }

  lemma {:induction false} InvExecAll(db: Db, ops: seq<Op>, checked: bool)
    requires Inv(db) && (checked ==> forall i :: 0 <= i < |ops| ==> CheckedOp(ops[i]))
    ensures Inv(ExecAll(db, ops))
    ensures checked && LegalHistory(db.journal) ==> LegalHistory(ExecAll(db, ops).journal)
    decreases ops
  {
    if ops != [] {
      InvExec(db, ops[0], checked);
      InvExecAll(Exec(db, ops[0]).0, ops[1..], checked);
    }
  }

  lemma InvEmpty()
    ensures Inv(EMPTY_DB) && LegalHistory(EMPTY_DB.journal)
  {
  }
}
