/** The repository operations as functions on the database value: each is one
    transaction that appends events and folds them into the tables, or rolls back. */
module Repositories {
  import opened Domain
  import opened Projections
  import TextOrder

  datatype Db = Db(journal: seq<Event>, tables: Tables)

  const EMPTY_DB := Db([], EMPTY_TABLES)

  datatype Draft = Draft(runId: string, actorId: string, at: Time, payload: Payload)

  // What a caller observes: a normal return, or which exception.
  datatype Reply =
    | Done | NotFound | Conflict | NotOwner | WrongStatus | ExpiredError | Unavailable
    | Mismatch | Unsafe | ProjectionError

  // ---------- appending ----------

  function LastSequence(journal: seq<Event>): nat {
    if journal == [] then 0 else journal[|journal| - 1].sequence
  }

  // COALESCE(MAX(run_sequence), 0) over the events of one run.
  function MaxRunSequence(journal: seq<Event>, run: string): nat {
    if journal == [] then 0 else
    var last := journal[|journal| - 1];
    var before := MaxRunSequence(journal[..|journal| - 1], run);
    if last.runId == run && last.runSequence > before then last.runSequence else before
  }

  function NextEvent(journal: seq<Event>, d: Draft): Event {
    Event(LastSequence(journal) + 1, MaxRunSequence(journal, d.runId) + 1, d.runId, d.actorId, d.at,
          d.payload)
  }

  /** append_in_transaction: None where it raises. */
  function Append(db: Db, d: Draft): Option<Db> {
    if d.runId == "" || d.actorId == "" then None else
    var e := NextEvent(db.journal, d);
    var t := Apply(db.tables, e);
    if t.None? then None else Some(Db(db.journal + [e], t.value))
  }

  function AppendAll(db: Db, drafts: seq<Draft>): Option<Db>
    decreases drafts
  {
    if drafts == [] then Some(db) else
    var first := Append(db, drafts[0]);
    if first.None? then None else AppendAll(first.value, drafts[1..])
  }

  // Commit, or roll back to the state before the transaction.
  function Commit(db: Db, r: Option<Db>): (Db, Reply) {
    if r.None? then (db, ProjectionError) else (r.value, Done)
  }

  // ---------- runs ----------

  // The row is no longer what the caller read.
  predicate Stale(row: RunRow, expectedState: Option<RunState>, expectedVersion: Option<nat>) {
    || (expectedState.Some? && row.state != expectedState.value)
    || (expectedVersion.Some? && row.version != expectedVersion.value)
  }

  function Transition(db: Db, run: string, target: RunState, actor: string,
                      expectedState: Option<RunState>, expectedVersion: Option<nat>,
                      reason: Option<string>, lease: Option<Time>, at: Time): (Db, Reply)
  {
    if run !in db.tables.runs then (db, NotFound) else
    if Stale(db.tables.runs[run], expectedState, expectedVersion) then (db, Conflict)
    else Commit(db, Append(db, Draft(run, actor, at, RunStateChanged(target, reason, lease))))
  }

  function LiveApprovals(t: Tables, run: string): set<string> {
    set a | a in t.approvals && t.approvals[a].runId == run && t.approvals[a].status in {Pending, Approved}
  }

  function Revocations(ids: seq<string>, run: string, actor: string, at: Time): (r: seq<Draft>)
    ensures |r| == |ids|
  {
    seq(|ids|, i requires 0 <= i < |ids| => Draft(run, actor, at, ApprovalCancelled(ids[i])))
  }

  // No state or version check: the cancellation of RunRepository is unconditional.
  function CancelRun(db: Db, run: string, actor: string, reason: string, at: Time): (Db, Reply) {
    var first := Append(db, Draft(run, actor, at, RunCancelled(reason)));
    if first.None? then (db, ProjectionError) else
    var ids := TextOrder.Sorted(LiveApprovals(first.value.tables, run));
    Commit(db, AppendAll(first.value, Revocations(ids, run, actor, at)))
  }

  // ---------- approvals ----------

  datatype Request = Request(
    approvalId: string, runId: string, workItemId: Option<string>, requesterId: string,
    ownerId: string, action: ActionSpec, actionDigest: string, metadata: string,
    policyVersion: string, expiresAt: Time, nonce: string, actor: string)

  // `safe` is the verdict of the redactor on the action and the nonce.
  function RequestApproval(db: Db, r: Request, safe: bool, at: Time): (Db, Reply) {
    if !safe then (db, Unsafe) else
    var d := Draft(r.runId, r.actor, at,
                   ApprovalRequested(r.approvalId, r.workItemId, r.requesterId, r.ownerId,
                                     r.actionDigest, r.metadata, r.policyVersion, r.expiresAt, r.nonce));
    var appended := Append(db, d);
    if appended.None? then (db, ProjectionError) else
    var db1 := appended.value;
    var e := db1.journal[|db1.journal| - 1];
    var rows := db1.tables.approvals;
    // the private projector: UPDATE ... WHERE approval_id = ? AND last_sequence = ?
    if r.approvalId !in rows || rows[r.approvalId].lastSequence != e.sequence then (db, Conflict) else
    (db1.(tables := RetainAction(db1.tables, r.approvalId, r.action)), Done)
  }

  function RetainAction(t: Tables, id: string, action: ActionSpec): Tables
    requires id in t.approvals
  {
    t.(approvals := t.approvals[id := t.approvals[id].(action := Exact(action))])
  }

  predicate IsExpired(expiresAt: Time, now: Time) { expiresAt <= now }

  function Approve(db: Db, id: string, owner: string, at: Time): (Db, Reply) {
    if id !in db.tables.approvals then (db, NotFound) else
    var row := db.tables.approvals[id];
    if row.ownerId != owner then (db, NotOwner)
    else if row.status != Pending then (db, WrongStatus)
    else if row.action.Metadata? then (db, Unavailable)
    else
      var expired := IsExpired(row.expiresAt, at);
      var p := if expired then ApprovalExpired(id) else ApprovalApproved(id);
      var r := Append(db, Draft(row.runId, owner, at, p));
      if r.None? then (db, ProjectionError)
      else (r.value, if expired then ExpiredError else Done)
  }

  function Deny(db: Db, id: string, owner: string, at: Time): (Db, Reply) {
    if id !in db.tables.approvals then (db, NotFound) else
    var row := db.tables.approvals[id];
    if row.ownerId != owner then (db, NotOwner)
    else Commit(db, Append(db, Draft(row.runId, owner, at, ApprovalDenied(id))))
  }

  function CancelApproval(db: Db, id: string, actor: string, at: Time): (Db, Reply) {
    if id !in db.tables.approvals then (db, NotFound) else
    Commit(db, Append(db, Draft(db.tables.approvals[id].runId, actor, at, ApprovalCancelled(id))))
  }

  datatype ClaimArgs = ClaimArgs(
    approvalId: string, runId: string, requesterId: string, actionDigest: string,
    claimedBy: string, action: Option<ActionSpec>, at: Time)

  // The first reason, in the order of the source, for which a claim is refused.
  function ClaimRejection(row: ApprovalRow, c: ClaimArgs): Option<Reply> {
    if row.status != Approved then Some(WrongStatus)
    else if IsExpired(row.expiresAt, c.at) then Some(ExpiredError)
    else if row.runId != c.runId then Some(Mismatch)
    else if row.requesterId != c.requesterId then Some(Mismatch)
    else if row.actionDigest != c.actionDigest then Some(Mismatch)
    else if row.action.Metadata? then Some(Unavailable)
    else if c.action.Some? && row.action != Exact(c.action.value) then Some(Mismatch)
    else None
  }

  // A refused claim is itself journalled; an expired one expires the approval.
  function Claim(db: Db, c: ClaimArgs): (Db, Reply) {
    if c.approvalId !in db.tables.approvals then (db, NotFound) else
    var row := db.tables.approvals[c.approvalId];
    var rejection := ClaimRejection(row, c);
    if rejection.None? then
      Commit(db, Append(db, Draft(c.runId, c.claimedBy, c.at, ApprovalClaimed(c.approvalId, c.claimedBy))))
    else if rejection.value.ExpiredError? then
      var r := Append(db, Draft(row.runId, c.claimedBy, c.at, ApprovalExpired(c.approvalId)));
      if r.None? then (db, ProjectionError) else (r.value, ExpiredError)
    else if row.status == Expired then (db, rejection.value)
    else
      var r := Append(db, Draft(row.runId, c.claimedBy, c.at,
                                ApprovalClaimRejected(c.approvalId, c.actionDigest)));
      if r.None? then (db, ProjectionError) else (r.value, rejection.value)
  }

  function Consume(db: Db, id: string, claimedBy: string, at: Time): (Db, Reply) {
    if id !in db.tables.approvals then (db, NotFound) else
    Commit(db, Append(db, Draft(db.tables.approvals[id].runId, claimedBy, at,
                                ApprovalConsumed(id, claimedBy))))
  }

  function Due(t: Tables, at: Time): set<string> {
    set a | a in t.approvals && t.approvals[a].status in {Pending, Approved} &&
            IsExpired(t.approvals[a].expiresAt, at)
  }

  const EXPIRY_ACTOR := "system:expiry"

  function Expiries(t: Tables, ids: seq<string>, at: Time): (r: seq<Draft>)
    requires forall i :: 0 <= i < |ids| ==> ids[i] in t.approvals
    ensures |r| == |ids|
  {
    seq(|ids|, i requires 0 <= i < |ids| =>
      Draft(t.approvals[ids[i]].runId, EXPIRY_ACTOR, at, ApprovalExpired(ids[i])))
  }

  function DueIds(t: Tables, at: Time): (ids: seq<string>)
    ensures forall i :: 0 <= i < |ids| ==> ids[i] in t.approvals
  {
    var ids := TextOrder.Sorted(Due(t, at));
    assert forall i :: 0 <= i < |ids| ==> ids[i] in ids;
    ids
  }

  function ExpireDue(db: Db, at: Time): (Db, Reply) {
    Commit(db, AppendAll(db, Expiries(db.tables, DueIds(db.tables, at), at)))
  }

  // ---------- tool calls and work items ----------

  function ChangeCallState(db: Db, id: string, actor: string, state: CallText,
                           result: Option<ToolResult>, error: Option<string>, at: Time): (Db, Reply)
  {
    if id !in db.tables.calls then (db, NotFound) else
    Commit(db, Append(db, Draft(db.tables.calls[id].runId, actor, at,
                                ToolCallStateChanged(id, state, result, error))))
  }

  function ChangeWorkItem(db: Db, id: string, actor: string, state: string, lease: Option<Time>,
                          at: Time): (Db, Reply)
  {
    if id !in db.tables.workItems then (db, NotFound) else
    Commit(db, Append(db, Draft(db.tables.workItems[id].runId, actor, at,
                                WorkItemStateChanged(id, state, lease))))
  }

  // ---------- rebuilding ----------

  function Rebuild(db: Db): (Db, Reply) {
    var t := Fold(db.journal);
    if t.None? then (db, ProjectionError) else (db.(tables := t.value), Done)
  }

  // ---------- histories of operations ----------

  // Record covers the operations that are a bare append of one event whose payload
  // no state check guards: create, propose, record, initialize, update and notes.
  datatype Op =
    | Record(draft: Draft)
    | MoveRun(run: string, target: RunState, actor: string, expectedState: Option<RunState>,
              expectedVersion: Option<nat>, reason: Option<string>, lease: Option<Time>, at: Time)
    | StopRun(run: string, actor: string, why: string, at: Time)
    | Ask(request: Request, safe: bool, at: Time)
    | Grant(id: string, owner: string, at: Time)
    | Refuse(id: string, owner: string, at: Time)
    | Withdraw(id: string, actor: string, at: Time)
    | Take(claim: ClaimArgs)
    | Use(id: string, claimedBy: string, at: Time)
    | Expiry(at: Time)
    | CallStep(id: string, actor: string, state: CallText, result: Option<ToolResult>,
               error: Option<string>, at: Time)
    | WorkStep(id: string, actor: string, workState: string, lease: Option<Time>, at: Time)
    | RebuildTables

  // The payloads that repositories append without reading a row first.
  predicate Recordable(p: Payload) {
    p.RunCreated? || p.MessageRecorded? || p.WorkItemCreated? || p.ToolCallProposed? ||
    p.ArtifactRecorded? || p.BudgetInitialized? || p.BudgetUpdated? || p.RecoveryBlocked? || p.Other?
  }

  function Exec(db: Db, op: Op): (Db, Reply) {
    match op
    case Record(d) => if Recordable(d.payload) then Commit(db, Append(db, d)) else (db, Conflict)
    case MoveRun(run, target, actor, es, ev, reason, lease, at) =>
      Transition(db, run, target, actor, es, ev, reason, lease, at)
    case StopRun(run, actor, why, at) => CancelRun(db, run, actor, why, at)
    case Ask(r, safe, at) => RequestApproval(db, r, safe, at)
    case Grant(id, owner, at) => Approve(db, id, owner, at)
    case Refuse(id, owner, at) => Deny(db, id, owner, at)
    case Withdraw(id, actor, at) => CancelApproval(db, id, actor, at)
    case Take(c) => Claim(db, c)
    case Use(id, claimedBy, at) => Consume(db, id, claimedBy, at)
    case Expiry(at) => ExpireDue(db, at)
    case CallStep(id, actor, state, result, error, at) =>
      ChangeCallState(db, id, actor, state, result, error, at)
    case WorkStep(id, actor, state, lease, at) => ChangeWorkItem(db, id, actor, state, lease, at)
    case RebuildTables => Rebuild(db)
  }

  function ExecAll(db: Db, ops: seq<Op>): Db
    decreases ops
  {
    if ops == [] then db else ExecAll(Exec(db, ops[0]).0, ops[1..])
  }

  lemma {:induction false} ExecAllConcat(db: Db, p: seq<Op>, q: seq<Op>)
    ensures ExecAll(db, p + q) == ExecAll(ExecAll(db, p), q)
    decreases p
  {
    if p == [] {
      assert p + q == q;
    } else {
      assert (p + q)[1..] == p[1..] + q;
      ExecAllConcat(Exec(db, p[0]).0, p[1..], q);
    }
  }

  lemma {:induction false} AppendAllConcat(db: Db, p: seq<Draft>, q: seq<Draft>)
    ensures AppendAll(db, p + q) ==
            if AppendAll(db, p).None? then None else AppendAll(AppendAll(db, p).value, q)
    decreases p
  {
    if p == [] {
      assert p + q == q;
    } else {
      assert (p + q)[1..] == p[1..] + q && (p + q)[0] == p[0];
      var first := Append(db, p[0]);
      if first.Some? {
        AppendAllConcat(first.value, p[1..], q);
      }
    }
  }
}
