/** The event vocabulary, the rebuildable current-state tables, and the reducer
    that folds one event into them. */
module Projections {
  import opened Domain

  // ---------- events ----------

  datatype ToolResult = ToolResult(path: string, sha256: string, byteLength: nat, status: string)

  type Counters = map<string, nat>

  // Payloads as `apply` sees them: after minimization, redaction and decoding.
  // Other stands for every event type the reducer ignores.
  datatype Payload =
    | RunCreated(runOwner: string, initialState: RunState, objective: string, lease: Option<Time>)
    | RunStateChanged(newState: RunState, reason: Option<string>, lease: Option<Time>)
    | RunCancelled(cancelReason: string)
    | MessageRecorded(messageId: string, message: Message)
    | WorkItemCreated(workItemId: string, item: WorkItem, itemLease: Time)
    | WorkItemStateChanged(workItemId: string, itemState: string, renewedLease: Option<Time>)
    | ApprovalRequested(approvalId: string, workItem: Option<string>, requesterId: string,
                        ownerId: string, actionDigest: string, metadata: string,
                        policyVersion: string, expiresAt: Time, nonce: string)
    | ApprovalApproved(approvalId: string)
    | ApprovalDenied(approvalId: string)
    | ApprovalCancelled(approvalId: string)
    | ApprovalExpired(approvalId: string)
    | ApprovalClaimed(approvalId: string, claimedBy: string)
    | ApprovalClaimRejected(approvalId: string, presentedDigest: string)
    | ApprovalConsumed(approvalId: string, claimedBy: string)
    | ToolCallProposed(callId: string, callApproval: Option<string>, toolName: string,
                       actionDigest: string, state: CallText, attempt: int)
    | ToolCallStateChanged(callId: string, state: CallText, result: Option<ToolResult>,
                           error: Option<string>)
    | ArtifactRecorded(artifactId: string, artifact: Artifact)
    | BudgetInitialized(limits: BudgetLimits, usage: Counters)
    | BudgetUpdated(usage: Counters)
    | RecoveryBlocked(callId: string, blockReason: string)
    | Other(eventType: string)

  datatype Message = Message(
    schemaVersion: int, senderId: string, senderRole: string, recipient: string,
    correlationId: string, causationId: Option<string>, payloadType: string,
    payloadHash: string, body: string)

  datatype WorkItem = WorkItem(
    objective: string, acceptance: seq<string>, assignedRole: string,
    dependencies: seq<string>, initial: string)

  datatype Artifact = Artifact(
    toolCallId: Option<string>, kind: string, locator: string, digest: string,
    byteLength: nat, verification: string)

  datatype Event = Event(sequence: nat, runSequence: nat, runId: string, actorId: string,
                         createdAt: Time, payload: Payload)

  // ---------- tables ----------

  datatype RunRow = RunRow(
    ownerId: string, state: RunState, objective: string, version: nat,
    createdAt: Time, updatedAt: Time, cancelledAt: Option<Time>,
    leaseExpiresAt: Option<Time>, terminalReason: Option<string>, lastSequence: nat)

  // The columns action_json and action_available: the exact action is live state
  // only, and a row built from the journal alone holds the metadata.
  datatype ActionColumn = Metadata(text: string) | Exact(action: ActionSpec)

  datatype ApprovalRow = ApprovalRow(
    runId: string, workItemId: Option<string>, requesterId: string, ownerId: string,
    actionDigest: string, action: ActionColumn, policyVersion: string, expiresAt: Time,
    status: ApprovalStatus, nonce: string, claimedBy: Option<string>,
    claimedAt: Option<Time>, consumedAt: Option<Time>, decidedAt: Option<Time>,
    version: nat, lastSequence: nat)

  datatype CallRow = CallRow(
    runId: string, approvalId: Option<string>, toolName: string, actionDigest: string,
    state: CallText, attempt: int, startedAt: Option<Time>, finishedAt: Option<Time>,
    result: Option<ToolResult>, error: Option<string>, lastSequence: nat)

  datatype MessageRow = MessageRow(runId: string, message: Message, createdAt: Time, sequence: nat)

  datatype WorkItemRow = WorkItemRow(
    runId: string, item: WorkItem, state: string, leaseExpiresAt: Time,
    version: nat, lastSequence: nat)

  datatype ArtifactRow = ArtifactRow(
    runId: string, artifact: Artifact, createdAt: Time, lastSequence: nat)

  datatype BudgetRow = BudgetRow(limits: BudgetLimits, usage: Counters, version: nat, lastSequence: nat)

  datatype Tables = Tables(
    runs: map<string, RunRow>, workItems: map<string, WorkItemRow>,
    messages: map<string, MessageRow>, approvals: map<string, ApprovalRow>,
    calls: map<string, CallRow>, artifacts: map<string, ArtifactRow>,
    budgets: map<string, BudgetRow>)

  const EMPTY_TABLES := Tables(map[], map[], map[], map[], map[], map[], map[])

  // ---------- the reducer ----------

  // COALESCE(x, y)
  function Coalesce<T>(x: Option<T>, y: Option<T>): Option<T> {
    if x.Some? then x else y
  }

  // The reducer tests the raw text against upper-case names only, so a state that
  // recovery writes in lower case never sets started_at or finished_at.
  predicate StampsStart(s: CallText) { s.upper && s.state.Running? }

  predicate StampsFinish(s: CallText) {
    s.upper && s.state in {Succeeded, CallFailed, TimedOut, Uncertain, CallDenied}
  }

  function DecideTarget(p: Payload): ApprovalStatus
    requires p.ApprovalApproved? || p.ApprovalDenied? || p.ApprovalCancelled? || p.ApprovalExpired?
  {
    match p
    case ApprovalApproved(_) => Approved
    case ApprovalDenied(_) => Denied
    case ApprovalCancelled(_) => Revoked
    case ApprovalExpired(_) => Expired
  }

  function DecideSources(target: ApprovalStatus): set<ApprovalStatus> {
    if target in {Revoked, Expired} then {Pending, Approved} else {Pending}
  }

  predicate NonceTaken(rows: map<string, ApprovalRow>, nonce: string) {
    exists a :: a in rows && rows[a].nonce == nonce
  }

  function ApplyRun(runs: map<string, RunRow>, e: Event): Option<map<string, RunRow>>
    requires e.payload.RunCreated? || e.payload.RunStateChanged? || e.payload.RunCancelled?
  {
    match e.payload
    case RunCreated(owner, state, objective, lease) =>
      if e.runId in runs then None else
      Some(runs[e.runId := RunRow(owner, state, objective, 1, e.createdAt, e.createdAt, None,
                                  lease, None, e.sequence)])
    case RunStateChanged(state, reason, lease) =>
      if e.runId !in runs then None else
      var row := runs[e.runId];
      Some(runs[e.runId := row.(state := state, version := row.version + 1,
                                updatedAt := e.createdAt, terminalReason := reason,
                                leaseExpiresAt := lease, lastSequence := e.sequence)])
    case RunCancelled(reason) =>
      if e.runId !in runs then None else
      var row := runs[e.runId];
      Some(runs[e.runId := row.(state := Cancelled, version := row.version + 1,
                                updatedAt := e.createdAt, cancelledAt := Some(e.createdAt),
                                terminalReason := Some(reason), leaseExpiresAt := None,
                                lastSequence := e.sequence)])
  }

  predicate IsApprovalEvent(p: Payload) {
    p.ApprovalRequested? || p.ApprovalApproved? || p.ApprovalDenied? || p.ApprovalCancelled? ||
    p.ApprovalExpired? || p.ApprovalClaimed? || p.ApprovalConsumed?
  }

  // The UPDATE statements of the approval events, with their status guards.
  function UpdateApproval(row: ApprovalRow, e: Event): Option<ApprovalRow>
    requires IsApprovalEvent(e.payload) && !e.payload.ApprovalRequested?
  {
    var p := e.payload;
    if p.ApprovalClaimed? then
      if row.status != Approved then None else
      Some(row.(status := Claimed, claimedBy := Some(p.claimedBy), claimedAt := Some(e.createdAt),
                version := row.version + 1, lastSequence := e.sequence))
    else if p.ApprovalConsumed? then
      if row.status != Claimed || row.claimedBy != Some(p.claimedBy) then None else
      Some(row.(status := Consumed, consumedAt := Some(e.createdAt), version := row.version + 1,
                lastSequence := e.sequence))
    else
      var target := DecideTarget(p);
      if row.status !in DecideSources(target) then None else
      Some(row.(status := target, decidedAt := Some(e.createdAt), version := row.version + 1,
                lastSequence := e.sequence))
  }

  function RequestedRow(e: Event): ApprovalRow
    requires e.payload.ApprovalRequested?
  {
    var p := e.payload;
    ApprovalRow(e.runId, p.workItem, p.requesterId, p.ownerId, p.actionDigest, Metadata(p.metadata),
                p.policyVersion, p.expiresAt, Pending, p.nonce, None, None, None, None, 1, e.sequence)
  }

  function ApplyApproval(rows: map<string, ApprovalRow>, e: Event): Option<map<string, ApprovalRow>>
    requires IsApprovalEvent(e.payload)
  {
    var id := e.payload.approvalId;
    if e.payload.ApprovalRequested? then
      if id in rows || NonceTaken(rows, e.payload.nonce) then None
      else Some(rows[id := RequestedRow(e)])
    else if id !in rows || UpdateApproval(rows[id], e).None? then None
    else Some(rows[id := UpdateApproval(rows[id], e).value])
  }

  function ApplyCall(rows: map<string, CallRow>, e: Event): Option<map<string, CallRow>>
    requires e.payload.ToolCallProposed? || e.payload.ToolCallStateChanged?
  {
    match e.payload
    case ToolCallProposed(id, approval, tool, digest, state, attempt) =>
      if id in rows then None else
      Some(rows[id := CallRow(e.runId, approval, tool, digest, state, attempt, None, None, None,
                              None, e.sequence)])
    case ToolCallStateChanged(id, state, result, error) =>
      if id !in rows then None else
      var row := rows[id];
      var started := if StampsStart(state) then Some(e.createdAt) else None;
      var finished := if StampsFinish(state) then Some(e.createdAt) else None;
      Some(rows[id := row.(state := state, startedAt := Coalesce(row.startedAt, started),
                           finishedAt := Coalesce(finished, row.finishedAt), result := result,
                           error := error, lastSequence := e.sequence)])
  }

  function ApplyMessage(rows: map<string, MessageRow>, e: Event): Option<map<string, MessageRow>>
    requires e.payload.MessageRecorded?
  {
    var id := e.payload.messageId;
    if id in rows then None
    else Some(rows[id := MessageRow(e.runId, e.payload.message, e.createdAt, e.sequence)])
  }

  function ApplyWorkItem(rows: map<string, WorkItemRow>, e: Event): Option<map<string, WorkItemRow>>
    requires e.payload.WorkItemCreated? || e.payload.WorkItemStateChanged?
  {
    var id := e.payload.workItemId;
    match e.payload
    case WorkItemCreated(_, item, lease) =>
      if id in rows then None
      else Some(rows[id := WorkItemRow(e.runId, item, item.initial, lease, 1, e.sequence)])
    case WorkItemStateChanged(_, state, lease) =>
      if id !in rows then None else
      var row := rows[id];
      Some(rows[id := row.(state := state,
                           leaseExpiresAt := if lease.Some? then lease.value else row.leaseExpiresAt,
                           version := row.version + 1, lastSequence := e.sequence)])
  }

  function ApplyArtifact(rows: map<string, ArtifactRow>, e: Event): Option<map<string, ArtifactRow>>
    requires e.payload.ArtifactRecorded?
  {
    var id := e.payload.artifactId;
    if id in rows then None
    else Some(rows[id := ArtifactRow(e.runId, e.payload.artifact, e.createdAt, e.sequence)])
  }

  function ApplyBudget(rows: map<string, BudgetRow>, e: Event): Option<map<string, BudgetRow>>
    requires e.payload.BudgetInitialized? || e.payload.BudgetUpdated?
  {
    match e.payload
    case BudgetInitialized(limits, usage) =>
      if e.runId in rows then None
      else Some(rows[e.runId := BudgetRow(limits, usage, 1, e.sequence)])
    case BudgetUpdated(usage) =>
      if e.runId !in rows then None else
      var row := rows[e.runId];
      Some(rows[e.runId := row.(usage := usage, version := row.version + 1,
                                lastSequence := e.sequence)])
  }

  datatype Table = RunsTable | ApprovalsTable | CallsTable | MessagesTable | WorkItemsTable
                 | ArtifactsTable | BudgetsTable | NoTable

  // Which table an event type updates.
  function TableOf(p: Payload): Table {
    if p.RunCreated? || p.RunStateChanged? || p.RunCancelled? then RunsTable
    else if IsApprovalEvent(p) then ApprovalsTable
    else if p.ToolCallProposed? || p.ToolCallStateChanged? then CallsTable
    else if p.MessageRecorded? then MessagesTable
    else if p.WorkItemCreated? || p.WorkItemStateChanged? then WorkItemsTable
    else if p.ArtifactRecorded? then ArtifactsTable
    else if p.BudgetInitialized? || p.BudgetUpdated? then BudgetsTable
    else NoTable
  }

  /** One event folded into the tables; None where the source raises, which rolls
      the surrounding transaction back. */
  function Apply(t: Tables, e: Event): (r: Option<Tables>)
    ensures r.Some? && !TableOf(e.payload).RunsTable? ==> r.value.runs == t.runs
    ensures r.Some? && !TableOf(e.payload).ApprovalsTable? ==> r.value.approvals == t.approvals
    ensures r.Some? && !TableOf(e.payload).CallsTable? ==> r.value.calls == t.calls
    ensures r.Some? && !TableOf(e.payload).ArtifactsTable? ==> r.value.artifacts == t.artifacts
  {
    match TableOf(e.payload)
    case RunsTable =>
      var r := ApplyRun(t.runs, e);
      if r.None? then None else Some(t.(runs := r.value))
    case ApprovalsTable =>
      var r := ApplyApproval(t.approvals, e);
      if r.None? then None else Some(t.(approvals := r.value))
    case CallsTable =>
      var r := ApplyCall(t.calls, e);
      if r.None? then None else Some(t.(calls := r.value))
    case MessagesTable =>
      var r := ApplyMessage(t.messages, e);
      if r.None? then None else Some(t.(messages := r.value))
    case WorkItemsTable =>
      var r := ApplyWorkItem(t.workItems, e);
      if r.None? then None else Some(t.(workItems := r.value))
    case ArtifactsTable =>
      var r := ApplyArtifact(t.artifacts, e);
      if r.None? then None else Some(t.(artifacts := r.value))
    case BudgetsTable =>
      var r := ApplyBudget(t.budgets, e);
      if r.None? then None else Some(t.(budgets := r.value))
    case NoTable => Some(t)
  }

  /** The tables a whole journal folds to, from empty tables. */
  function Fold(journal: seq<Event>): Option<Tables> {
    if journal == [] then Some(EMPTY_TABLES) else
    var before := Fold(journal[..|journal| - 1]);
    if before.None? then None else Apply(before.value, journal[|journal| - 1])
  }

  lemma FoldSnoc(journal: seq<Event>, e: Event)
    ensures Fold(journal + [e]) ==
            if Fold(journal).None? then None else Apply(Fold(journal).value, e)
  {
    assert (journal + [e])[..|journal|] == journal;
  }

  // ---------- tables compared without the private action columns ----------

  function StripRow(row: ApprovalRow): ApprovalRow { row.(action := Metadata("")) }

  predicate SameApprovals(t: map<string, ApprovalRow>, u: map<string, ApprovalRow>) {
    t.Keys == u.Keys && forall a :: a in t ==> StripRow(t[a]) == StripRow(u[a])
  }

  // Equal in all seven tables except for the action columns of approvals.
  predicate SameExceptActions(t: Tables, u: Tables) {
    && t.runs == u.runs && t.workItems == u.workItems && t.messages == u.messages
    && t.calls == u.calls && t.artifacts == u.artifacts && t.budgets == u.budgets
    && SameApprovals(t.approvals, u.approvals)
  }

  lemma UpdateIgnoresAction(r: ApprovalRow, q: ApprovalRow, e: Event)
    requires IsApprovalEvent(e.payload) && !e.payload.ApprovalRequested?
    requires StripRow(r) == StripRow(q)
    ensures UpdateApproval(r, e).Some? <==> UpdateApproval(q, e).Some?
    ensures UpdateApproval(r, e).Some? ==>
              StripRow(UpdateApproval(r, e).value) == StripRow(UpdateApproval(q, e).value)
  {
    assert r == q.(action := r.action) by {
      assert StripRow(r).(action := r.action) == StripRow(q).(action := r.action);
    }
  }

  lemma ApplyApprovalIgnoresActions(t: map<string, ApprovalRow>, u: map<string, ApprovalRow>, e: Event)
    requires IsApprovalEvent(e.payload)
    requires SameApprovals(t, u)
    ensures ApplyApproval(t, e).Some? <==> ApplyApproval(u, e).Some?
    ensures ApplyApproval(t, e).Some? ==>
              SameApprovals(ApplyApproval(t, e).value, ApplyApproval(u, e).value)
  {
    var id := e.payload.approvalId;
    if e.payload.ApprovalRequested? {
      assert forall a :: a in t ==> t[a].nonce == StripRow(t[a]).nonce;
      assert forall a :: a in u ==> u[a].nonce == StripRow(u[a]).nonce;
    } else if id in t {
      UpdateIgnoresAction(t[id], u[id], e);
    }
  }

  // An event of another table commutes with replacing the approvals table.
  lemma ApplyFrame(t: Tables, rows: map<string, ApprovalRow>, e: Event)
    requires !TableOf(e.payload).ApprovalsTable?
    ensures Apply(t.(approvals := rows), e) ==
            if Apply(t, e).None? then None else Some(Apply(t, e).value.(approvals := rows))
  {
  }

  /** The reducer never reads the private columns: tables that agree elsewhere stay
      in agreement, and one raises exactly when the other does. */
  lemma ApplyIgnoresActions(t: Tables, u: Tables, e: Event)
    requires SameExceptActions(t, u)
    ensures Apply(t, e).Some? <==> Apply(u, e).Some?
    ensures Apply(t, e).Some? ==> SameExceptActions(Apply(t, e).value, Apply(u, e).value)
  {
    if TableOf(e.payload).ApprovalsTable? {
      ApplyApprovalIgnoresActions(t.approvals, u.approvals, e);
    } else {
      assert u == t.(approvals := u.approvals);
      ApplyFrame(t, u.approvals, e);
    }
  }
}
