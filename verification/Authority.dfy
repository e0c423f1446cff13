/** What the repository operations mean to a caller: exactly when each succeeds, the one
    row it then changes, the one event it then leaves, and what a refusal leaves. */
module Authority {
  import opened Domain
  import opened Projections
  import opened Repositories

  // Exactly one event was added to the journal.
  predicate Journalled(db: Db, db': Db, run: string, actor: string, at: Time, p: Payload) {
    && |db'.journal| == |db.journal| + 1 && db.journal <= db'.journal
    && var e := db'.journal[|db.journal|];
       e.runId == run && e.actorId == actor && e.createdAt == at && e.payload == p
  }

  // Of all tables only the approval's row differs, in its decision alone: what it binds is
  // as it was.
  predicate OnlyDecides(db: Db, db': Db, id: string, status: ApprovalStatus)
    requires id in db.tables.approvals
  {
    && id in db'.tables.approvals
    && db'.tables == db.tables.(approvals := db.tables.approvals[id := db'.tables.approvals[id]])
    && var row, row' := db.tables.approvals[id], db'.tables.approvals[id];
       && row'.status == status && row'.version == row.version + 1
       && row'.action == row.action && row'.runId == row.runId && row'.requesterId == row.requesterId
       && row'.ownerId == row.ownerId && row'.actionDigest == row.actionDigest && row'.nonce == row.nonce
       && row'.policyVersion == row.policyVersion && row'.expiresAt == row.expiresAt && row'.workItemId == row.workItemId
  }

  // ---------- runs ----------

  /** A transition succeeds exactly when the run is still in the state and at the version
      the caller expects; it then moves that run alone.  Any refusal changes nothing, and
      it is a conflict exactly when the run is no longer what was read. */
  lemma TransitionMeans(db: Db, run: string, target: RunState, actor: string, expectedState: Option<RunState>,
                        expectedVersion: Option<nat>, reason: Option<string>, lease: Option<Time>, at: Time)
    ensures var (db', reply) := Transition(db, run, target, actor, expectedState, expectedVersion, reason, lease, at);
            && (reply == NotFound <==> run !in db.tables.runs)
            && (reply == Conflict <==>
                  run in db.tables.runs &&
                  ((expectedState.Some? && expectedState.value != db.tables.runs[run].state) ||
                   (expectedVersion.Some? && expectedVersion.value != db.tables.runs[run].version)))
            && (reply == Done <==> reply !in {NotFound, Conflict} && run != "" && actor != "")
            && (reply != Done ==> db' == db)
            && (reply == Done ==>
                  && Journalled(db, db', run, actor, at, RunStateChanged(target, reason, lease))
                  && run in db'.tables.runs
                  && db'.tables == db.tables.(runs := db.tables.runs[run := db'.tables.runs[run]])
                  && db'.tables.runs[run].state == target && db'.tables.runs[run].leaseExpiresAt == lease
                  && db'.tables.runs[run].version == db.tables.runs[run].version + 1
                  && db'.tables.runs[run].terminalReason == reason && db'.tables.runs[run].updatedAt == at
                  && db'.tables.runs[run].ownerId == db.tables.runs[run].ownerId
                  && db'.tables.runs[run].objective == db.tables.runs[run].objective
                  && db'.tables.runs[run].createdAt == db.tables.runs[run].createdAt
                  && db'.tables.runs[run].cancelledAt == db.tables.runs[run].cancelledAt)
  {
    if run in db.tables.runs && run != "" && actor != "" {
      var d := Draft(run, actor, at, RunStateChanged(target, reason, lease));
      assert Append(db, d).Some?;
    }
  }

  // ---------- approvals ----------

  /** A request succeeds exactly for an action the redactor passes, under an id and a nonce
      never used before; the approval is then pending, bound to everything requested, and
      its exact action is kept in the row while the event carries the metadata alone. */
  lemma RequestMeans(db: Db, r: Request, safe: bool, at: Time)
    ensures var (db', reply) := RequestApproval(db, r, safe, at);
            && (reply == Done <==>
                  safe && r.runId != "" && r.actor != "" && r.approvalId !in db.tables.approvals &&
                  forall a :: a in db.tables.approvals ==> db.tables.approvals[a].nonce != r.nonce)
            && (reply != Done ==> db' == db) && (reply == Unsafe <==> !safe)
            && (reply == Done ==>
                  && r.approvalId in db'.tables.approvals
                  && db'.tables ==
                     db.tables.(approvals := db.tables.approvals[r.approvalId := db'.tables.approvals[r.approvalId]])
                  && var row := db'.tables.approvals[r.approvalId];
                     && row.status == Pending && row.action == Exact(r.action) && row.actionDigest == r.actionDigest
                     && row.runId == r.runId && row.requesterId == r.requesterId && row.ownerId == r.ownerId
                     && row.expiresAt == r.expiresAt && row.nonce == r.nonce && row.claimedBy == None
                     && Journalled(db, db', r.runId, r.actor, at,
                                   ApprovalRequested(r.approvalId, r.workItemId, r.requesterId, r.ownerId, r.actionDigest,
                                                     r.metadata, r.policyVersion, r.expiresAt, r.nonce)))
  {
    var d := Draft(r.runId, r.actor, at,
                   ApprovalRequested(r.approvalId, r.workItemId, r.requesterId, r.ownerId, r.actionDigest, r.metadata,
                                     r.policyVersion, r.expiresAt, r.nonce));
    if Append(db, d).Some? {
      assert ApplyApproval(db.tables.approvals, NextEvent(db.journal, d)).Some?;
    }
  }

  // Still pending, and its exact action at hand.
  predicate Decidable(row: ApprovalRow) { row.status == Pending && row.action.Exact? }

  lemma ApproveDecides(db: Db, id: string, owner: string, at: Time)
    requires id in db.tables.approvals && Decidable(db.tables.approvals[id]) && db.tables.approvals[id].ownerId == owner
    ensures var (db', reply) := Approve(db, id, owner, at);
            var row := db.tables.approvals[id];
            && (reply == Done <==> row.runId != "" && owner != "" && at < row.expiresAt)
            && (reply == ExpiredError <==> row.runId != "" && owner != "" && row.expiresAt <= at)
            && (reply !in {Done, ExpiredError} ==> db' == db && reply != NotFound)
            && (reply == Done ==>
                  OnlyDecides(db, db', id, Approved) && Journalled(db, db', row.runId, owner, at, ApprovalApproved(id)) &&
                  db'.tables.approvals[id].decidedAt == Some(at))
            && (reply == ExpiredError ==>
                  OnlyDecides(db, db', id, Expired) && Journalled(db, db', row.runId, owner, at, ApprovalExpired(id)))
  {
    hide ApplyRun, ApplyCall, ApplyMessage, ApplyWorkItem, ApplyArtifact, ApplyBudget;
    var row := db.tables.approvals[id];
    var p := if IsExpired(row.expiresAt, at) then ApprovalExpired(id) else ApprovalApproved(id);
    if row.runId != "" && owner != "" {
      assert ApplyApproval(db.tables.approvals, NextEvent(db.journal, Draft(row.runId, owner, at, p))).Some?;
    }
  }

  /** Approving succeeds exactly for the owner of a pending, available approval strictly
      before its expiry.  An overdue one expires instead, which is journalled too; every
      other refusal changes nothing. */
  lemma ApproveMeans(db: Db, id: string, owner: string, at: Time)
    ensures var (db', reply) := Approve(db, id, owner, at);
            && (reply == NotFound <==> id !in db.tables.approvals)
            && (reply !in {Done, ExpiredError} ==> db' == db)
            && (id in db.tables.approvals ==>
                  var row := db.tables.approvals[id];
                  && (reply == NotOwner <==> row.ownerId != owner)
                  && (reply == WrongStatus <==> row.ownerId == owner && row.status != Pending)
                  && (reply == Unavailable <==> row.ownerId == owner && row.status == Pending && !row.action.Exact?)
                  && reply in {NotOwner, WrongStatus, Unavailable, Done, ExpiredError, ProjectionError}
                  && var may := Decidable(row) && row.ownerId == owner && row.runId != "" && owner != "";
                  && (reply == Done <==> may && at < row.expiresAt)
                  && (reply == ExpiredError <==> may && row.expiresAt <= at)
                  && (reply == Done ==>
                        OnlyDecides(db, db', id, Approved) && db'.tables.approvals[id].decidedAt == Some(at) &&
                        Journalled(db, db', row.runId, owner, at, ApprovalApproved(id)))
                  && (reply == ExpiredError ==>
                        OnlyDecides(db, db', id, Expired) &&
                        Journalled(db, db', row.runId, owner, at, ApprovalExpired(id))))
  {
    hide OnlyDecides, Journalled, Append;
    if id in db.tables.approvals && Decidable(db.tables.approvals[id]) && db.tables.approvals[id].ownerId == owner {
      ApproveDecides(db, id, owner, at) by { hide Approve; }
    }
  }

  /** Denying succeeds exactly for the owner of a pending approval, also of an overdue one:
      it is then denied for good.  Any refusal changes nothing. */
  lemma DenyMeans(db: Db, id: string, owner: string, at: Time)
    ensures var (db', reply) := Deny(db, id, owner, at);
            && (reply == NotFound <==> id !in db.tables.approvals)
            && (reply == NotOwner <==> id in db.tables.approvals && db.tables.approvals[id].ownerId != owner)
            && (reply == Done <==>
                  id in db.tables.approvals && db.tables.approvals[id].ownerId == owner &&
                  db.tables.approvals[id].status == Pending && db.tables.approvals[id].runId != "" && owner != "")
            && (reply != Done ==> db' == db)
            && (reply == Done ==>
                  && OnlyDecides(db, db', id, Denied) && db'.tables.approvals[id].decidedAt == Some(at)
                  && Journalled(db, db', db.tables.approvals[id].runId, owner, at, ApprovalDenied(id)))
  {
    hide ApplyRun, ApplyCall, ApplyMessage, ApplyWorkItem, ApplyArtifact, ApplyBudget;
    if id in db.tables.approvals && db.tables.approvals[id].ownerId == owner {
      var d := Draft(db.tables.approvals[id].runId, owner, at, ApprovalDenied(id));
      if Append(db, d).Some? { assert ApplyApproval(db.tables.approvals, NextEvent(db.journal, d)).Some?; }
    }
  }

  /** Cancelling an approval asks for no owner: it succeeds exactly while the approval is
      pending or approved, and revokes it.  Any refusal changes nothing. */
  lemma WithdrawMeans(db: Db, id: string, actor: string, at: Time)
    ensures var (db', reply) := CancelApproval(db, id, actor, at);
            && (reply == NotFound <==> id !in db.tables.approvals)
            && (reply == Done <==>
                  id in db.tables.approvals && db.tables.approvals[id].status in {Pending, Approved} &&
                  db.tables.approvals[id].runId != "" && actor != "")
            && (reply != Done ==> db' == db)
            && (reply == Done ==>
                  && OnlyDecides(db, db', id, Revoked) && db'.tables.approvals[id].decidedAt == Some(at)
                  && Journalled(db, db', db.tables.approvals[id].runId, actor, at, ApprovalCancelled(id)))
  {
    hide ApplyRun, ApplyCall, ApplyMessage, ApplyWorkItem, ApplyArtifact, ApplyBudget;
    if id in db.tables.approvals {
      var d := Draft(db.tables.approvals[id].runId, actor, at, ApprovalCancelled(id));
      if Append(db, d).Some? { assert ApplyApproval(db.tables.approvals, NextEvent(db.journal, d)).Some?; }
    }
  }

  // What a claim presents is what the approval binds.
  predicate Presents(row: ApprovalRow, c: ClaimArgs) {
    && row.runId == c.runId && row.requesterId == c.requesterId && row.actionDigest == c.actionDigest
    && row.action.Exact? && (c.action.Some? ==> row.action == Exact(c.action.value))
  }

  // Whether a claim that the tests let through commits.
  lemma ClaimGranted(db: Db, c: ClaimArgs)
    requires c.approvalId in db.tables.approvals && ClaimRejection(db.tables.approvals[c.approvalId], c).None?
    ensures var (db', reply) := Claim(db, c);
            && (reply == Done <==> c.runId != "" && c.claimedBy != "")
            && (reply != Done ==> db' == db && reply == ProjectionError)
            && (reply == Done ==>
                  && OnlyDecides(db, db', c.approvalId, Claimed)
                  && db'.tables.approvals[c.approvalId].claimedBy == Some(c.claimedBy)
                  && db'.tables.approvals[c.approvalId].claimedAt == Some(c.at)
                  && Journalled(db, db', c.runId, c.claimedBy, c.at, ApprovalClaimed(c.approvalId, c.claimedBy)))
  {
    var d := Draft(c.runId, c.claimedBy, c.at, ApprovalClaimed(c.approvalId, c.claimedBy));
    if c.runId != "" && c.claimedBy != "" {
      assert ApplyApproval(db.tables.approvals, NextEvent(db.journal, d)).Some?;
    }
  }

  // An approved approval, claimed too late by somebody with a name.
  predicate Overdue(row: ApprovalRow, c: ClaimArgs) {
    row.status == Approved && row.expiresAt <= c.at && row.runId != "" && c.claimedBy != ""
  }

  // What a refusal of a claim says of the approval.
  predicate RefusedBecause(row: ApprovalRow, c: ClaimArgs, reply: Reply) {
    && reply in {WrongStatus, ExpiredError, Mismatch, Unavailable, ProjectionError}
    && (reply == WrongStatus ==> row.status != Approved)
    && (reply in {ExpiredError, Mismatch, Unavailable} ==> row.status == Approved)
    && (reply == ExpiredError <==> Overdue(row, c))
    && (reply == Mismatch ==>
          row.runId != c.runId || row.requesterId != c.requesterId || row.actionDigest != c.actionDigest ||
          (row.action.Exact? && c.action.Some? && row.action != Exact(c.action.value)))
    && (reply == Unavailable ==>
          row.action.Metadata? && row.runId == c.runId && row.requesterId == c.requesterId &&
          row.actionDigest == c.actionDigest)
  }

  // A refused claim leaves one event, or nothing on an approval that expired before.
  predicate Noted(db: Db, db': Db, row: ApprovalRow, c: ClaimArgs) {
    if row.status == Expired || row.runId == "" || c.claimedBy == "" then db' == db
    else Journalled(db, db', row.runId, c.claimedBy, c.at, ApprovalClaimRejected(c.approvalId, c.actionDigest))
  }

  // A refusal leaves one event at most, and expires an overdue approval.
  lemma ClaimRefused(db: Db, c: ClaimArgs)
    requires c.approvalId in db.tables.approvals && ClaimRejection(db.tables.approvals[c.approvalId], c).Some?
    ensures var (db', reply) := Claim(db, c);
            var row := db.tables.approvals[c.approvalId];
            && reply != Done && reply != NotFound && RefusedBecause(row, c, reply)
            && (reply == ExpiredError <==> Overdue(row, c))
            && (reply == ExpiredError ==> OnlyDecides(db, db', c.approvalId, Expired))
            && (reply != ExpiredError ==> db'.tables == db.tables && Noted(db, db', row, c))
  {
    hide ApplyRun, ApplyCall, ApplyMessage, ApplyWorkItem, ApplyArtifact, ApplyBudget, Presents;
  }

  lemma RejectionMeans(row: ApprovalRow, c: ClaimArgs)
    ensures ClaimRejection(row, c).None? <==> row.status == Approved && c.at < row.expiresAt && Presents(row, c)
  {
  }

  /** A claim succeeds exactly on an approved approval strictly before its expiry, presented
      with its own run, requester, digest and action; the claimant is then recorded.  A
      refused claim grants nothing: it changes no row but that of an approved, overdue
      approval, which expires, and the refusal is journalled. */
  lemma ClaimMeans(db: Db, c: ClaimArgs)
    ensures var (db', reply) := Claim(db, c);
            && (reply == NotFound <==> c.approvalId !in db.tables.approvals)
            && (c.approvalId in db.tables.approvals ==>
                  var row := db.tables.approvals[c.approvalId];
                  && (reply == Done <==>
                        row.status == Approved && c.at < row.expiresAt && Presents(row, c) &&
                        c.runId != "" && c.claimedBy != "")
                  && (reply == Done ==>
                        && OnlyDecides(db, db', c.approvalId, Claimed)
                        && db'.tables.approvals[c.approvalId].claimedBy == Some(c.claimedBy)
                        && db'.tables.approvals[c.approvalId].claimedAt == Some(c.at)
                        && Journalled(db, db', c.runId, c.claimedBy, c.at, ApprovalClaimed(c.approvalId, c.claimedBy)))
                  && (reply == ExpiredError <==> Overdue(row, c))
                  && (reply == ExpiredError ==> OnlyDecides(db, db', c.approvalId, Expired))
                  && (reply !in {Done, ExpiredError} ==> db'.tables == db.tables && Noted(db, db', row, c))
                  && (reply != Done ==> RefusedBecause(row, c, reply)))
  {
    hide OnlyDecides, Journalled, ClaimRejection, Append;
    if c.approvalId in db.tables.approvals {
      RejectionMeans(db.tables.approvals[c.approvalId], c);
      if ClaimRejection(db.tables.approvals[c.approvalId], c).None? {
        ClaimGranted(db, c) by { hide Claim; }
      } else {
        ClaimRefused(db, c) by { hide Claim; }
      }
    }
  }

  /** Consuming succeeds exactly on an approval claimed by the caller; it is then consumed,
      its claimant and everything it binds unchanged.  Any refusal changes nothing. */
  lemma ConsumeMeans(db: Db, id: string, claimedBy: string, at: Time)
    ensures var (db', reply) := Consume(db, id, claimedBy, at);
            && (reply == Done <==>
                  id in db.tables.approvals && db.tables.approvals[id].status == Claimed &&
                  db.tables.approvals[id].claimedBy == Some(claimedBy) && claimedBy != "" &&
                  db.tables.approvals[id].runId != "")
            && (reply != Done ==> db' == db)
            && (reply == Done ==>
                  && OnlyDecides(db, db', id, Consumed) && db'.tables.approvals[id].claimedBy == Some(claimedBy)
                  && db'.tables.approvals[id].consumedAt == Some(at)
                  && Journalled(db, db', db.tables.approvals[id].runId, claimedBy, at, ApprovalConsumed(id, claimedBy)))
  {
    if id in db.tables.approvals && db.tables.approvals[id].status == Claimed {
      var d := Draft(db.tables.approvals[id].runId, claimedBy, at, ApprovalConsumed(id, claimedBy));
      if Append(db, d).Some? { assert ApplyApproval(db.tables.approvals, NextEvent(db.journal, d)).Some?; }
    }
  }

  // ---------- tool calls ----------

  // Written by the broker, a terminal state stamps the end; a state in lower case, as
  // recovery writes them, stamps neither the start nor the end.
  predicate Stamps(row: CallRow, row': CallRow, state: CallText, at: Time) {
    && (!state.upper ==> row'.startedAt == row.startedAt && row'.finishedAt == row.finishedAt)
    && (state.upper && state.state in {Succeeded, CallFailed, TimedOut, Uncertain, CallDenied} ==>
          row'.finishedAt == Some(at) && row'.startedAt == row.startedAt)
    && (state.upper && state.state == Running ==>
          row'.finishedAt == row.finishedAt && row'.startedAt == (if row.startedAt.Some? then row.startedAt else Some(at)))
  }

  /** A change of a call succeeds for every known call, whatever its state: the call takes
      the new state, result and error, keeps its identity, and is stamped by the text of
      the state.  Any refusal changes nothing. */
  lemma ChangeCallMeans(db: Db, id: string, actor: string, state: CallText, result: Option<ToolResult>,
                        error: Option<string>, at: Time)
    ensures var (db', reply) := ChangeCallState(db, id, actor, state, result, error, at);
            && (reply == NotFound <==> id !in db.tables.calls)
            && (reply == Done <==> id in db.tables.calls && db.tables.calls[id].runId != "" && actor != "")
            && (reply != Done ==> db' == db)
            && (reply == Done ==>
                  && id in db'.tables.calls && db'.tables == db.tables.(calls := db.tables.calls[id := db'.tables.calls[id]])
                  && var row, row' := db.tables.calls[id], db'.tables.calls[id];
                     && row'.state == state && row'.result == result && row'.error == error && Stamps(row, row', state, at)
                     && row'.runId == row.runId && row'.approvalId == row.approvalId && row'.toolName == row.toolName
                     && row'.actionDigest == row.actionDigest && row'.attempt == row.attempt
                     && Journalled(db, db', row.runId, actor, at, ToolCallStateChanged(id, state, result, error)))
  {
    if id in db.tables.calls && db.tables.calls[id].runId != "" && actor != "" {
      var d := Draft(db.tables.calls[id].runId, actor, at, ToolCallStateChanged(id, state, result, error));
      assert Append(db, d).Some?;
    }
  }

  /** A change of a work item succeeds for every known one: it takes the new state, and the
      new lease if one is given.  Any refusal changes nothing. */
  lemma ChangeWorkMeans(db: Db, id: string, actor: string, state: string, lease: Option<Time>, at: Time)
    ensures var (db', reply) := ChangeWorkItem(db, id, actor, state, lease, at);
            && (reply == NotFound <==> id !in db.tables.workItems)
            && (reply == Done <==> id in db.tables.workItems && db.tables.workItems[id].runId != "" && actor != "")
            && (reply != Done ==> db' == db)
            && (reply == Done ==>
                  && id in db'.tables.workItems
                  && db'.tables == db.tables.(workItems := db.tables.workItems[id := db'.tables.workItems[id]])
                  && var row, row' := db.tables.workItems[id], db'.tables.workItems[id];
                     && row'.state == state && row'.runId == row.runId && row'.item == row.item
                     && row'.version == row.version + 1
                     && row'.leaseExpiresAt == (if lease.Some? then lease.value else row.leaseExpiresAt)
                     && Journalled(db, db', row.runId, actor, at, WorkItemStateChanged(id, state, lease)))
  {
    if id in db.tables.workItems && db.tables.workItems[id].runId != "" && actor != "" {
      var d := Draft(db.tables.workItems[id].runId, actor, at, WorkItemStateChanged(id, state, lease));
      assert Append(db, d).Some?;
    }
  }

  // ---------- what is recorded without a check ----------

  // What must hold for a record to be taken in: a new key, or a budget to update.
  predicate Admits(t: Tables, run: string, p: Payload) {
    match p
    case RunCreated(_, _, _, _) => run !in t.runs
    case MessageRecorded(id, _) => id !in t.messages
    case WorkItemCreated(id, _, _) => id !in t.workItems
    case ToolCallProposed(id, _, _, _, _, _) => id !in t.calls
    case ArtifactRecorded(id, _) => id !in t.artifacts
    case BudgetInitialized(_, _) => run !in t.budgets
    case BudgetUpdated(_) => run in t.budgets
    case RecoveryBlocked(_, _) => true
    case Other(_) => true
    case _ => false
  }

  // The row that holds what was recorded, and nothing else anywhere that differs.
  predicate Holding(t: Tables, t': Tables, d: Draft, n: nat) {
    match d.payload
    case RunCreated(owner, state, objective, lease) =>
      && d.runId in t'.runs && t' == t.(runs := t.runs[d.runId := t'.runs[d.runId]])
      && var row := t'.runs[d.runId];
         && row.ownerId == owner && row.state == state && row.objective == objective && row.version == 1
         && row.createdAt == row.updatedAt == d.at && row.cancelledAt == None && row.leaseExpiresAt == lease
         && row.terminalReason == None && row.lastSequence == n
    case MessageRecorded(id, message) =>
      && id in t'.messages && t' == t.(messages := t.messages[id := t'.messages[id]])
      && t'.messages[id].runId == d.runId && t'.messages[id].message == message
      && t'.messages[id].createdAt == d.at && t'.messages[id].sequence == n
    case WorkItemCreated(id, item, lease) =>
      && id in t'.workItems && t' == t.(workItems := t.workItems[id := t'.workItems[id]])
      && t'.workItems[id].runId == d.runId && t'.workItems[id].item == item
      && t'.workItems[id].state == item.initial && t'.workItems[id].leaseExpiresAt == lease
      && t'.workItems[id].version == 1
    case ToolCallProposed(id, approval, tool, digest, state, attempt) =>
      && id in t'.calls && t' == t.(calls := t.calls[id := t'.calls[id]])
      && var row := t'.calls[id];
         && row.runId == d.runId && row.approvalId == approval && row.toolName == tool && row.actionDigest == digest
         && row.state == state && row.attempt == attempt && row.startedAt == row.finishedAt == None
         && row.result == None && row.error == None
    case ArtifactRecorded(id, artifact) =>
      && id in t'.artifacts && t' == t.(artifacts := t.artifacts[id := t'.artifacts[id]])
      && t'.artifacts[id].runId == d.runId && t'.artifacts[id].artifact == artifact
      && t'.artifacts[id].createdAt == d.at
    case BudgetInitialized(limits, usage) =>
      && d.runId in t'.budgets && t' == t.(budgets := t.budgets[d.runId := t'.budgets[d.runId]])
      && t'.budgets[d.runId].limits == limits && t'.budgets[d.runId].usage == usage && t'.budgets[d.runId].version == 1
    case BudgetUpdated(usage) =>
      && d.runId in t.budgets && d.runId in t'.budgets
      && t' == t.(budgets := t.budgets[d.runId := t'.budgets[d.runId]])
      && t'.budgets[d.runId].limits == t.budgets[d.runId].limits && t'.budgets[d.runId].usage == usage
      && t'.budgets[d.runId].version == t.budgets[d.runId].version + 1
    case _ => t' == t
  }

  /** Recording succeeds exactly under a new key, or for a budget that is there; the one row
      it writes holds what was recorded, and its event is the last one.  Any refusal changes
      nothing. */
  lemma RecordMeans(db: Db, d: Draft)
    ensures var (db', reply) := Exec(db, Record(d));
            && (reply == Done <==> Admits(db.tables, d.runId, d.payload) && d.runId != "" && d.actorId != "")
            && (reply != Done ==> db' == db)
            && (reply == Done ==>
                  && Journalled(db, db', d.runId, d.actorId, d.at, d.payload)
                  && Holding(db.tables, db'.tables, d, db'.journal[|db.journal|].sequence))
  {
    hide MaxRunSequence;
    if Recordable(d.payload) && d.runId != "" && d.actorId != "" {
      var e := NextEvent(db.journal, d);
      if Apply(db.tables, e).Some? {
        assert Append(db, d) == Some(Db(db.journal + [e], Apply(db.tables, e).value));
      }
    }
  }
}
