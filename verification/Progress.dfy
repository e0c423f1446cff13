/** The protocol gets somewhere, exactly as far as the budget goes: an approval flow that
    nobody disturbs completes its run if and only if the budget covers both of its tool
    calls; where it covers the write alone, the approved file is there, the approval is
    spent and the run stays in VERIFYING. */
module Progress {
  import opened Domain
  import opened Projections
  import opened Repositories
  import opened Histories
  import opened Growth
  import opened Actions
  import opened Policy
  import opened Files
  import opened Json
  import opened Protocol
  import opened Effects
  import Budget
  import Paths
  import TimeText
  import Utf8

  // ---------- what each write of the flow does to the tables ----------

  lemma DoGrant(db: Db, op: Op) returns (row: ApprovalRow)
    requires op.Grant? && op.id in db.tables.approvals && op.owner != ""
    requires var r := db.tables.approvals[op.id];
             r.ownerId == op.owner && r.status == Pending && r.action.Exact? && op.at < r.expiresAt && r.runId != ""
    ensures Exec(db, op).1 == Done
    ensures Exec(db, op).0.tables == db.tables.(approvals := db.tables.approvals[op.id := row])
    ensures row.status == Approved && SameBinding(db.tables.approvals[op.id], row)
    ensures row.action == db.tables.approvals[op.id].action
  {
    row := Exec(db, op).0.tables.approvals[op.id];
  }

  lemma DoTake(db: Db, op: Op) returns (row: ApprovalRow)
    requires op.Take? && op.claim.approvalId in db.tables.approvals && op.claim.claimedBy != "" && op.claim.runId != ""
    requires ClaimRejection(db.tables.approvals[op.claim.approvalId], op.claim).None?
    ensures Exec(db, op).1 == Done
    ensures Exec(db, op).0.tables == db.tables.(approvals := db.tables.approvals[op.claim.approvalId := row])
    ensures row.status == Claimed && row.claimedBy == Some(op.claim.claimedBy)
    ensures SameBinding(db.tables.approvals[op.claim.approvalId], row)
    ensures row.action == db.tables.approvals[op.claim.approvalId].action
  {
    row := Exec(db, op).0.tables.approvals[op.claim.approvalId];
  }

  lemma DoUse(db: Db, op: Op) returns (row: ApprovalRow)
    requires op.Use? && op.id in db.tables.approvals && db.tables.approvals[op.id].runId != "" && op.claimedBy != ""
    requires db.tables.approvals[op.id].status == Claimed && db.tables.approvals[op.id].claimedBy == Some(op.claimedBy)
    ensures Exec(db, op).1 == Done
    ensures Exec(db, op).0.tables == db.tables.(approvals := db.tables.approvals[op.id := row])
    ensures row.status == Consumed && SameBinding(db.tables.approvals[op.id], row)
  {
    row := Exec(db, op).0.tables.approvals[op.id];
  }

  lemma DoMove(db: Db, op: Op) returns (row: RunRow)
    requires op.MoveRun? && op.run in db.tables.runs && op.run != "" && op.actor != ""
    requires op.expectedState == Some(db.tables.runs[op.run].state)
    requires op.expectedVersion == Some(db.tables.runs[op.run].version)
    ensures Exec(db, op).1 == Done
    ensures Exec(db, op).0.tables == db.tables.(runs := db.tables.runs[op.run := row])
    ensures row.state == op.target && row.leaseExpiresAt == op.lease
  {
    row := Exec(db, op).0.tables.runs[op.run];
  }

  lemma DoPropose(db: Db, op: Op) returns (row: CallRow)
    requires op.Record? && op.draft.payload.ToolCallProposed? && op.draft.payload.callId !in db.tables.calls
    requires op.draft.runId != "" && op.draft.actorId != ""
    ensures Exec(db, op).1 == Done
    ensures Exec(db, op).0.tables == db.tables.(calls := db.tables.calls[op.draft.payload.callId := row])
    ensures var p := op.draft.payload;
            && row.runId == op.draft.runId && row.approvalId == p.callApproval && row.toolName == p.toolName
            && row.actionDigest == p.actionDigest && row.state == p.state
  {
    row := Exec(db, op).0.tables.calls[op.draft.payload.callId];
  }

  lemma DoCall(db: Db, op: Op) returns (row: CallRow)
    requires op.CallStep? && op.id in db.tables.calls && db.tables.calls[op.id].runId != "" && op.actor != ""
    ensures Exec(db, op).1 == Done
    ensures Exec(db, op).0.tables == db.tables.(calls := db.tables.calls[op.id := row])
    ensures SameCall(db.tables.calls[op.id], row) && row.state == op.state
  {
    row := Exec(db, op).0.tables.calls[op.id];
  }

  lemma DoArtifact(db: Db, op: Op) returns (row: ArtifactRow)
    requires op.Record? && op.draft.payload.ArtifactRecorded? && op.draft.payload.artifactId !in db.tables.artifacts
    requires op.draft.runId != "" && op.draft.actorId != ""
    ensures Exec(db, op).1 == Done
    ensures Exec(db, op).0.tables == db.tables.(artifacts := db.tables.artifacts[op.draft.payload.artifactId := row])
  {
    row := Exec(db, op).0.tables.artifacts[op.draft.payload.artifactId];
  }

  lemma DoCharge(db: Db, op: Op) returns (row: BudgetRow)
    requires op.Record? && op.draft.payload.BudgetUpdated? && op.draft.runId in db.tables.budgets
    requires op.draft.runId != "" && op.draft.actorId != ""
    ensures Exec(db, op).1 == Done
    ensures Exec(db, op).0.tables == db.tables.(budgets := db.tables.budgets[op.draft.runId := row])
    ensures row.limits == db.tables.budgets[op.draft.runId].limits && row.usage == op.draft.payload.usage
  {
    row := Exec(db, op).0.tables.budgets[op.draft.runId];
  }

  // ---------- what an undisturbed flow still needs ----------

  function VerifiedId(p: Proc): string { p.callId + ":verified" }

  // Facts about the flow that no step of it changes.
  ghost predicate Fits(site: Site, p: Proc) {
    && site.owner != "" && site.verifier(p.run) != "" && p.callId != p.readId
    && p.run != "" && p.run == p.action.runId && p.temp != PathOf(p.action)
    && Dated(p.action) && ValidAction(site.env.hash, p.action) && p.action.ownerId == site.owner
    && RightWrite(site, p.action) && PathOf(p.action) != "."
    && p.action.policyVersion == site.policyVersion && p.action.budget.maxToolCalls >= 1
    && site.toolTimeout > 0 && HexHash(site.env.hash) && 16 <= |p.nonce| <= 256
  }

  ghost predicate HexHash(h: Hash) { forall x: Bytes :: IsHexDigest(h(x)) }

  // What a flow is given: the lease the run holds while it executes, the expiry of the
  // approval, and the budget as it stands at the start.
  datatype Window = Window(lease: Time, due: Time, limits: BudgetLimits, usage: Counters)

  function StateAt(r: int): RunState {
    if r < 2 then AwaitingApproval else if r < 14 then Executing else if r < 22 then Verifying else Completed
  }

  predicate RunFits(t: Tables, p: Proc, r: int, w: Window) {
    && p.run in t.runs && t.runs[p.run].state == StateAt(r)
    && (2 <= r < 14 ==> t.runs[p.run].leaseExpiresAt == Some(w.lease))
  }

  // The usage of the run: charged once for the write, and once for the read-back.
  function UsageAt(usage: Counters, n: nat, r: int): Counters {
    if r < 13 then usage else if r < 20 then Budget.Spend(usage, n) else Budget.Spend(Budget.Spend(usage, n), n)
  }

  predicate Paid(t: Tables, p: Proc, r: int, w: Window) {
    p.run in t.budgets && t.budgets[p.run].limits == w.limits &&
    t.budgets[p.run].usage == UsageAt(w.usage, |ContentOf(p.action)|, r)
  }

  // What the step at a stage asks of the budget, for a content of n bytes: the two policy
  // decisions, the precommit check and the two charges.
  ghost predicate Gate(w: Window, n: nat, r: int) {
    && (r in {2, 14} ==> !Exhausted(w.limits, UsageAt(w.usage, n, r)))
    && (r == 7 ==> CallLeft(w.limits, w.usage, n))
    && (r in {12, 19} ==> Budget.Within(w.limits, UsageAt(w.usage, n, r + 1)))
  }

  // The budget covers the write ...
  ghost predicate CoversWrite(w: Window, n: nat) { Gate(w, n, 2) && Gate(w, n, 7) }

  // ... and both calls: one more call than the write, room for one more byte after it and
  // for its content twice over.
  ghost predicate Headroom(w: Window, n: nat) {
    && Budget.Used(w.usage, "tool_calls") + 2 <= w.limits.maxToolCalls
    && Budget.Used(w.usage, "bytes") + n < w.limits.maxBytes && Budget.Used(w.usage, "bytes") + 2 * n <= w.limits.maxBytes
    && Budget.Used(w.usage, "wall_time_ms") < w.limits.maxWallTimeMs
    && Budget.Used(w.usage, "lease_ms") < w.limits.maxLeaseMs && Budget.OthersWithin(w.limits, w.usage)
  }

  /** Every gate opens exactly when the budget covers both calls. */
  lemma HeadroomOpensGates(w: Window, n: nat)
    ensures Headroom(w, n) <==> forall r: nat :: Gate(w, n, r)
    ensures CoversWrite(w, n) && Budget.OthersWithin(w.limits, w.usage) ==> Gate(w, n, 12)
    ensures Gate(w, n, 12) ==> Budget.OthersWithin(w.limits, w.usage)
  {
    hide Budget.Within, Budget.OthersWithin, Budget.Used, Budget.Spend;
    Budget.SpendFits(w.limits, w.usage, n);
    Budget.SpendFits(w.limits, Budget.Spend(w.usage, n), n);
    if forall r: nat :: Gate(w, n, r) {
      assert Gate(w, n, 2) && Gate(w, n, 12) && Gate(w, n, 14) && Gate(w, n, 19);
    }
  }

  function StatusAt(r: int): ApprovalStatus {
    if r < 1 then Pending else if r < 4 then Approved else if r < 12 then Claimed else Consumed
  }

  ghost predicate ApprovalFits(site: Site, t: Tables, p: Proc, r: int, w: Window) {
    Dated(p.action) && p.approvalId in t.approvals &&
    var row := t.approvals[p.approvalId];
    && row.ownerId == site.owner && row.runId == p.run && row.requesterId == p.action.requesterId
    && row.actionDigest == ActionDigest(site.env.hash, p.action) && row.expiresAt == w.due
    && row.policyVersion == p.action.policyVersion
    && row.status == StatusAt(r) && (r < 12 ==> row.action == Exact(p.action))
    && (4 <= r < 12 ==> row.claimedBy == Some(p.action.requesterId))
  }

  predicate WriteCall(site: Site, row: CallRow, p: Proc) {
    row.runId == p.run && row.approvalId == Some(p.approvalId) && row.toolName == p.action.toolName
  }

  function CallStateAt(r: int): CallState {
    if r <= 5 then Authorized else if r <= 10 then Running else Succeeded
  }

  ghost predicate CallsFit(site: Site, t: Tables, p: Proc, r: int) {
    && Dated(p.action)
    && (if r < 5 then p.callId !in t.calls
        else p.callId in t.calls && WriteCall(site, t.calls[p.callId], p) &&
             t.calls[p.callId].actionDigest == ActionDigest(site.env.hash, p.action))
    && (r >= 5 ==> t.calls[p.callId].state == CallText(CallStateAt(r), true))
    && (if r < 16 then p.readId !in t.calls else p.readId in t.calls && t.calls[p.readId].runId == p.run)
    && (r < 21 ==> VerifiedId(p) !in t.artifacts)
  }

  // The sandbox: the target is free, then ours with two names, then with one.
  predicate DirFits(d: Directory, p: Proc, r: int, i: Inode) {
    var path := PathOf(p.action);
    if r < 7 then path !in d.names && p.temp !in d.names && i !in d.data && NamesOf(d, i) == {}
    else
      && i in d.data && d.data[i] == ContentOf(p.action)
      && (r < 9 ==> path !in d.names && p.temp in d.names && d.names[p.temp] == i && NamesOf(d, i) == {p.temp})
      && (r == 9 ==> path in d.names && p.temp in d.names && d.names[path] == i && NamesOf(d, i) == {p.temp, path})
      && (r > 9 ==> path in d.names && d.names[path] == i && NamesOf(d, i) == {path})
  }

  predicate ProcFits(p: Proc, r: int, w: Window) {
    && Rank(p.stage) == r && (r == 3 ==> p.decidedAt < w.due) && (r >= 18 ==> p.seen == ContentOf(p.action))
  }

  // A flow at a stage, with everything it has written so far as it left it.  Nothing is
  // said of the clock, the stop or the budget.
  ghost predicate Standing(site: Site, s: Sys, pid: string, w: Window, i: Inode, r: int) {
    && pid in s.procs
    && var p := s.procs[pid];
       && Fits(site, p) && ProcFits(p, r, w) && RunFits(s.db.tables, p, r, w)
       && ApprovalFits(site, s.db.tables, p, r, w) && CallsFit(site, s.db.tables, p, r) && DirFits(s.dir, p, r, i)
  }

  // ... and no stop in its way, with its calls charged to the budget of the start.
  ghost predicate Ready(site: Site, s: Sys, pid: string, w: Window, i: Inode, r: int) {
    Standing(site, s, pid, w, i, r) && !s.stopped && Paid(s.db.tables, s.procs[pid], r, w)
  }

  // The flow is gone at a stage; only the precommit check takes something along, the
  // temporary name.
  predicate Left(s: Sys, t: Sys, pid: string, r: int) {
    pid in s.procs &&
    t == s.(procs := s.procs - {pid}, dir := if r == 7 then Unlinked(s.dir, s.procs[pid].temp) else s.dir)
  }

  // What the step at a stage does: it takes the flow one stage on, or ends it at a gate.
  ghost predicate Goes(site: Site, s: Sys, t: Sys, pid: string, w: Window, i: Inode, r: int) {
    pid in s.procs &&
    if Gate(w, |ContentOf(s.procs[pid].action)|, r) then Ready(site, t, pid, w, i, r + 1) else Left(s, t, pid, r)
  }

  // What a step at a stage asks of the clock it reads: the approval comes before its
  // expiry, the lease is taken at the start, the policy decision falls into the life of
  // the action, the precommit check into the lease too, and the read-back into the years
  // that can be written.
  ghost predicate Timely(site: Site, p: Proc, w: Window, r: int, now: Time) {
    && (r == 0 ==> now < w.due)
    && (r == 1 ==> w.lease == now + site.leaseTime)
    && (r == 2 ==> p.action.createdAt <= now < p.action.expiresAt && now < w.due)
    && (r == 7 ==> now < p.action.expiresAt && now <= w.lease)
    && (r == 14 ==> TimeText.Representable(now) && TimeText.Representable(now + site.toolTimeout))
  }

  ghost predicate Punctual(site: Site, s: Sys, pid: string, w: Window, r: int, now: Time) {
    pid in s.procs && Timely(site, s.procs[pid], w, r, now)
  }

  // ---------- the database steps ----------

  // A successful write of the flow, seen from the system.
  lemma WriteAdvances(site: Site, s: Sys, pid: string, p: Proc, op: Op, now: Time, k: Kernel)
    requires Runs(s, pid, p) && Acts(site, s, pid) && IsWrite(p.stage) && p.stage != Recorded
    requires OpOf(site, s, p, now) == Some(op) && Exec(s.db, op).1 == Done
    ensures Next(site, s, Advance(pid, now, k)) ==
            s.(db := Exec(s.db, op).0, procs := s.procs[pid := Onward(s, p)])
  {
    hide OpOf, Exec, ValidAction, TimeText.Representable;
  }

  // The flow after a step that changes only its stage, its marks and one table.
  lemma Carried(site: Site, p: Proc, q: Proc, w: Window, r: int)
    requires Fits(site, p) && ProcFits(p, r, w) && p.stage != Finished && r != 2 && r != 17
    requires q == p.(stage := NextStage(p.stage), marks := q.marks, cleared := q.cleared)
    ensures Fits(site, q) && ProcFits(q, r + 1, w)
  {
    hide ValidAction, TimeText.Representable, RightWrite, PathOf, ContentOf;
    RankNext(p.stage);
  }

  lemma SuccessorIs(p: Proc, n: nat)
    ensures var q := Successor(p, n);
            q == p.(stage := NextStage(p.stage), marks := q.marks, cleared := q.cleared)
  {
  }

  lemma ActionNamed(site: Site, p: Proc)
    requires Fits(site, p)
    ensures p.action.requesterId != "" && p.action.runId != "" && p.action.contentLength == Some(|ContentOf(p.action)|)
    ensures p.action.contentSha256 == Some(site.env.hash(ContentOf(p.action)))
    ensures site.env.redact(TextOf(p.action)) == TextOf(p.action)
  {
    hide TimeText.Representable, Paths.CanonicalAbsolute, Paths.RelativeTo, IsHexDigest;
  }

  lemma StageOf(p: Proc, r: int)
    requires Rank(p.stage) == r
    ensures p.stage == AtRank(r)
  {
  }

  function AtRank(r: int): Stage {
    if r == 0 then Loaded else if r == 1 then Stage.Granted else if r == 2 then Started else if r == 3 then Decided
    else if r == 4 then Holding else if r == 5 then Announced else if r == 6 then Active else if r == 7 then Prepared
    else if r == 8 then Cleared else if r == 9 then Installed else if r == 10 then Dropped else if r == 11 then Written
    else if r == 12 then Spent else if r == 13 then Charged else if r == 14 then Checking else if r == 15 then Permitted
    else if r == 16 then ReadAnnounced else if r == 17 then ReadRunning else if r == 18 then Seen
    else if r == 19 then ReadBack else if r == 20 then Settled else if r == 21 then Recorded else Finished
  }

  // The same flow, one stage on.
  predicate SameFlow(p: Proc, q: Proc) {
    q == p.(stage := q.stage, marks := q.marks, cleared := q.cleared, checkedAt := q.checkedAt, decidedAt := q.decidedAt,
            readDigest := q.readDigest, seen := q.seen)
  }

  lemma DirCarried(d: Directory, p: Proc, q: Proc, r: int, i: Inode)
    requires DirFits(d, p, r, i) && SameFlow(p, q) && r !in {6, 8, 9}
    ensures DirFits(d, q, r + 1, i)
  {
    hide PathOf, ContentOf;
  }

  lemma RunCarried(t: Tables, t': Tables, p: Proc, q: Proc, r: int, w: Window)
    requires RunFits(t, p, r, w) && t'.runs == t.runs && SameFlow(p, q) && r !in {1, 13, 21}
    ensures RunFits(t', q, r + 1, w)
  {
  }

  lemma PaidCarried(t: Tables, t': Tables, p: Proc, q: Proc, r: int, w: Window)
    requires Paid(t, p, r, w) && t'.budgets == t.budgets && SameFlow(p, q) && r !in {12, 19}
    ensures Paid(t', q, r + 1, w)
  {
    hide ContentOf;
  }

  lemma ApprovalCarried(site: Site, t: Tables, t': Tables, p: Proc, q: Proc, r: int, w: Window)
    requires ApprovalFits(site, t, p, r, w) && t'.approvals == t.approvals && SameFlow(p, q)
    requires r !in {0, 3, 11}
    ensures ApprovalFits(site, t', q, r + 1, w)
  {
    hide ActionDigest;
  }

  lemma CallsCarried(site: Site, t: Tables, t': Tables, p: Proc, q: Proc, r: int)
    requires CallsFit(site, t, p, r) && t'.artifacts == t.artifacts && SameFlow(p, q)
    requires r !in {4, 5, 10, 15, 20}
    requires t'.calls.Keys == t.calls.Keys && forall c :: c in t.calls ==> SameCall(t.calls[c], t'.calls[c])
    requires p.callId in t.calls ==> t'.calls[p.callId].state == t.calls[p.callId].state
    ensures CallsFit(site, t', q, r + 1)
  {
    hide ActionDigest, TimeText.Representable;
  }

  // The write call moves to the state of the next stage.
  lemma CallMoved(site: Site, t: Tables, t': Tables, p: Proc, q: Proc, r: int, row: CallRow)
    requires CallsFit(site, t, p, r) && SameFlow(p, q) && r in {5, 10}
    requires t'.artifacts == t.artifacts && t'.calls == t.calls[p.callId := row]
    requires SameCall(t.calls[p.callId], row) && row.state == CallText(CallStateAt(r + 1), true)
    requires p.callId != p.readId
    ensures CallsFit(site, t', q, r + 1)
  {
    hide ActionDigest, TimeText.Representable;
  }

  // The read call appears, and moves on.
  lemma ReadMoved(site: Site, t: Tables, t': Tables, p: Proc, q: Proc, r: int, row: CallRow)
    requires CallsFit(site, t, p, r) && SameFlow(p, q) && r in {15, 16, 18}
    requires t'.artifacts == t.artifacts && t'.calls == t.calls[p.readId := row] && row.runId == p.run
    requires p.callId != p.readId
    ensures CallsFit(site, t', q, r + 1)
  {
    hide ActionDigest, TimeText.Representable;
  }

  // A successful write takes the flow one stage on, when the tables it leaves fit.
  lemma WriteLands(site: Site, s: Sys, pid: string, p: Proc, q: Proc, w: Window, now: Time, k: Kernel, i: Inode, r: int,
                   op: Op, t: Tables)
    requires Ready(site, s, pid, w, i, r) && r < 21 && r !in {2, 6, 7, 8, 9, 14, 17}
    requires Runs(s, pid, p) && q == Onward(s, p) && t == Exec(s.db, op).0.tables
    requires OpOf(site, s, p, now) == Some(op) && Exec(s.db, op).1 == Done
    requires Paid(t, q, r + 1, w) && RunFits(t, q, r + 1, w) && ApprovalFits(site, t, q, r + 1, w) && CallsFit(site, t, q, r + 1)
    ensures Ready(site, Next(site, s, Advance(pid, now, k)), pid, w, i, r + 1)
  {
    hide OpOf, Exec, Next, Paid, Successor, DirFits, Fits, RunFits, ApprovalFits, CallsFit, ValidAction, Dated;
    StageOf(p, r);
    FitsFacts(site, p);
    WriteAdvances(site, s, pid, p, op, now, k);
    SuccessorIs(p, |s.db.journal|);
    Carried(site, p, q, w, r);
    DirCarried(s.dir, p, q, r, i);
  }

  // The approval moves to the status of the next stage.
  lemma ApprovalMoved(site: Site, t: Tables, t': Tables, p: Proc, q: Proc, r: int, w: Window, row: ApprovalRow)
    requires ApprovalFits(site, t, p, r, w) && SameFlow(p, q) && r in {0, 3, 11}
    requires t'.approvals == t.approvals[p.approvalId := row] && SameBinding(t.approvals[p.approvalId], row)
    requires row.status == StatusAt(r + 1) && (r < 11 ==> row.action == t.approvals[p.approvalId].action)
    requires r == 3 ==> row.claimedBy == Some(p.action.requesterId)
    ensures ApprovalFits(site, t', q, r + 1, w)
  {
    hide ActionDigest;
  }

  // The run moves to the state of the next stage.
  lemma RunMoved(t: Tables, t': Tables, p: Proc, q: Proc, r: int, w: Window, row: RunRow)
    requires RunFits(t, p, r, w) && SameFlow(p, q) && r in {1, 13}
    requires t'.runs == t.runs[p.run := row] && row.state == StateAt(r + 1)
    requires r == 1 ==> row.leaseExpiresAt == Some(w.lease)
    ensures RunFits(t', q, r + 1, w)
  {
  }

  // The approval is granted, claimed and consumed.
  lemma ApprovalWritten(site: Site, s: Sys, p: Proc, w: Window, now: Time, r: int) returns (op: Op, row: ApprovalRow)
    requires Fits(site, p) && ProcFits(p, r, w) && ApprovalFits(site, s.db.tables, p, r, w) && r in {0, 3, 11}
    requires Timely(site, p, w, r, now)
    ensures OpOf(site, s, p, now) == Some(op) && Exec(s.db, op).1 == Done
    ensures Exec(s.db, op).0.tables == s.db.tables.(approvals := s.db.tables.approvals[p.approvalId := row])
    ensures SameBinding(s.db.tables.approvals[p.approvalId], row) && row.status == StatusAt(r + 1)
    ensures r < 11 ==> row.action == s.db.tables.approvals[p.approvalId].action
    ensures r == 3 ==> row.claimedBy == Some(p.action.requesterId)
  {
    hide ValidAction, TimeText.Representable, RightWrite, ActionDigest, PathOf, ContentOf, Exec, CanTransition, ExactReadBack,
         ChargeOf;
    StageOf(p, r);
    ActionNamed(site, p);
    op := OpOf(site, s, p, now).value;
    if r == 0 { row := DoGrant(s.db, op); } else if r == 3 { row := DoTake(s.db, op); } else { row := DoUse(s.db, op); }
  }

  lemma StepApproval(site: Site, s: Sys, pid: string, w: Window, now: Time, k: Kernel, i: Inode, r: int)
    requires Ready(site, s, pid, w, i, r) && r in {0, 3, 11} && Punctual(site, s, pid, w, r, now)
    ensures Ready(site, Next(site, s, Advance(pid, now, k)), pid, w, i, r + 1)
  {
    hide ActionDigest, ContentOf, TimeText.Representable, OpOf, Exec, Next, Successor, NextStage, DirFits, Paid, RunFits,
         ApprovalFits, CallsFit, ProcFits, StateAt, Fits;
    var p := s.procs[pid];
    var q := Successor(p, |s.db.journal|);
    FitsFacts(site, p);
    var op, row := ApprovalWritten(site, s, p, w, now, r);
    SuccessorIs(p, |s.db.journal|);
    var t' := Exec(s.db, op).0.tables;
    RunCarried(s.db.tables, t', p, q, r, w);
    PaidCarried(s.db.tables, t', p, q, r, w);
    CallsCarried(site, s.db.tables, t', p, q, r);
    ApprovalMoved(site, s.db.tables, t', p, q, r, w, row);
    WriteLands(site, s, pid, p, q, w, now, k, i, r, op, t');
  }

  // The run moves to EXECUTING, and to VERIFYING: the edges are legal.
  lemma RunWritten(site: Site, s: Sys, p: Proc, w: Window, now: Time, r: int) returns (op: Op, row: RunRow)
    requires Fits(site, p) && ProcFits(p, r, w) && RunFits(s.db.tables, p, r, w) && !s.stopped && r in {1, 13}
    ensures OpOf(site, s, p, now) == Some(op) && Exec(s.db, op).1 == Done
    ensures Exec(s.db, op).0.tables == s.db.tables.(runs := s.db.tables.runs[p.run := row])
    ensures row.state == StateAt(r + 1) && row.leaseExpiresAt == Some(now + site.leaseTime)
  {
    hide ValidAction, TimeText.Representable, RightWrite, ActionDigest, PathOf, ContentOf, Exec, ExactReadBack, ChargeOf;
    StageOf(p, r);
    op := OpOf(site, s, p, now).value;
    row := DoMove(s.db, op);
  }

  lemma MoveFits(site: Site, t: Tables, t': Tables, p: Proc, q: Proc, r: int, w: Window, now: Time, row: RunRow)
    requires SameFlow(p, q) && r in {1, 13} && Timely(site, p, w, r, now)
    requires Paid(t, p, r, w) && RunFits(t, p, r, w) && ApprovalFits(site, t, p, r, w) && CallsFit(site, t, p, r)
    requires t' == t.(runs := t.runs[p.run := row])
    requires row.state == StateAt(r + 1) && row.leaseExpiresAt == Some(now + site.leaseTime)
    ensures Paid(t', q, r + 1, w) && RunFits(t', q, r + 1, w) && ApprovalFits(site, t', q, r + 1, w) && CallsFit(site, t', q, r + 1)
  {
    hide ActionDigest, ContentOf, TimeText.Representable, Paid, RunFits, ApprovalFits, CallsFit, StateAt;
    PaidCarried(t, t', p, q, r, w);
    ApprovalCarried(site, t, t', p, q, r, w);
    CallsCarried(site, t, t', p, q, r);
    RunMoved(t, t', p, q, r, w, row);
  }

  lemma StepMove(site: Site, s: Sys, pid: string, w: Window, now: Time, k: Kernel, i: Inode, r: int)
    requires Ready(site, s, pid, w, i, r) && r in {1, 13} && Punctual(site, s, pid, w, r, now)
    ensures Ready(site, Next(site, s, Advance(pid, now, k)), pid, w, i, r + 1)
  {
    hide ActionDigest, ContentOf, Timely, OpOf, Exec, Next, Successor, NextStage, DirFits, Paid, RunFits, ApprovalFits,
         CallsFit, ProcFits, StateAt, Fits;
    var p := s.procs[pid];
    var q := Successor(p, |s.db.journal|);
    var op, row := RunWritten(site, s, p, w, now, r);
    SuccessorIs(p, |s.db.journal|);
    MoveFits(site, s.db.tables, Exec(s.db, op).0.tables, p, q, r, w, now, row);
    WriteLands(site, s, pid, p, q, w, now, k, i, r, op, Exec(s.db, op).0.tables);
  }

  // The two calls are announced.
  lemma StepPropose(site: Site, s: Sys, pid: string, w: Window, now: Time, k: Kernel, i: Inode, r: int)
    requires Ready(site, s, pid, w, i, r) && r in {4, 15}
    ensures Ready(site, Next(site, s, Advance(pid, now, k)), pid, w, i, r + 1)
  {
    hide ValidAction, TimeText.Representable, RightWrite, ActionDigest, PathOf, ContentOf, Exec, Next, Successor, DirFits,
         CanTransition, ExactReadBack, ChargeOf, Paid, RunFits, ApprovalFits;
    var p := s.procs[pid];
    var q := Successor(p, |s.db.journal|);
    StageOf(p, r);
    ActionNamed(site, p);
    var op := OpOf(site, s, p, now).value;
    var row := DoPropose(s.db, op);
    SuccessorIs(p, |s.db.journal|);
    var t' := Exec(s.db, op).0.tables;
    RunCarried(s.db.tables, t', p, q, r, w);
    PaidCarried(s.db.tables, t', p, q, r, w);
    ApprovalCarried(site, s.db.tables, t', p, q, r, w);
    if r == 15 { ReadMoved(site, s.db.tables, t', p, q, r, row); }
    WriteLands(site, s, pid, p, q, w, now, k, i, r, op, t');
  }

  // They run, and succeed.
  lemma StepCall(site: Site, s: Sys, pid: string, w: Window, now: Time, k: Kernel, i: Inode, r: int)
    requires Ready(site, s, pid, w, i, r) && r in {5, 10, 16, 18}
    ensures Ready(site, Next(site, s, Advance(pid, now, k)), pid, w, i, r + 1)
  {
    hide ValidAction, TimeText.Representable, RightWrite, ActionDigest, PathOf, ContentOf, Exec, Next, Successor, DirFits,
         CanTransition, ExactReadBack, ChargeOf, Paid, RunFits, ApprovalFits;
    var p := s.procs[pid];
    var q := Successor(p, |s.db.journal|);
    StageOf(p, r);
    ActionNamed(site, p);
    var op := OpOf(site, s, p, now).value;
    var row := DoCall(s.db, op);
    SuccessorIs(p, |s.db.journal|);
    var t' := Exec(s.db, op).0.tables;
    RunCarried(s.db.tables, t', p, q, r, w);
    PaidCarried(s.db.tables, t', p, q, r, w);
    ApprovalCarried(site, s.db.tables, t', p, q, r, w);
    if r < 16 { CallMoved(site, s.db.tables, t', p, q, r, row); } else { ReadMoved(site, s.db.tables, t', p, q, r, row); }
    WriteLands(site, s, pid, p, q, w, now, k, i, r, op, t');
  }

  lemma ReadBackExact(site: Site, p: Proc)
    requires Fits(site, p) && p.seen == ContentOf(p.action)
    ensures ExactReadBack(site, p)
  {
    hide RightWrite, ValidAction, TimeText.Representable;
    ActionNamed(site, p);
    Utf8.DecodeEncode(TextOf(p.action));
  }

  // The charges, each a gate.
  lemma ChargeIs(site: Site, s: Sys, p: Proc, w: Window, r: int, now: Time) returns (op: Option<Op>)
    requires Fits(site, p) && ProcFits(p, r, w) && Paid(s.db.tables, p, r, w) && r in {12, 19}
    ensures OpOf(site, s, p, now) == op && (op.Some? <==> Gate(w, |ContentOf(p.action)|, r))
    ensures op.Some? ==>
              op.value == Record(Draft(p.run, "system:budget", now, BudgetUpdated(UsageAt(w.usage, |ContentOf(p.action)|, r + 1))))
  {
    hide ValidAction, TimeText.Representable, RightWrite, ActionDigest, PathOf, ContentOf, ExactReadBack, Budget.Within,
         Budget.Spend;
    StageOf(p, r);
    if r == 19 { ReadBackExact(site, p); }
    op := OpOf(site, s, p, now);
  }

  // A write that has no operation ends the flow.
  lemma WriteRefused(site: Site, s: Sys, pid: string, p: Proc, now: Time, k: Kernel)
    requires Runs(s, pid, p) && Acts(site, s, pid) && IsWrite(p.stage) && OpOf(site, s, p, now).None?
    ensures Next(site, s, Advance(pid, now, k)) == s.(procs := s.procs - {pid})
  {
    hide OpOf, Exec, ValidAction, TimeText.Representable;
  }

  lemma StepCharge(site: Site, s: Sys, pid: string, w: Window, now: Time, k: Kernel, i: Inode, r: int)
    requires Ready(site, s, pid, w, i, r) && r in {12, 19}
    ensures Goes(site, s, Next(site, s, Advance(pid, now, k)), pid, w, i, r)
  {
    hide ValidAction, TimeText.Representable, RightWrite, ActionDigest, PathOf, ContentOf, Exec, Next, Successor, DirFits,
         OpOf, RunFits, ApprovalFits, CallsFit, Gate, UsageAt;
    var p := s.procs[pid];
    StageOf(p, r);
    ActionNamed(site, p);
    FitsFacts(site, p);
    var charge := ChargeIs(site, s, p, w, r, now);
    if charge.None? {
      WriteRefused(site, s, pid, p, now, k);
    } else {
      var op, q := charge.value, Successor(p, |s.db.journal|);
      var row := DoCharge(s.db, op);
      SuccessorIs(p, |s.db.journal|);
      var t' := Exec(s.db, op).0.tables;
      RunCarried(s.db.tables, t', p, q, r, w);
      ApprovalCarried(site, s.db.tables, t', p, q, r, w);
      CallsCarried(site, s.db.tables, t', p, q, r);
      WriteLands(site, s, pid, p, q, w, now, k, i, r, op, t');
    }
  }

  lemma StepRecord(site: Site, s: Sys, pid: string, w: Window, now: Time, k: Kernel, i: Inode)
    requires Ready(site, s, pid, w, i, 20)
    ensures Ready(site, Next(site, s, Advance(pid, now, k)), pid, w, i, 21)
  {
    hide ValidAction, TimeText.Representable, RightWrite, ActionDigest, PathOf, ContentOf, Exec, Next, Successor, DirFits,
         CanTransition, ExactReadBack, ChargeOf, Paid, RunFits, ApprovalFits;
    var p := s.procs[pid];
    var q := Successor(p, |s.db.journal|);
    StageOf(p, 20);
    ActionNamed(site, p);
    var op := OpOf(site, s, p, now).value;
    var row := DoArtifact(s.db, op);
    SuccessorIs(p, |s.db.journal|);
    var t' := Exec(s.db, op).0.tables;
    RunCarried(s.db.tables, t', p, q, 20, w);
    PaidCarried(s.db.tables, t', p, q, 20, w);
    ApprovalCarried(site, s.db.tables, t', p, q, 20, w);
    WriteLands(site, s, pid, p, q, w, now, k, i, 20, op, t');
  }

  // ---------- the policy decisions ----------

  lemma ToolIs(site: Site, p: Proc)
    requires Fits(site, p)
    ensures p.action.toolName == WRITE && p.action.toolSchemaVersion == "1"
  {
    hide ValidAction, TimeText.Representable, PathOf, Arguments;
  }

  // The rows of the run are there, and say that it lives and what it has used.
  lemma RowsOf(site: Site, s: Sys, p: Proc, w: Window, r: int, requester: string, now: Time)
    requires RunFits(s.db.tables, p, r, w) && Paid(s.db.tables, p, r, w) && !s.stopped
    ensures HasRows(s, p.run)
    ensures ContextOf(site, s, p.run, requester, now) ==
            Context(site.owner, {requester}, [site.workspace, site.sandbox], site.sandbox, site.policyVersion, now, false, false,
                    Exhausted(w.limits, UsageAt(w.usage, |ContentOf(p.action)|, r)))
  {
    hide ContentOf, Exhausted, UsageAt;
  }

  lemma PolicyAsks(site: Site, s: Sys, p: Proc, w: Window, now: Time)
    requires Fits(site, p) && RunFits(s.db.tables, p, 2, w) && Paid(s.db.tables, p, 2, w) && !s.stopped
    requires p.action.createdAt <= now < p.action.expiresAt
    ensures WriteAsked(site, s, p, now) <==> Gate(w, |ContentOf(p.action)|, 2)
  {
    hide Evaluate, ExactWrite, Paths.CanonicalAbsolute, Paths.RelativeTo, TimeText.Representable, ContentOf, PathOf, Arguments,
         RunFits, Paid, UsageAt, Exhausted, ContextOf;
    RowsOf(site, s, p, w, 2, p.action.requesterId, now);
    ToolIs(site, p);
    ApprovalExactlyForBoundWrites(site.env, p.action, ContextOf(site, s, p.run, p.action.requesterId, now));
  }

  // The read action is built on the root, the target and the path of the write.
  lemma ReadActionValid(site: Site, p: Proc, now: Time)
    requires Fits(site, p) && TimeText.Representable(now) && TimeText.Representable(now + site.toolTimeout)
    ensures var a := ReadAction(site, p, now);
            && Dated(a) && ValidAction(site.env.hash, a) && a.target == p.action.target
            && KeySet(Arguments(a).value) == {"path", "max_bytes"}
            && Get(Arguments(a).value, "path") == Some(Str(PathOf(p.action)))
            && Get(Arguments(a).value, "max_bytes") == Some(Int(Most(|ContentOf(p.action)|, 1)))
  {
    var a := ReadAction(site, p, now);
    ReadArgumentsRoundTrip(a, PathOf(p.action), Most(|ContentOf(p.action)|, 1)) by { hide PathOf, ContentOf; }
    SameTarget(site, p);
    hide PathOf, ContentOf, Arguments, Print, Paths.TargetText, IsHexDigest, RightWrite, TimeText.Representable,
         Paths.CanonicalAbsolute, Paths.RelativeTo, Paths.Parse;
  }

  lemma SameTarget(site: Site, p: Proc)
    requires Fits(site, p)
    ensures p.action.root == site.sandbox && p.action.target == Paths.TargetText(site.sandbox, PathOf(p.action))
    ensures Paths.PolicyRelative(PathOf(p.action)) == Some(PathOf(p.action)) && !Paths.IsSensitive(site.env.fold, PathOf(p.action))
  {
    hide ValidAction, TimeText.Representable, Paths.IsSensitive, Paths.TargetText;
  }

  // A read of exactly that shape passes the policy, once its common checks do.
  lemma ReadIsPassed(env: Env, a: ActionSpec, ms: Members, ctx: Context, path: string)
    requires a.toolName == READ && a.riskClass == LocalRead && Within(a.root, ctx.readRoots)
    requires a.target == Paths.TargetText(a.root, path) && Paths.PolicyRelative(path).Some? && !Paths.IsSensitive(env.fold, path)
    requires KeySet(ms) == {"path", "max_bytes"} && Get(ms, "path") == Some(Str(path))
    requires Get(ms, "max_bytes") == Some(Int(a.budget.maxBytes)) && a.budget.maxBytes > 0
    requires a.expectedPriorState == NotApplicable && !a.overwrite && a.contentSha256.None?
    ensures EvaluateRead(env, a, ms, ctx).Allow?
  {
    hide Paths.TargetText, Paths.PolicyRelative, Paths.IsSensitive, Within, KeySet, Get;
    assert LIST[3] != READ[3];
  }

  lemma SandboxIsDelegated(sandbox: string, roots: seq<string>)
    requires |roots| == 2 && roots[1] == sandbox
    ensures Within(sandbox, roots)
  {
    hide Paths.Parse;
    assert Paths.RelativeTo(Paths.Parse(sandbox), Paths.Parse(roots[1]));
  }

  lemma ReadEvaluates(site: Site, p: Proc, now: Time, ctx: Context)
    requires Fits(site, p) && TimeText.Representable(now) && TimeText.Representable(now + site.toolTimeout)
    requires ctx.readRoots == [site.workspace, site.sandbox]
    ensures var a := ReadAction(site, p, now);
            && Dated(a) && ValidAction(site.env.hash, a)
            && Evaluate(site.env, a, ctx) ==
               if CommonChecks(a, ctx).Some? then Deny(CommonChecks(a, ctx).value) else Allow
  {
    var a := ReadAction(site, p, now);
    ReadActionValid(site, p, now);
    SandboxIsDelegated(site.sandbox, ctx.readRoots);
    SameTarget(site, p);
    hide Fits, PathOf, ContentOf, Arguments, Print, Paths.TargetText, Paths.PolicyRelative, Paths.IsSensitive, Within, Paths.Parse,
         KeySet, Get, ValidAction, TimeText.Representable, CommonChecks, EvaluateRead, Utf8.Encode;
    ReadIsPassed(site.env, a, Arguments(a).value, ctx, PathOf(p.action));
    assert |READ| != |WRITE|;
    assert Evaluate(site.env, a, ctx).Allow? || CommonChecks(a, ctx).Some?;
  }

  lemma PolicyAllows(site: Site, s: Sys, p: Proc, w: Window, now: Time)
    requires Fits(site, p) && RunFits(s.db.tables, p, 14, w) && Paid(s.db.tables, p, 14, w) && !s.stopped
    requires Timely(site, p, w, 14, now)
    ensures ReadAllowed(site, s, p, now) <==> Gate(w, |ContentOf(p.action)|, 14)
  {
    hide PathOf, ContentOf, ValidAction, Arguments, Print, Paths.TargetText, TimeText.Representable, Evaluate, UsageAt,
         Exhausted, ContextOf, RunFits, Paid, RightWrite;
    var a := ReadAction(site, p, now);
    RowsOf(site, s, p, w, 14, a.requesterId, now);
    ReadEvaluates(site, p, now, ContextOf(site, s, p.run, a.requesterId, now));
  }

  // ---------- the steps in between ----------

  lemma LocalAdvances(site: Site, s: Sys, pid: string, now: Time, k: Kernel)
    requires !AtWrite(s, pid)
    ensures Next(site, s, Advance(pid, now, k)) == LocalStep(site, s, pid, now, k)
  {
    hide LocalStep;
  }

  // Everything durable is as it was.
  lemma OnlyTheFlowMoved(site: Site, s: Sys, p: Proc, q: Proc, w: Window, r: int)
    requires Fits(site, p) && SameFlow(p, q) && r in {2, 6, 7, 8, 9, 14, 17}
    requires RunFits(s.db.tables, p, r, w) && ApprovalFits(site, s.db.tables, p, r, w)
    requires CallsFit(site, s.db.tables, p, r) && Paid(s.db.tables, p, r, w)
    ensures Fits(site, q) && RunFits(s.db.tables, q, r + 1, w) && ApprovalFits(site, s.db.tables, q, r + 1, w)
    ensures CallsFit(site, s.db.tables, q, r + 1) && Paid(s.db.tables, q, r + 1, w)
  {
    hide RunFits, ApprovalFits, CallsFit, Paid, ValidAction, TimeText.Representable, RightWrite, PathOf, ContentOf;
    RunCarried(s.db.tables, s.db.tables, p, q, r, w);
    PaidCarried(s.db.tables, s.db.tables, p, q, r, w);
    ApprovalCarried(site, s.db.tables, s.db.tables, p, q, r, w);
    CallsCarried(site, s.db.tables, s.db.tables, p, q, r);
  }

  lemma FitsFacts(site: Site, p: Proc)
    requires Fits(site, p)
    ensures Dated(p.action) && ValidAction(site.env.hash, p.action)
    ensures p.temp != PathOf(p.action) && p.run != "" && site.owner != ""
  {
    hide ValidAction, TimeText.Representable, RightWrite, PathOf;
  }

  lemma RunExists(t: Tables, p: Proc, r: int, w: Window)
    requires RunFits(t, p, r, w)
    ensures p.run in t.runs && t.runs[p.run].state == StateAt(r)
  {
    hide ContentOf;
  }

  lemma WriteToolAccepts(site: Site, p: Proc)
    requires Fits(site, p)
    ensures Paths.ValidateRelative(site.env.fold, PathOf(p.action), false).Some?
  {
    hide ValidAction, TimeText.Representable, Paths.PolicyRelative, Paths.IsSensitive, Paths.ValidateRelative;
    Paths.ValidatorsAgree(site.env.fold, PathOf(p.action));
  }

  // The three local gates: the two policy decisions and the precommit check.
  lemma StepDecide(site: Site, s: Sys, pid: string, w: Window, now: Time, k: Kernel, i: Inode)
    requires Ready(site, s, pid, w, i, 2) && Punctual(site, s, pid, w, 2, now)
    ensures Goes(site, s, Next(site, s, Advance(pid, now, k)), pid, w, i, 2)
  {
    hide ValidAction, TimeText.Representable, RightWrite, PathOf, ContentOf, Next, Fits, RunFits, ApprovalFits, CallsFit,
         DirFits, WriteAsked, Paid, Gate;
    var p := s.procs[pid];
    var q := Moved(p).(decidedAt := now);
    StageOf(p, 2);
    FitsFacts(site, p);
    LocalAdvances(site, s, pid, now, k);
    PolicyAsks(site, s, p, w, now);
    OnlyTheFlowMoved(site, s, p, q, w, 2);
    DirCarried(s.dir, p, q, 2, i);
  }

  lemma StepPrecommit(site: Site, s: Sys, pid: string, w: Window, now: Time, k: Kernel, i: Inode)
    requires Ready(site, s, pid, w, i, 7) && Punctual(site, s, pid, w, 7, now)
    ensures Goes(site, s, Next(site, s, Advance(pid, now, k)), pid, w, i, 7)
  {
    hide ValidAction, TimeText.Representable, RightWrite, PathOf, ContentOf, Next, Fits, ApprovalFits, CallsFit,
         DirFits, RunFits, PrecommitPasses, Paid, Gate;
    var p := s.procs[pid];
    var q := Moved(p).(cleared := |s.db.journal|, checkedAt := now);
    StageOf(p, 7);
    FitsFacts(site, p);
    LocalAdvances(site, s, pid, now, k);
    PrecommitHolds(site, s, p, w, now);
    OnlyTheFlowMoved(site, s, p, q, w, 7);
    DirCarried(s.dir, p, q, 7, i);
  }

  lemma PrecommitHolds(site: Site, s: Sys, p: Proc, w: Window, now: Time)
    requires Fits(site, p) && RunFits(s.db.tables, p, 7, w) && Paid(s.db.tables, p, 7, w) && !s.stopped
    requires Timely(site, p, w, 7, now)
    ensures PrecommitPasses(s, p, now) <==> Gate(w, |ContentOf(p.action)|, 7)
  {
    hide ContentOf, PathOf, RightWrite;
    ActionNamed(site, p);
    hide ValidAction, TimeText.Representable;
  }

  lemma StepCheck(site: Site, s: Sys, pid: string, w: Window, now: Time, k: Kernel, i: Inode)
    requires Ready(site, s, pid, w, i, 14) && Punctual(site, s, pid, w, 14, now)
    ensures Goes(site, s, Next(site, s, Advance(pid, now, k)), pid, w, i, 14)
  {
    hide ValidAction, TimeText.Representable, RightWrite, PathOf, ContentOf, Next, Fits, RunFits, ApprovalFits, CallsFit,
         DirFits, ReadAllowed, ReadAction, Paid, Gate, ActionDigest, Dated;
    var p := s.procs[pid];
    StageOf(p, 14);
    FitsFacts(site, p);
    LocalAdvances(site, s, pid, now, k);
    PolicyAllows(site, s, p, w, now);
    if ReadAllowed(site, s, p, now) {
      ReadIsDated(site, s, p, now);
      var q := Moved(p).(readDigest := ActionDigest(site.env.hash, ReadAction(site, p, now)));
      OnlyTheFlowMoved(site, s, p, q, w, 14);
      DirCarried(s.dir, p, q, 14, i);
    }
  }

  lemma StepPrepare(site: Site, s: Sys, pid: string, w: Window, now: Time, k: Kernel, i: Inode)
    requires Ready(site, s, pid, w, i, 6) && k.inode == i
    ensures Ready(site, Next(site, s, Advance(pid, now, k)), pid, w, i, 7)
  {
    hide ValidAction, TimeText.Representable, RightWrite, PathOf, ContentOf, Next, Fits, RunFits, ApprovalFits, CallsFit,
         Paths.ValidateRelative, Paid;
    var p := s.procs[pid];
    var q := Moved(p);
    StageOf(p, 6);
    FitsFacts(site, p);
    LocalAdvances(site, s, pid, now, k);
    WriteToolAccepts(site, p);
    OnlyTheFlowMoved(site, s, p, q, w, 6);
    var d := Extended(Created(s.dir, p.temp, i), i, ContentOf(p.action));
    PreparedDir(s.dir, p, q, i);
  }

  lemma PreparedDir(d: Directory, p: Proc, q: Proc, i: Inode)
    requires DirFits(d, p, 6, i) && SameFlow(p, q) && p.temp != PathOf(p.action)
    ensures DirFits(Extended(Created(d, p.temp, i), i, ContentOf(p.action)), q, 7, i)
  {
    hide PathOf, ContentOf;
    var d' := Extended(Created(d, p.temp, i), i, ContentOf(p.action));
    assert d'.data[i] == [] + ContentOf(p.action);
    forall n | n in d.names ensures d.names[n] != i { assert n !in NamesOf(d, i); }
    assert NamesOf(d', i) == {p.temp};
  }

  lemma StepInstall(site: Site, s: Sys, pid: string, w: Window, now: Time, k: Kernel, i: Inode)
    requires Ready(site, s, pid, w, i, 8)
    ensures Ready(site, Next(site, s, Advance(pid, now, k)), pid, w, i, 9)
  {
    hide ValidAction, TimeText.Representable, RightWrite, PathOf, ContentOf, Next, Fits, RunFits, ApprovalFits, CallsFit, Paid;
    var p := s.procs[pid];
    var q := Moved(p);
    StageOf(p, 8);
    FitsFacts(site, p);
    LocalAdvances(site, s, pid, now, k);
    OnlyTheFlowMoved(site, s, p, q, w, 8);
    assert NamesOf(Linked(s.dir, p.temp, PathOf(p.action)), i) == {p.temp, PathOf(p.action)};
  }

  lemma NamesAfterDrop(d: Directory, temp: string, path: string, i: Inode)
    requires NamesOf(d, i) == {temp, path} && temp != path
    ensures NamesOf(Unlinked(d, temp), i) == {path}
  {
    forall n ensures n in NamesOf(Unlinked(d, temp), i) <==> n == path {
      assert n in NamesOf(d, i) <==> n == temp || n == path;
    }
  }

  lemma StepDrop(site: Site, s: Sys, pid: string, w: Window, now: Time, k: Kernel, i: Inode)
    requires Ready(site, s, pid, w, i, 9) && !k.dropFails
    ensures Ready(site, Next(site, s, Advance(pid, now, k)), pid, w, i, 10)
  {
    hide ValidAction, TimeText.Representable, RightWrite, PathOf, ContentOf, Next, Fits, RunFits, ApprovalFits, CallsFit, Paid;
    var p := s.procs[pid];
    var q := Moved(p);
    StageOf(p, 9);
    FitsFacts(site, p);
    LocalAdvances(site, s, pid, now, k);
    OnlyTheFlowMoved(site, s, p, q, w, 9);
    NamesAfterDrop(s.dir, p.temp, PathOf(p.action), i);
  }

  lemma FileIsReadable(d: Directory, p: Proc, r: int, i: Inode)
    requires DirFits(d, p, r, i) && r > 9
    ensures Readable(d, PathOf(p.action)) == Some(ContentOf(p.action))
  {
    hide PathOf, ContentOf;
  }

  lemma StepReadFile(site: Site, s: Sys, pid: string, w: Window, now: Time, k: Kernel, i: Inode)
    requires Ready(site, s, pid, w, i, 17)
    ensures Ready(site, Next(site, s, Advance(pid, now, k)), pid, w, i, 18)
  {
    hide ValidAction, TimeText.Representable, RightWrite, PathOf, ContentOf, Next, Fits, RunFits, ApprovalFits, CallsFit,
         DirFits, Readable, Utf8.Decode, Paid;
    var p := s.procs[pid];
    var q := Moved(p).(seen := ContentOf(p.action));
    StageOf(p, 17);
    FitsFacts(site, p);
    ActionNamed(site, p);
    LocalAdvances(site, s, pid, now, k);
    FileIsReadable(s.dir, p, 17, i);
    ContentDecodes(p.action);
    OnlyTheFlowMoved(site, s, p, q, w, 17);
    DirCarried(s.dir, p, q, 17, i);
  }

  lemma ContentDecodes(a: ActionSpec)
    ensures Utf8.Decode(ContentOf(a)).Some?
  {
    hide TextOf;
    Utf8.DecodeEncode(TextOf(a));
  }

  // The last step: the run is completed and the flow is finished.
  lemma StepComplete(site: Site, s: Sys, pid: string, p: Proc, w: Window, now: Time, k: Kernel, i: Inode)
    requires Ready(site, s, pid, w, i, 21) && Runs(s, pid, p)
    ensures var s' := Next(site, s, Advance(pid, now, k));
            && RunIs(s'.db, p.run, Completed) && s'.db.tables.approvals == s.db.tables.approvals && s'.dir == s.dir
            && pid !in s'.procs && |s'.finished| == |s.finished| + 1
  {
    hide ValidAction, TimeText.Representable, RightWrite, ActionDigest, PathOf, ContentOf, Exec, Successor, DirFits,
         ApprovalFits, CallsFit, Paid, ExactReadBack, ChargeOf;
    StageOf(p, 21);
    var op := OpOf(site, s, p, now).value;
    var row := DoMove(s.db, op);
  }

  predicate RunIs(db: Db, run: string, state: RunState) { run in db.tables.runs && db.tables.runs[run].state == state }

  // ---------- the whole flow ----------

  // n steps of one process, with nobody else in between.
  ghost function Steps(site: Site, s: Sys, pid: string, clock: nat -> Time, k: Kernel, n: nat): Sys {
    if n == 0 then s else Next(site, Steps(site, s, pid, clock, k, n - 1), Advance(pid, clock(n - 1), k))
  }

  lemma StepsNext(site: Site, s: Sys, pid: string, clock: nat -> Time, k: Kernel, n: nat, m: nat) returns (t: Sys)
    requires m == n + 1
    ensures t == Steps(site, s, pid, clock, k, n)
    ensures Steps(site, s, pid, clock, k, m) == Next(site, t, Advance(pid, clock(n), k))
  {
    hide Next;
    t := Steps(site, s, pid, clock, k, n);
  }

  // What the lemma of a stage says of its step.
  lemma OneStep(site: Site, s: Sys, pid: string, w: Window, now: Time, k: Kernel, r: nat)
    requires Ready(site, s, pid, w, k.inode, r) && r < 21 && !k.dropFails && Punctual(site, s, pid, w, r, now)
    ensures Goes(site, s, Next(site, s, Advance(pid, now, k)), pid, w, k.inode, r)
  {
    hide Ready, Next, Left, UsageAt, ContentOf, Budget.Within, Exhausted, CallLeft, Timely;
    match r
    case 0 => StepApproval(site, s, pid, w, now, k, k.inode, 0);
    case 1 => StepMove(site, s, pid, w, now, k, k.inode, 1);
    case 2 => StepDecide(site, s, pid, w, now, k, k.inode);
    case 3 => StepApproval(site, s, pid, w, now, k, k.inode, 3);
    case 4 => StepPropose(site, s, pid, w, now, k, k.inode, 4);
    case 5 => StepCall(site, s, pid, w, now, k, k.inode, 5);
    case 6 => StepPrepare(site, s, pid, w, now, k, k.inode);
    case 7 => StepPrecommit(site, s, pid, w, now, k, k.inode);
    case 8 => StepInstall(site, s, pid, w, now, k, k.inode);
    case 9 => StepDrop(site, s, pid, w, now, k, k.inode);
    case 10 => StepCall(site, s, pid, w, now, k, k.inode, 10);
    case 11 => StepApproval(site, s, pid, w, now, k, k.inode, 11);
    case 12 => StepCharge(site, s, pid, w, now, k, k.inode, 12);
    case 13 => StepMove(site, s, pid, w, now, k, k.inode, 13);
    case 14 => StepCheck(site, s, pid, w, now, k, k.inode);
    case 15 => StepPropose(site, s, pid, w, now, k, k.inode, 15);
    case 16 => StepCall(site, s, pid, w, now, k, k.inode, 16);
    case 17 => StepReadFile(site, s, pid, w, now, k, k.inode);
    case 18 => StepCall(site, s, pid, w, now, k, k.inode, 18);
    case 19 => StepCharge(site, s, pid, w, now, k, k.inode, 19);
    case 20 => StepRecord(site, s, pid, w, now, k, k.inode);
  }

  // Every reading of the clock comes when its step asks for it.
  ghost predicate OnTime(site: Site, p: Proc, w: Window, clock: nat -> Time) {
    forall r: nat :: r < 22 ==> Timely(site, p, w, r, clock(r))
  }

  ghost predicate OpenTo(w: Window, n: nat, r: int) { forall x: nat :: x < r ==> Gate(w, n, x) }

  ghost predicate OpenFor(w: Window, p: Proc, r: nat) { OpenTo(w, |ContentOf(p.action)|, r) }

  // The budget covers both calls of a flow.
  ghost predicate Affords(w: Window, p: Proc) { Headroom(w, |ContentOf(p.action)|) }

  predicate Flowing(p: Proc, t: Sys, pid: string) { pid in t.procs && SameFlow(p, t.procs[pid]) }

  // Stage by stage, with the binding of the flow unchanged.
  lemma {:induction false} StepsReady(site: Site, s: Sys, pid: string, p: Proc, w: Window, clock: nat -> Time, k: Kernel, n: nat)
    requires Ready(site, s, pid, w, k.inode, 0) && n <= 21 && !k.dropFails
    requires Runs(s, pid, p) && OnTime(site, p, w, clock) && OpenFor(w, p, n)
    ensures var t := Steps(site, s, pid, clock, k, n); Ready(site, t, pid, w, k.inode, n) && Flowing(p, t, pid)
  {
    hide Ready, Next, PathOf, ContentOf, Gate, Left, Timely;
    if n > 0 {
      var t := Steps(site, s, pid, clock, k, n - 1);
      StepsReady(site, s, pid, p, w, clock, k, n - 1);
      assert Timely(site, p, w, n - 1, clock(n - 1));
      SameTimes(site, p, t.procs[pid], w, n - 1, clock(n - 1));
      OneStep(site, t, pid, w, clock(n - 1), k, n - 1);
      ReadyHas(site, Steps(site, s, pid, clock, k, n), pid, w, k.inode, n);
      NextFollows(site, t, pid, clock(n - 1), k);
    }
  }

  lemma SameTimes(site: Site, p: Proc, q: Proc, w: Window, r: int, now: Time)
    requires SameFlow(p, q) && Timely(site, p, w, r, now)
    ensures Timely(site, q, w, r, now)
  {
    hide TimeText.Representable;
  }

  lemma ReadyHas(site: Site, s: Sys, pid: string, w: Window, i: Inode, r: int)
    requires Ready(site, s, pid, w, i, r)
    ensures pid in s.procs
  {
  }

  predicate Follows(s: Sys, t: Sys, pid: string) {
    pid in s.procs && pid in t.procs ==> SameFlow(s.procs[pid], t.procs[pid])
  }

  lemma WriteFollows(site: Site, s: Sys, pid: string, now: Time)
    ensures Follows(s, WriteStep(site, s, pid, now), pid)
  {
    hide OpOf, Exec, Acts, NextStage, Marks;
  }

  lemma LocalFollows(site: Site, s: Sys, pid: string, now: Time, k: Kernel)
    ensures Follows(s, LocalStep(site, s, pid, now, k), pid)
  {
    hide Acts, WriteAsked, ReadAllowed, ReadAction, ActionDigest, PrecommitPasses, Paths.ValidateRelative, PathOf, ContentOf,
         Readable, Utf8.Decode, NextStage, Extended, Created, Linked, Unlinked, ClaimMark;
  }

  lemma NextFollows(site: Site, s: Sys, pid: string, now: Time, k: Kernel)
    ensures Follows(s, Next(site, s, Advance(pid, now, k)), pid)
  {
    hide WriteStep, LocalStep, AtWrite, Follows;
    WriteFollows(site, s, pid, now);
    LocalFollows(site, s, pid, now, k);
  }

  // Nothing happens without the process.
  lemma {:induction false} StepsLeft(site: Site, s: Sys, pid: string, clock: nat -> Time, k: Kernel, m: nat, n: nat)
    requires m <= n && pid !in Steps(site, s, pid, clock, k, m).procs
    ensures Steps(site, s, pid, clock, k, n) == Steps(site, s, pid, clock, k, m)
  {
    hide Next, LocalStep;
    if m < n {
      StepsLeft(site, s, pid, clock, k, m, n - 1);
      var t := Steps(site, s, pid, clock, k, n - 1);
      LocalAdvances(site, t, pid, clock(n - 1), k);
      NoStep(site, t, pid, clock(n - 1), k);
    }
  }

  // The flow stops at its first closed gate.
  lemma FirstClosed(w: Window, n: nat) returns (r: int)
    requires !Headroom(w, n)
    ensures r in {2, 7, 12, 14, 19} && !Gate(w, n, r) && OpenTo(w, n, r)
  {
    HeadroomOpensGates(w, n);
    hide Budget.Within, UsageAt, Exhausted, CallLeft, Headroom;
    r := if !Gate(w, n, 2) then 2 else if !Gate(w, n, 7) then 7 else if !Gate(w, n, 12) then 12
         else if !Gate(w, n, 14) then 14 else 19;
  }

  // What a flow that stopped leaves behind.
  lemma Leaves(site: Site, s: Sys, t: Sys, pid: string, w: Window, i: Inode, r: int)
    requires Ready(site, s, pid, w, i, r) && r in {2, 7, 12, 14, 19} && Left(s, t, pid, r)
    ensures var p := s.procs[pid];
            && pid !in t.procs
            && p.run in t.db.tables.runs && t.db.tables.runs[p.run].state == StateAt(r)
            && p.approvalId in t.db.tables.approvals && t.db.tables.approvals[p.approvalId].status == StatusAt(r)
            && Readable(t.dir, PathOf(p.action)) == if r > 7 then Some(ContentOf(p.action)) else None
  {
    hide Fits, CallsFit, ContentOf, PathOf, ActionDigest, TimeText.Representable, UsageAt;
    if r > 9 { FileIsReadable(s.dir, s.procs[pid], r, i); }
  }

  // After the 22 steps of a whole flow.
  ghost function End(site: Site, s: Sys, pid: string, clock: nat -> Time, k: Kernel): Sys {
    Steps(site, s, pid, clock, k, 22)
  }

  // The end of an undisturbed flow, as its budget decides it.
  ghost predicate EndsAsBudgeted(end: Sys, pid: string, p: Proc, w: Window) {
    var n := |ContentOf(p.action)|;
    && pid !in end.procs && p.run in end.db.tables.runs && p.approvalId in end.db.tables.approvals
    && var state := end.db.tables.runs[p.run].state;
       && (state == Completed <==> Affords(w, p))
       && (state == Verifying <==> CoversWrite(w, n) && Budget.OthersWithin(w.limits, w.usage) && !Affords(w, p))
       && (state == Verifying ==> end.db.tables.approvals[p.approvalId].status == Consumed)
       && (CoversWrite(w, n) <==> Readable(end.dir, PathOf(p.action)) == Some(ContentOf(p.action)))
  }

  lemma FlowWithHeadroom(site: Site, s: Sys, pid: string, p: Proc, w: Window, clock: nat -> Time, k: Kernel)
    requires Ready(site, s, pid, w, k.inode, 0) && !k.dropFails && Runs(s, pid, p) && OnTime(site, p, w, clock)
    requires Affords(w, p)
    ensures var end := End(site, s, pid, clock, k); EndsAsBudgeted(end, pid, p, w) && |end.finished| > 0
  {
    hide Ready, Next, PathOf, ContentOf, OnTime, Gate, Headroom, Budget.OthersWithin, DirFits;
    HeadroomOpensGates(w, |ContentOf(p.action)|);
    StepsReady(site, s, pid, p, w, clock, k, 21);
    var t := StepsNext(site, s, pid, clock, k, 21, 22);
    ReadyRows(site, t, pid, w, k.inode, 21);
    StepComplete(site, t, pid, t.procs[pid], w, clock(21), k, k.inode);
    FileIsReadable(t.dir, t.procs[pid], 21, k.inode);
  }

  lemma FlowWithoutHeadroom(site: Site, s: Sys, pid: string, p: Proc, w: Window, clock: nat -> Time, k: Kernel)
    requires Ready(site, s, pid, w, k.inode, 0) && !k.dropFails && Runs(s, pid, p) && OnTime(site, p, w, clock)
    requires !Affords(w, p)
    ensures EndsAsBudgeted(End(site, s, pid, clock, k), pid, p, w)
  {
    hide Ready, Next, PathOf, ContentOf, Gate, Headroom, Budget.OthersWithin, Left, Timely, Readable;
    var n := |ContentOf(p.action)|;
    HeadroomOpensGates(w, n);
    var r := FirstClosed(w, n);
    StepsReady(site, s, pid, p, w, clock, k, r);
    var t := StepsNext(site, s, pid, clock, k, r, r + 1);
    assert Timely(site, p, w, r, clock(r));
    SameTimes(site, p, t.procs[pid], w, r, clock(r));
    OneStep(site, t, pid, w, clock(r), k, r);
    Leaves(site, t, Steps(site, s, pid, clock, k, r + 1), pid, w, k.inode, r);
    StepsLeft(site, s, pid, clock, k, r + 1, 22);
  }

  lemma ReadyRows(site: Site, s: Sys, pid: string, w: Window, i: Inode, r: int)
    requires Ready(site, s, pid, w, i, r)
    ensures pid in s.procs && DirFits(s.dir, s.procs[pid], r, i) && s.procs[pid].approvalId in s.db.tables.approvals
  {
    hide Fits, RunFits, CallsFit, DirFits, Paid, ActionDigest;
  }

  /** An approved action that nobody disturbs takes effect as far as its budget goes.  From
      a loaded flow whose approval is pending and whose policy and sandbox allow it, on any
      clock that keeps to the expiry and the lease, after 22 steps:
      the run is COMPLETED if and only if the budget covers both tool calls, the write and
      its read-back; the approved content is in the sandbox under the approved name if and
      only if the budget covers the write; and where it covers the write but not the
      read-back the run is left in VERIFYING, its approval consumed, with nobody to go on. */
  lemma UndisturbedFlowCompletes(site: Site, s: Sys, pid: string, p: Proc, w: Window, clock: nat -> Time, k: Kernel)
    requires Ready(site, s, pid, w, k.inode, 0) && !k.dropFails && Runs(s, pid, p) && OnTime(site, p, w, clock)
    ensures var end := End(site, s, pid, clock, k);
            EndsAsBudgeted(end, pid, p, w) && (Affords(w, p) ==> |end.finished| > 0)
  {
    hide Ready, End, OnTime, Affords, EndsAsBudgeted;
    if Affords(w, p) {
      FlowWithHeadroom(site, s, pid, p, w, clock, k);
    } else {
      FlowWithoutHeadroom(site, s, pid, p, w, clock, k);
    }
  }
}
