/** Safety of the approved-effect protocol over every interleaving: at most one
    installed file per approval, always the approved one, and completion only with its
    evidence. */
module Effects {
  import opened Domain
  import opened Projections
  import opened Repositories
  import opened Histories
  import opened Invariants
  import opened Growth
  import opened Actions
  import opened Policy
  import opened Files
  import opened Protocol
  import Budget
  import Paths
  import TimeText
  import Utf8

  // ---------- what a process knows ----------

  // The i-th milestone of a process, as an event of the journal.
  predicate Milestone(site: Site, e: Event, i: nat, p: Proc) {
    var y, h := e.payload, site.env.hash;
    e.runId == p.run &&
    if i == 0 then y == ApprovalApproved(p.approvalId) && e.actorId == site.owner
    else if i == 1 then y.RunStateChanged? && y.newState == Executing
    else if i == 2 then y == ApprovalClaimed(p.approvalId, p.action.requesterId)
    else if i == 3 then
      y.ToolCallStateChanged? && y.callId == p.callId && y.state == CallText(Succeeded, true) &&
      y.result.Some? && y.result.value.sha256 == h(ContentOf(p.action))
    else if i == 4 then y == ApprovalConsumed(p.approvalId, p.action.requesterId)
    else if i == 5 then y.RunStateChanged? && y.newState == Verifying
    else if i == 6 then
      y.ToolCallStateChanged? && y.callId == p.readId && y.state == CallText(Succeeded, true) &&
      y.result.Some? && y.result.value.sha256 == h(p.seen)
    else if i == 7 then
      y.ArtifactRecorded? && y.artifact.verification == "VERIFIED" && y.artifact.toolCallId == Some(p.callId) &&
      y.artifact.digest == h(p.seen) && Some(y.artifact.digest) == p.action.contentSha256 &&
      Some(y.artifact.byteLength) == p.action.contentLength
    else y.RunStateChanged? && y.newState == Completed
  }

  // The milestones reached so far are in the journal, in order.
  ghost predicate MarksOk(site: Site, journal: seq<Event>, p: Proc) {
    && |p.marks| == Milestones(p.stage)
    && (forall i :: 0 <= i < |p.marks| ==>
          p.marks[i] < |journal| && Milestone(site, journal[p.marks[i]], i, p))
    && (forall i, j :: 0 <= i < j < |p.marks| ==> p.marks[i] < p.marks[j])
  }

  ghost predicate NotCancelledBefore(journal: seq<Event>, run: string, n: nat) {
    n <= |journal| &&
    forall k :: 0 <= k < n ==> !(journal[k].payload.RunCancelled? && journal[k].runId == run)
  }

  // At moment t, with a journal of n events, the action was not expired, the run was
  // under a lease that was not over, and its budget had room for the write.
  predicate CheckedInTime(journal: seq<Event>, run: string, a: ActionSpec, n: nat, t: Time) {
    n <= |journal| && Fold(journal[..n]).Some? && t < a.expiresAt && a.contentLength.Some? &&
    var was := Fold(journal[..n]).value;
    && run in was.runs && was.runs[run].leaseExpiresAt.Some? && t <= was.runs[run].leaseExpiresAt.value
    && run in was.budgets
    && var b := was.budgets[run];
       && Budget.Used(b.usage, "tool_calls") < b.limits.maxToolCalls
       && Budget.Used(b.usage, "bytes") + a.contentLength.value <= b.limits.maxBytes
  }

  predicate BoundTo(row: ApprovalRow, site: Site, a: ActionSpec, digest: string) {
    row.status in {Claimed, Consumed} && row.actionDigest == digest && row.requesterId == a.requesterId &&
    row.runId == a.runId && row.ownerId == site.owner && a.ownerId == site.owner
  }

  predicate CallOf(db: Db, id: string, run: string) { id in db.tables.calls && db.tables.calls[id].runId == run }

  // The call row of the write names the approval and the digest of the action.
  ghost predicate WriteCallOf(site: Site, db: Db, p: Proc)
    requires Dated(p.action)
  {
    CallOf(db, p.callId, p.run) && db.tables.calls[p.callId].approvalId == Some(p.approvalId) &&
    db.tables.calls[p.callId].actionDigest == ActionDigest(site.env.hash, p.action)
  }

  ghost predicate RightWrite(site: Site, a: ActionSpec) {
    Arguments(a).Some? && ExactWrite(site.env, a, Arguments(a).value, site.sandbox)
  }

  ghost predicate Sound(site: Site, a: ActionSpec) {
    Dated(a) && ValidAction(site.env.hash, a) && a.ownerId == site.owner
  }

  ghost predicate Claimant(site: Site, db: Db, p: Proc)
    requires Dated(p.action)
  {
    p.run == p.action.runId && p.approvalId in db.tables.approvals &&
    BoundTo(db.tables.approvals[p.approvalId], site, p.action, ActionDigest(site.env.hash, p.action))
  }

  // What a process at rank r has established.
  ghost predicate Known(site: Site, db: Db, p: Proc, r: nat)
    requires Dated(p.action) && p.approvalId in db.tables.approvals
  {
    && (r >= 1 ==> db.tables.approvals[p.approvalId].ownerId == site.owner)
    && (r >= 3 ==> RightWrite(site, p.action))
    && (r >= 4 ==> Claimant(site, db, p))
    && (r >= 5 ==> WriteCallOf(site, db, p))
    && (r >= 8 ==> ClaimMark(p) < p.cleared && NotCancelledBefore(db.journal, p.run, p.cleared))
    && (r >= 8 ==> CheckedInTime(db.journal, p.run, p.action, p.cleared, p.checkedAt))
    && (r >= 16 ==> CallOf(db, p.readId, p.run))
    && (r >= 20 ==> ExactReadBack(site, p))
  }

  ghost predicate ProcDb(site: Site, db: Db, p: Proc) {
    && Sound(site, p.action)
    && p.approvalId in db.tables.approvals && db.tables.approvals[p.approvalId].runId == p.run
    && MarksOk(site, db.journal, p) && Known(site, db, p, Rank(p.stage))
  }

  predicate ProcDir(dir: Directory, p: Proc) {
    HoldsTemp(p) ==>
      p.temp in dir.names && dir.names[p.temp] in dir.data && dir.data[dir.names[p.temp]] == ContentOf(p.action)
  }

  predicate AllDirs(dir: Directory, procs: map<string, Proc>) { forall x :: x in procs ==> ProcDir(dir, procs[x]) }

  // ---------- what an installed file was authorized by ----------

  ghost predicate Authorized(site: Site, db: Db, ins: Install) {
    && Sound(site, ins.action) && RightWrite(site, ins.action)
    && ins.approvalId in db.tables.approvals
    && BoundTo(db.tables.approvals[ins.approvalId], site, ins.action, ActionDigest(site.env.hash, ins.action))
    && ins.claim < ins.cleared && NotCancelledBefore(db.journal, ins.action.runId, ins.cleared)
    && CheckedInTime(db.journal, ins.action.runId, ins.action, ins.cleared, ins.checkedAt)
    && db.journal[ins.claim].payload == ApprovalClaimed(ins.approvalId, ins.action.requesterId)
    && ins.name == PathOf(ins.action) && ins.content == ContentOf(ins.action)
  }

  ghost predicate CompletedBy(finished: seq<Proc>, k: nat) {
    exists f :: 0 <= f < |finished| && |finished[f].marks| == 9 && finished[f].marks[8] == k
  }

  // ---------- the invariant ----------

  ghost predicate DbOk(db: Db) { Inv(db) && LegalHistory(db.journal) && NoRevival(db) }

  predicate Holds(p: Proc) { Rank(p.stage) >= 4 }

  predicate Pending(p: Proc) { 4 <= Rank(p.stage) <= 8 }

  ghost predicate ProcsOk(site: Site, s: Sys) {
    && (forall pid :: pid in s.procs ==> ProcDb(site, s.db, s.procs[pid]) && ProcDir(s.dir, s.procs[pid]))
    && (forall x, y :: x in s.procs && y in s.procs && x != y && HoldsTemp(s.procs[x]) && HoldsTemp(s.procs[y]) ==>
          s.procs[x].temp != s.procs[y].temp)
    && (forall x, y :: x in s.procs && y in s.procs && x != y && Holds(s.procs[x]) && Holds(s.procs[y]) ==>
          ClaimMark(s.procs[x]) != ClaimMark(s.procs[y]))
  }

  ghost predicate InstallsOk(site: Site, s: Sys) {
    && (forall k :: 0 <= k < |s.installs| ==> Authorized(site, s.db, s.installs[k]))
    && (forall k, l :: 0 <= k < l < |s.installs| ==> s.installs[k].claim != s.installs[l].claim)
    && (forall k, pid :: 0 <= k < |s.installs| && pid in s.procs && Pending(s.procs[pid]) ==>
          s.installs[k].claim != ClaimMark(s.procs[pid]))
  }

  ghost predicate AllFinished(site: Site, db: Db, finished: seq<Proc>) {
    forall f :: 0 <= f < |finished| ==> finished[f].stage.Finished? && ProcDb(site, db, finished[f])
  }

  ghost predicate FinishedOk(site: Site, s: Sys) {
    && AllFinished(site, s.db, s.finished)
    && (forall k :: 0 <= k < |s.db.journal| && Completes(s.db.journal[k].payload) ==> CompletedBy(s.finished, k))
  }

  ghost predicate SysInv(site: Site, s: Sys) {
    DbOk(s.db) && Intact(s.dir) && ProcsOk(site, s) && InstallsOk(site, s) && FinishedOk(site, s)
  }

  // ---------- other people's database steps ----------

  lemma KeptMarks(site: Site, j: seq<Event>, j': seq<Event>, p: Proc)
    requires MarksOk(site, j, p) && j <= j'
    ensures MarksOk(site, j', p)
  {
    forall i | 0 <= i < |p.marks|
      ensures p.marks[i] < |j'| && Milestone(site, j'[p.marks[i]], i, p)
    {
      assert j'[p.marks[i]] == j[p.marks[i]];
    }
  }

  lemma KeptCheck(j: seq<Event>, j': seq<Event>, run: string, a: ActionSpec, n: nat, t: Time)
    requires CheckedInTime(j, run, a, n, t) && j <= j'
    ensures CheckedInTime(j', run, a, n, t)
  {
    assert j'[..n] == j[..n];
  }

  lemma KeptKnown(site: Site, db: Db, db': Db, p: Proc, r: nat)
    requires Dated(p.action) && p.approvalId in db.tables.approvals
    requires Known(site, db, p, r) && Kept(db, db')
    ensures p.approvalId in db'.tables.approvals
    ensures db'.tables.approvals[p.approvalId].runId == db.tables.approvals[p.approvalId].runId
    ensures Known(site, db', p, r)
  {
    hide RightWrite, TimeText.Representable, ActionDigest, ExactReadBack, CheckedInTime;
    assert SameBinding(db.tables.approvals[p.approvalId], db'.tables.approvals[p.approvalId]);
    if r >= 8 { KeptCheck(db.journal, db'.journal, p.run, p.action, p.cleared, p.checkedAt); }
  }

  lemma KeptProc(site: Site, db: Db, db': Db, p: Proc)
    requires ProcDb(site, db, p) && Kept(db, db')
    ensures ProcDb(site, db', p)
  {
    hide Known, MarksOk, Kept, ValidAction, TimeText.Representable, Rank;
    KeptMarks(site, db.journal, db'.journal, p) by { assert db.journal <= db'.journal by { KeptJournal(db, db'); } }
    KeptKnown(site, db, db', p, Rank(p.stage));
  }

  lemma KeptJournal(db: Db, db': Db)
    requires Kept(db, db')
    ensures db.journal <= db'.journal
  {
  }

  lemma KeptInstall(site: Site, db: Db, db': Db, ins: Install)
    requires Authorized(site, db, ins) && Kept(db, db')
    ensures Authorized(site, db', ins)
  {
    hide Sound, RightWrite, Dated, CheckedInTime;
    assert SameBinding(db.tables.approvals[ins.approvalId], db'.tables.approvals[ins.approvalId]);
    KeptCheck(db.journal, db'.journal, ins.action.runId, ins.action, ins.cleared, ins.checkedAt);
  }

  lemma PiecesKept(site: Site, s: Sys, db': Db)
    requires SysInv(site, s) && Kept(s.db, db')
    ensures ProcsOk(site, s.(db := db')) && InstallsOk(site, s.(db := db'))
    ensures AllFinished(site, db', s.finished)
  {
    hide ProcDb, ProcDir, Authorized, DbOk, Kept;
    forall pid | pid in s.procs ensures ProcDb(site, db', s.procs[pid]) { KeptProc(site, s.db, db', s.procs[pid]); }
    forall k | 0 <= k < |s.installs| ensures Authorized(site, db', s.installs[k]) {
      KeptInstall(site, s.db, db', s.installs[k]);
    }
    forall f | 0 <= f < |s.finished| ensures ProcDb(site, db', s.finished[f]) {
      KeptProc(site, s.db, db', s.finished[f]);
    }
  }

  lemma DbStep(site: Site, s: Sys, db': Db)
    requires SysInv(site, s) && DbOk(db') && Kept(s.db, db') && NoneCompleted(s.db, db')
    ensures SysInv(site, s.(db := db'))
  {
    hide ProcDb, ProcsOk, InstallsOk, DbOk;
    PiecesKept(site, s, db');
    forall k | 0 <= k < |db'.journal| && Completes(db'.journal[k].payload) ensures CompletedBy(s.finished, k) {
      assert k < |s.db.journal| && db'.journal[k] == s.db.journal[k];
    }
  }

  lemma ExecOk(db: Db, op: Op)
    requires DbOk(db) && CheckedOp(op)
    ensures DbOk(Exec(db, op).0) && Kept(db, Exec(db, op).0)
    ensures !Completing(op) ==> NoneCompleted(db, Exec(db, op).0)
  {
    InvExec(db, op, true);
    ExecGrows(db, op);
  }

  lemma ClientStep(site: Site, s: Sys, op: Op)
    requires SysInv(site, s) && ClientOp(op)
    ensures SysInv(site, s.(db := Exec(s.db, op).0))
  {
    hide ProcsOk, InstallsOk, FinishedOk;
    ExecOk(s.db, op);
    DbStep(site, s, Exec(s.db, op).0);
  }

  // ---------- changing the set of processes ----------

  lemma Gone(site: Site, s: Sys, pid: string)
    requires SysInv(site, s)
    ensures SysInv(site, s.(procs := s.procs - {pid}))
  {
    hide ProcDb, ProcDir, Authorized, DbOk;
  }

  // q takes the place of the process pid: its claim is the old one, or a fresh one.
  lemma Replace(site: Site, s: Sys, pid: string, p: Proc, q: Proc)
    requires SysInv(site, s) && Runs(s, pid, p) && ProcDb(site, s.db, q) && ProcDir(s.dir, q)
    requires HoldsTemp(q) ==> (HoldsTemp(p) && q.temp == p.temp) || FreeTemp(s, pid, q.temp)
    requires Holds(q) ==> FreshClaim(s, pid, ClaimMark(q)) || (Holds(p) && ClaimMark(q) == ClaimMark(p))
    requires Pending(q) ==> Pending(p) || FreshClaim(s, pid, ClaimMark(q))
    ensures SysInv(site, s.(procs := s.procs[pid := q]))
  {
    hide ProcDb, ProcDir, Authorized, DbOk;
  }

  predicate FreeTemp(s: Sys, pid: string, temp: string) {
    forall x :: x in s.procs && x != pid && HoldsTemp(s.procs[x]) ==> s.procs[x].temp != temp
  }

  ghost predicate FreshClaim(s: Sys, pid: string, claim: nat) {
    && (forall x :: x in s.procs && x != pid && Holds(s.procs[x]) ==> ClaimMark(s.procs[x]) != claim)
    && (forall k :: 0 <= k < |s.installs| ==> s.installs[k].claim != claim)
  }

  // ---------- the events of the database steps ----------

  lemma RecordEvent(db: Db, d: Draft)
    requires Exec(db, Record(d)).1 == Done
    ensures Exec(db, Record(d)).0.journal == db.journal + [NextEvent(db.journal, d)]
    ensures d.payload.ToolCallProposed? ==>
              var rows := Exec(db, Record(d)).0.tables.calls; var id := d.payload.callId;
              id in rows && rows[id].runId == d.runId && rows[id].approvalId == d.payload.callApproval &&
              rows[id].actionDigest == d.payload.actionDigest
  {
  }

  lemma MoveEvent(db: Db, op: Op)
    requires op.MoveRun? && Exec(db, op).1 == Done
    ensures Exec(db, op).0.journal ==
            db.journal + [NextEvent(db.journal, Draft(op.run, op.actor, op.at, RunStateChanged(op.target, op.reason, op.lease)))]
  {
  }

  lemma CallEvent(db: Db, op: Op, run: string)
    requires op.CallStep? && Exec(db, op).1 == Done && CallOf(db, op.id, run)
    ensures Exec(db, op).0.journal ==
            db.journal + [NextEvent(db.journal, Draft(run, op.actor, op.at,
                                                      ToolCallStateChanged(op.id, op.state, op.result, op.error)))]
  {
  }

  lemma GrantEvent(db: Db, op: Op)
    requires op.Grant? && Exec(db, op).1 == Done
    ensures op.id in db.tables.approvals && db.tables.approvals[op.id].ownerId == op.owner
    ensures Exec(db, op).0.journal ==
            db.journal + [NextEvent(db.journal, Draft(db.tables.approvals[op.id].runId, op.owner, op.at, ApprovalApproved(op.id)))]
  {
  }

  lemma TakeEvent(db: Db, op: Op)
    requires op.Take? && Exec(db, op).1 == Done
    ensures var c, db' := op.claim, Exec(db, op).0;
            && c.approvalId in db.tables.approvals && ClaimRejection(db.tables.approvals[c.approvalId], c).None?
            && db'.journal == db.journal + [NextEvent(db.journal, Draft(c.runId, c.claimedBy, c.at,
                                                                        ApprovalClaimed(c.approvalId, c.claimedBy)))]
            && c.approvalId in db'.tables.approvals && db'.tables.approvals[c.approvalId].status == Claimed
            && SameBinding(db.tables.approvals[c.approvalId], db'.tables.approvals[c.approvalId])
  {
  }

  lemma UseEvent(db: Db, op: Op)
    requires op.Use? && Exec(db, op).1 == Done
    ensures op.id in db.tables.approvals
    ensures Exec(db, op).0.journal ==
            db.journal + [NextEvent(db.journal, Draft(db.tables.approvals[op.id].runId, op.claimedBy, op.at,
                                                      ApprovalConsumed(op.id, op.claimedBy)))]
  {
  }

  // ---------- one database step of a process ----------

  // What a process at rank r learns by its write, beyond its milestone.
  ghost predicate Learned(site: Site, db: Db, p: Proc, r: nat)
    requires Dated(p.action) && p.approvalId in db.tables.approvals
  {
    && r !in {2, 7}
    && (r == 0 ==> db.tables.approvals[p.approvalId].ownerId == site.owner)
    && (r == 3 ==> Claimant(site, db, p))
    && (r == 4 ==> WriteCallOf(site, db, p))
    && (r == 15 ==> CallOf(db, p.readId, p.run))
    && (r == 19 ==> ExactReadBack(site, p))
  }

  lemma RankNext(s: Stage)
    requires s != Finished
    ensures Rank(NextStage(s)) == Rank(s) + 1
    ensures Marks(s) ==> Milestones(NextStage(s)) == Milestones(s) + 1
    ensures !Marks(s) ==> Milestones(NextStage(s)) == Milestones(s)
    ensures Rank(s) >= 4 ==> Milestones(s) >= 3
  {
  }

  lemma MarkAdded(site: Site, j: seq<Event>, p: Proc, e: Event)
    requires MarksOk(site, j, p) && p.stage != Finished
    requires Marks(p.stage) ==> Milestone(site, e, |p.marks|, p)
    ensures MarksOk(site, j + [e], Successor(p, |j|))
    ensures Rank(p.stage) >= 4 ==> ClaimMark(Successor(p, |j|)) == ClaimMark(p)
  {
    hide Rank, Milestones, Marks, Milestone, NextStage;
    RankNext(p.stage);
    KeptMarks(site, j, j + [e], p);
    var q := Successor(p, |j|);
    forall i | 0 <= i < |q.marks| ensures q.marks[i] < |j + [e]| && Milestone(site, (j + [e])[q.marks[i]], i, q) {
      SameMilestone(site, (j + [e])[q.marks[i]], i, p, q);
    }
  }

  // A milestone does not depend on the stage or on the marks.
  lemma SameMilestone(site: Site, e: Event, i: nat, p: Proc, q: Proc)
    requires q == p.(stage := q.stage, marks := q.marks)
    ensures Milestone(site, e, i, p) == Milestone(site, e, i, q)
  {
  }

  lemma KnownAdvances(site: Site, db: Db, p: Proc, q: Proc, r: nat)
    requires Dated(p.action) && p.approvalId in db.tables.approvals
    requires Known(site, db, p, r) && Learned(site, db, p, r)
    requires q == p.(stage := q.stage, marks := q.marks) && (r >= 4 ==> ClaimMark(q) == ClaimMark(p))
    ensures Known(site, db, q, r + 1)
  {
    hide RightWrite, TimeText.Representable, CallOf, BoundTo, NotCancelledBefore, CheckedInTime, ClaimMark, ActionDigest, ContentOf, TextOf,
         Utf8.Decode;
  }

  lemma ProcAdvances(site: Site, db: Db, db': Db, p: Proc, e: Event)
    requires ProcDb(site, db, p) && Kept(db, db') && p.stage != Finished
    requires db'.journal == db.journal + [e] && p.approvalId in db'.tables.approvals
    requires Learned(site, db', p, Rank(p.stage))
    requires Marks(p.stage) ==> Milestone(site, e, |p.marks|, p)
    ensures ProcDb(site, db', Successor(p, |db.journal|))
  {
    hide Known, ValidAction, TimeText.Representable, MarksOk, Milestone, Kept, Rank, NextStage, Milestones, ClaimMark, Learned;
    MarkAdded(site, db.journal, p, e);
    KeptKnown(site, db, db', p, Rank(p.stage));
    RankNext(p.stage);
    KnownAdvances(site, db', p, Successor(p, |db.journal|), Rank(p.stage));
  }

  // The outcome of a successful write of p: its event, its milestone and its news.
  ghost predicate Wrote(site: Site, s: Sys, p: Proc, at: Time, e: Event) {
    var op := OpOf(site, s, p, at);
    Dated(p.action) && op.Some? && CheckedOp(op.value) &&
    var db' := Exec(s.db, op.value).0;
    && db'.journal == s.db.journal + [e]
    && (Marks(p.stage) ==> Milestone(site, e, |p.marks|, p))
    && p.approvalId in db'.tables.approvals && Learned(site, db', p, Rank(p.stage))
  }

  // The write of p can be performed.
  ghost predicate Performs(site: Site, s: Sys, p: Proc, at: Time) {
    && ProcDb(site, s.db, p)
    && OpOf(site, s, p, at).Some? && Exec(s.db, OpOf(site, s, p, at).value).1 == Done
    && Kept(s.db, Exec(s.db, OpOf(site, s, p, at).value).0)
  }

  lemma MarkCount(site: Site, db: Db, p: Proc)
    requires ProcDb(site, db, p)
    ensures |p.marks| == Milestones(p.stage)
  {
    hide Sound, Known, Milestone;
  }

  lemma WriteLoaded(site: Site, s: Sys, p: Proc, at: Time) returns (e: Event)
    requires Performs(site, s, p, at) && p.stage == Loaded
    ensures Wrote(site, s, p, at, e)
  {
    hide ValidAction, TimeText.Representable, RightWrite, BoundTo, Exec;
    var op := OpOf(site, s, p, at).value;
    GrantEvent(s.db, op);
    e := NextEvent(s.db.journal,
                   Draft(s.db.tables.approvals[p.approvalId].runId, site.owner, at, ApprovalApproved(p.approvalId)));
    assert SameBinding(s.db.tables.approvals[p.approvalId], Exec(s.db, op).0.tables.approvals[p.approvalId]);
  }

  lemma WriteDecided(site: Site, s: Sys, p: Proc, at: Time) returns (e: Event)
    requires Performs(site, s, p, at) && p.stage == Decided
    ensures Wrote(site, s, p, at, e)
  {
    hide ValidAction, TimeText.Representable, RightWrite, Exec, ActionDigest, Kept, CanTransition, ExactReadBack, ContentOf,
         PathOf, NotCancelledBefore, CheckedInTime;
    var op := OpOf(site, s, p, at).value;
    TakeEvent(s.db, op);
    var c := op.claim;
    e := NextEvent(s.db.journal, Draft(c.runId, c.claimedBy, c.at, ApprovalClaimed(c.approvalId, c.claimedBy)));
  }

  lemma WriteMove(site: Site, s: Sys, p: Proc, at: Time) returns (e: Event)
    requires Performs(site, s, p, at) && p.stage in {Granted, Charged, Recorded}
    ensures Wrote(site, s, p, at, e)
  {
    hide ValidAction, TimeText.Representable, RightWrite, BoundTo, Exec, Known, Kept;
    var op := OpOf(site, s, p, at).value;
    MoveEvent(s.db, op);
    e := NextEvent(s.db.journal, Draft(op.run, op.actor, op.at, RunStateChanged(op.target, op.reason, op.lease)));
    KeptKnown(site, s.db, Exec(s.db, op).0, p, Rank(p.stage));
  }

  lemma RunOfAction(site: Site, db: Db, p: Proc)
    requires ProcDb(site, db, p) && Rank(p.stage) >= 4
    ensures p.action.runId == p.run
  {
    hide ValidAction, TimeText.Representable, RightWrite, MarksOk, NotCancelledBefore, CheckedInTime;
  }

  lemma CallsOf(site: Site, db: Db, p: Proc)
    requires ProcDb(site, db, p)
    ensures Rank(p.stage) >= 5 ==> CallOf(db, p.callId, p.run)
    ensures Rank(p.stage) >= 16 ==> CallOf(db, p.readId, p.run)
  {
    hide ValidAction, TimeText.Representable, RightWrite, MarksOk, NotCancelledBefore, CheckedInTime, Rank, ExactReadBack, ActionDigest;
  }

  // A proposal or a charge: the news is in the row, or in the test before it.
  lemma WriteRecord(site: Site, s: Sys, p: Proc, at: Time) returns (e: Event)
    requires Performs(site, s, p, at) && p.stage in {Holding, Spent, Permitted, ReadBack}
    ensures Wrote(site, s, p, at, e)
  {
    hide ActionDigest, ValidAction, TimeText.Representable, RightWrite, Exec, Kept, Milestone, MarksOk, NotCancelledBefore, CheckedInTime,
         NextEvent, ExactReadBack, BoundTo, Known, SameBinding, ContentOf, PathOf, Checked, Budget.Within, Budget.Spend;
    if p.stage == Holding { RunOfAction(site, s.db, p); }
    var op := OpOf(site, s, p, at).value;
    RecordEvent(s.db, op.draft);
    e := NextEvent(s.db.journal, op.draft);
    KeptKnown(site, s.db, Exec(s.db, op).0, p, Rank(p.stage));
  }

  // A change of one of the two calls.
  lemma WriteCall(site: Site, s: Sys, p: Proc, at: Time) returns (e: Event)
    requires Performs(site, s, p, at) && p.stage in {Announced, Dropped, ReadAnnounced, Seen}
    ensures Wrote(site, s, p, at, e)
  {
    hide ValidAction, TimeText.Representable, RightWrite, BoundTo, Exec, Kept, Known, SameBinding,
         ExactReadBack, Checked, ChargeOf, MarksOk, NotCancelledBefore, CheckedInTime, ContentOf, PathOf;
    CallsOf(site, s.db, p);
    MarkCount(site, s.db, p);
    var op := OpOf(site, s, p, at).value;
    CallEvent(s.db, op, p.run);
    e := NextEvent(s.db.journal, Draft(p.run, op.actor, op.at, ToolCallStateChanged(op.id, op.state, op.result, op.error)));
    KeptKnown(site, s.db, Exec(s.db, op).0, p, Rank(p.stage));
  }

  lemma WriteUse(site: Site, s: Sys, p: Proc, at: Time) returns (e: Event)
    requires Performs(site, s, p, at) && p.stage == Written
    ensures Wrote(site, s, p, at, e)
  {
    hide ValidAction, TimeText.Representable, RightWrite, BoundTo, Exec, Kept, ActionDigest, ContentOf, PathOf, ExactReadBack,
         NotCancelledBefore, CheckedInTime, Checked, ChargeOf;
    var op := OpOf(site, s, p, at).value;
    UseEvent(s.db, op);
    e := NextEvent(s.db.journal, Draft(p.run, op.claimedBy, op.at, ApprovalConsumed(op.id, op.claimedBy)));
    KeptKnown(site, s.db, Exec(s.db, op).0, p, Rank(p.stage));
  }

  lemma WriteArtifact(site: Site, s: Sys, p: Proc, at: Time) returns (e: Event)
    requires Performs(site, s, p, at) && p.stage == Settled
    ensures Wrote(site, s, p, at, e)
  {
    hide ValidAction, TimeText.Representable, RightWrite, BoundTo, Exec, Kept, Known, SameBinding,
         CanTransition, MarksOk, NotCancelledBefore, CheckedInTime, ContentOf, TextOf, PathOf, Utf8.Decode;
    MarkCount(site, s.db, p);
    ReadBackKnown(site, s.db, p);
    var op := OpOf(site, s, p, at).value;
    RecordEvent(s.db, op.draft);
    e := NextEvent(s.db.journal, op.draft);
    KeptKnown(site, s.db, Exec(s.db, op).0, p, Rank(p.stage));
  }

  lemma ReadBackKnown(site: Site, db: Db, p: Proc)
    requires ProcDb(site, db, p) && p.stage == Settled
    ensures ExactReadBack(site, p)
  {
    hide ValidAction, TimeText.Representable, RightWrite, MarksOk, NotCancelledBefore, CheckedInTime, ExactReadBack, ActionDigest, BoundTo;
  }

  lemma Writes(site: Site, s: Sys, p: Proc, at: Time) returns (e: Event)
    requires Performs(site, s, p, at) && IsWrite(p.stage)
    ensures Wrote(site, s, p, at, e)
  {
    hide Performs, Wrote;
    if p.stage == Loaded { e := WriteLoaded(site, s, p, at); }
    else if p.stage == Decided { e := WriteDecided(site, s, p, at); }
    else if p.stage in {Granted, Charged, Recorded} { e := WriteMove(site, s, p, at); }
    else if p.stage in {Holding, Spent, Permitted, ReadBack} { e := WriteRecord(site, s, p, at); }
    else if p.stage in {Announced, Dropped, ReadAnnounced, Seen} { e := WriteCall(site, s, p, at); }
    else if p.stage == Written { e := WriteUse(site, s, p, at); }
    else { e := WriteArtifact(site, s, p, at); }
  }

  lemma OpChecked(site: Site, s: Sys, p: Proc, op: Op, at: Time)
    requires OpOf(site, s, p, at) == Some(op)
    ensures CheckedOp(op) && (Completing(op) ==> p.stage == Recorded)
    ensures p.stage == Recorded ==> op.MoveRun? && Completing(op)
  {
    hide TimeText.Representable, ActionDigest, ContentOf, PathOf, ExactReadBack;
  }

  // Marks of everyone lie below the journal's end, so a new claim is fresh.
  lemma NewClaimIsFresh(site: Site, s: Sys, pid: string)
    requires SysInv(site, s)
    ensures FreshClaim(s, pid, |s.db.journal|)
  {
    hide DbOk, Sound, RightWrite, Known, FinishedOk, BoundTo, Milestone;
    forall x | x in s.procs && Holds(s.procs[x]) ensures ClaimMark(s.procs[x]) < |s.db.journal| {
      ClaimBelow(site, s.db, s.procs[x]);
    }
    forall k | 0 <= k < |s.installs| ensures s.installs[k].claim < |s.db.journal| {
      assert Authorized(site, s.db, s.installs[k]);
    }
  }

  lemma ClaimBelow(site: Site, db: Db, p: Proc)
    requires ProcDb(site, db, p) && Holds(p)
    ensures ClaimMark(p) < |db.journal| && |p.marks| > 2
  {
    hide Sound, RightWrite, Known, Milestone;
  }

  lemma SuccessorShape(site: Site, j: seq<Event>, p: Proc)
    requires IsWrite(p.stage) && MarksOk(site, j, p)
    ensures var q := Successor(p, |j|);
            && q.temp == p.temp && !HoldsTemp(q)
            && (Holds(q) && !Holds(p) ==> ClaimMark(q) == |j|)
            && (Holds(p) ==> Holds(q) && ClaimMark(q) == ClaimMark(p))
            && (Pending(q) && !Pending(p) ==> ClaimMark(q) == |j|)
            && (p.stage != Recorded ==> q.stage != Finished)
            && (p.stage == Recorded ==> q.stage == Finished && |q.marks| == 9 && q.marks[8] == |j|)
  {
    hide Milestone;
  }

  lemma ProcOf(site: Site, s: Sys, pid: string, p: Proc)
    requires SysInv(site, s) && Runs(s, pid, p)
    ensures ProcDb(site, s.db, p) && ProcDir(s.dir, p) && DbOk(s.db) && Intact(s.dir)
  {
    hide ProcDb, ProcDir, DbOk, InstallsOk, FinishedOk;
  }

  lemma MarksOf(site: Site, db: Db, p: Proc)
    requires ProcDb(site, db, p)
    ensures MarksOk(site, db.journal, p) && Dated(p.action) && ValidAction(site.env.hash, p.action)
    ensures p.action.ownerId == site.owner
  {
    hide MarksOk, Known, TimeText.Representable, ValidAction;
  }

  lemma WriteGoesOn(site: Site, s: Sys, pid: string, p: Proc, db': Db)
    requires SysInv(site, s) && Runs(s, pid, p) && IsWrite(p.stage) && p.stage != Recorded
    requires DbOk(db') && Kept(s.db, db') && NoneCompleted(s.db, db') && ProcDb(site, db', Onward(s, p))
    ensures SysInv(site, s.(db := db', procs := s.procs[pid := Onward(s, p)]))
  {
    hide ProcsOk, InstallsOk, FinishedOk, DbOk, ProcDb, Kept, NoneCompleted, Holds, Pending, ClaimMark, HoldsTemp,
         FreshClaim, SysInv, MarksOk;
    var n := |s.db.journal|;
    ProcOf(site, s, pid, p);
    MarksOf(site, s.db, p);
    SuccessorShape(site, s.db.journal, p);
    NewClaimIsFresh(site, s, pid);
    DbStep(site, s, db');
    var s1 := s.(db := db');
    assert FreshClaim(s1, pid, n) by { SameClaims(s, s1, pid, n); }
    assert ProcDir(s1.dir, Successor(p, n));
    Replace(site, s1, pid, p, Successor(p, n));
  }

  lemma SameClaims(s: Sys, s': Sys, pid: string, n: nat)
    requires s'.procs == s.procs && s'.installs == s.installs && FreshClaim(s, pid, n)
    ensures FreshClaim(s', pid, n)
  {
  }

  // The completing write: the process leaves, as the witness of the new event.
  lemma WriteFinishes(site: Site, s: Sys, pid: string, p: Proc, db': Db, e: Event)
    requires SysInv(site, s) && Runs(s, pid, p) && p.stage == Recorded
    requires DbOk(db') && Kept(s.db, db') && db'.journal == s.db.journal + [e]
    requires ProcDb(site, db', Onward(s, p))
    ensures SysInv(site, s.(db := db', procs := s.procs - {pid}, finished := s.finished + [Onward(s, p)]))
  {
    hide ProcDb, ProcDir, Authorized, DbOk, Kept, Successor, CompletedBy, ProcsOk, InstallsOk, Intact, MarksOk, Dated,
         ValidAction, Holds, Pending, ClaimMark, HoldsTemp;
    var q, n := Successor(p, |s.db.journal|), |s.db.journal|;
    ProcOf(site, s, pid, p);
    MarksOf(site, s.db, p);
    SuccessorShape(site, s.db.journal, p);
    PiecesKept(site, s, db');
    FewerProcs(site, s.(db := db'), s.(db := db', procs := s.procs - {pid}, finished := s.finished + [q]), pid);
    forall k | 0 <= k < |db'.journal| && Completes(db'.journal[k].payload) ensures CompletedBy(s.finished + [q], k) {
      if k < n { assert db'.journal[k] == s.db.journal[k]; }
      CompletedStays(s.finished, q, k, n);
    }
  }

  lemma FewerProcs(site: Site, s: Sys, s': Sys, pid: string)
    requires ProcsOk(site, s) && InstallsOk(site, s)
    requires s'.db == s.db && s'.dir == s.dir && s'.installs == s.installs && s'.procs == s.procs - {pid}
    ensures ProcsOk(site, s') && InstallsOk(site, s')
  {
    hide ProcDb, ProcDir, Authorized;
  }

  lemma CompletedStays(finished: seq<Proc>, q: Proc, k: nat, n: nat)
    requires |q.marks| == 9 && q.marks[8] == n
    requires k != n ==> CompletedBy(finished, k)
    ensures CompletedBy(finished + [q], k)
  {
    if k == n {
      assert (finished + [q])[|finished|] == q;
    } else {
      var f :| 0 <= f < |finished| && |finished[f].marks| == 9 && finished[f].marks[8] == k;
      assert (finished + [q])[f] == finished[f];
    }
  }

  lemma FailedMove(db: Db, op: Op)
    requires op.MoveRun? && Exec(db, op).1 != Done
    ensures Exec(db, op).0 == db
  {
  }

  lemma WriteKeeps(site: Site, s: Sys, pid: string, at: Time)
    requires SysInv(site, s) && AtWrite(s, pid)
    ensures SysInv(site, WriteStep(site, s, pid, at))
  {
    hide SysInv, ProcDb, Kept, DbOk, NoneCompleted, OpOf, Exec, Successor, IsWrite, Performs, Wrote, Completing, CheckedOp,
         ValidAction, Dated;
    var p := s.procs[pid];
    var op := OpOf(site, s, p, at);
    if !Acts(site, s, pid) {
    } else if op.None? {
      Gone(site, s, pid);
    } else if Exec(s.db, op.value).1 != Done {
      WriteFails(site, s, pid, p, op.value, at);
    } else {
      WriteSucceeds(site, s, pid, p, op.value, at);
    }
  }

  lemma WriteFails(site: Site, s: Sys, pid: string, p: Proc, op: Op, at: Time)
    requires SysInv(site, s) && OpOf(site, s, p, at) == Some(op) && Exec(s.db, op).1 != Done
    ensures SysInv(site, s.(db := Exec(s.db, op).0, procs := s.procs - {pid}))
  {
    hide SysInv, OpOf, Exec, CheckedOp, Dated, Completing;
    OpChecked(site, s, p, op, at);
    if p.stage == Recorded {
      FailedMove(s.db, op);
      Gone(site, s, pid);
    } else {
      ClientStep(site, s, op);
      Gone(site, s.(db := Exec(s.db, op).0), pid);
    }
  }

  lemma WriteSucceeds(site: Site, s: Sys, pid: string, p: Proc, op: Op, at: Time)
    requires SysInv(site, s) && AtWrite(s, pid) && Runs(s, pid, p) && OpOf(site, s, p, at) == Some(op)
    requires Exec(s.db, op).1 == Done
    ensures SysInv(site, WriteStep(site, s, pid, at))
  {
    hide ProcsOk, InstallsOk, FinishedOk, ProcDb, Kept, DbOk, NoneCompleted, OpOf, Exec, Successor, IsWrite, Completing,
         CheckedOp, Dated, ValidAction, Learned, Milestone;
    var db' := Exec(s.db, op).0;
    OpChecked(site, s, p, op, at);
    ExecOk(s.db, op);
    ProcOf(site, s, pid, p);
    var e := Writes(site, s, p, at);
    NotFinished(p.stage);
    ProcAdvances(site, s.db, db', p, e);
    if p.stage == Recorded {
      WriteFinishes(site, s, pid, p, db', e);
    } else {
      WriteGoesOn(site, s, pid, p, db');
    }
  }

  lemma NotFinished(st: Stage)
    requires IsWrite(st)
    ensures st != Finished
  {
  }

  // ---------- local steps ----------

  lemma DirStep(site: Site, s: Sys, d: Directory)
    requires SysInv(site, s) && Intact(d) && AllDirs(d, s.procs)
    ensures SysInv(site, s.(dir := d))
  {
    hide ProcDb, ProcDir, Authorized, DbOk;
  }

  // A step of the process alone that reaches no new milestone.
  lemma MovedDb(site: Site, db: Db, p: Proc, q: Proc)
    requires ProcDb(site, db, p) && !IsWrite(p.stage) && p.stage != Finished
    requires q == Moved(p).(decidedAt := q.decidedAt, cleared := q.cleared, checkedAt := q.checkedAt,
                           readDigest := q.readDigest, seen := q.seen)
    requires p.stage != ReadRunning ==> q.seen == p.seen
    requires Known(site, db, q, Rank(q.stage))
    ensures ProcDb(site, db, q) && (Holds(p) <==> Holds(q)) && ClaimMark(p) == ClaimMark(q)
  {
    hide Known, ValidAction, TimeText.Representable, Milestone;
    forall i | 0 <= i < |p.marks| ensures Milestone(site, db.journal[p.marks[i]], i, q) {
      SameEarlyMilestone(site, db.journal[p.marks[i]], i, p, q);
    }
  }

  lemma SameEarlyMilestone(site: Site, e: Event, i: nat, p: Proc, q: Proc)
    requires q == p.(stage := q.stage, decidedAt := q.decidedAt, cleared := q.cleared, checkedAt := q.checkedAt,
                     readDigest := q.readDigest, seen := q.seen)
    requires i < 6 || p.seen == q.seen
    ensures Milestone(site, e, i, p) == Milestone(site, e, i, q)
  {
  }

  lemma DecideKeeps(site: Site, s: Sys, pid: string, at: Time, sys: Kernel)
    requires SysInv(site, s) && Stands(s, pid, Started)
    ensures SysInv(site, LocalStep(site, s, pid, at, sys))
  {
    hide SysInv, ProcDb, Acts, RightWrite, WriteAsked;
    var p := s.procs[pid];
    ProcOf(site, s, pid, p);
    Gone(site, s, pid);
    if WriteAsked(site, s, p, at) {
      DecisionBinds(site, s, p, at);
      DecidedDb(site, s.db, p, Moved(p).(decidedAt := at));
      Replace(site, s, pid, p, Moved(p).(decidedAt := at));
    }
  }

  lemma DecisionBinds(site: Site, s: Sys, p: Proc, at: Time)
    requires WriteAsked(site, s, p, at)
    ensures RightWrite(site, p.action)
  {
    hide ExactWrite, Evaluate, CommonChecks;
    ApprovalExactlyForBoundWrites(site.env, p.action, ContextOf(site, s, p.run, p.action.requesterId, at));
  }

  lemma DecidedDb(site: Site, db: Db, p: Proc, q: Proc)
    requires ProcDb(site, db, p) && p.stage == Started && q == Moved(p).(decidedAt := q.decidedAt)
    requires RightWrite(site, p.action)
    ensures ProcDb(site, db, q)
  {
    assert Known(site, db, q, Rank(q.stage)) by {
      hide ValidAction, TimeText.Representable, RightWrite, MarksOk;
    }
    hide Known, ValidAction, RightWrite, TimeText.Representable, MarksOk;
    MovedDb(site, db, p, q);
  }

  lemma KnownMoves(site: Site, db: Db, p: Proc, q: Proc, r: nat)
    requires Dated(p.action) && p.approvalId in db.tables.approvals && Known(site, db, p, r)
    requires r !in {0, 2, 3, 4, 7, 15} && r < 19 && q == p.(stage := q.stage, readDigest := q.readDigest, seen := q.seen)
    ensures Known(site, db, q, r + 1)
  {
    hide TimeText.Representable, RightWrite, BoundTo, NotCancelledBefore, CheckedInTime, ExactReadBack, ActionDigest;
  }

  // A local move that changes neither what is known nor who holds a temporary name.
  lemma PlainMove(site: Site, db: Db, p: Proc, q: Proc)
    requires ProcDb(site, db, p) && p.stage in {Active, Cleared, Installed, Checking, ReadRunning}
    requires q == Moved(p).(readDigest := q.readDigest, seen := q.seen) && (p.stage != ReadRunning ==> q.seen == p.seen)
    ensures ProcDb(site, db, q) && ClaimMark(p) == ClaimMark(q)
  {
    hide Known, ValidAction, RightWrite, TimeText.Representable, MarksOk;
    KnownMoves(site, db, p, q, Rank(p.stage));
    MovedDb(site, db, p, q);
  }

  lemma PrepareKeeps(site: Site, s: Sys, pid: string, at: Time, sys: Kernel)
    requires SysInv(site, s) && Stands(s, pid, Active)
    ensures SysInv(site, LocalStep(site, s, pid, at, sys))
  {
    hide SysInv, ProcDb, Acts, ProcDir, AllDirs, DbOk, Intact, ContentOf, PathOf, Extended, FreeTemp, ClaimMark,
         Paths.ValidateRelative;
    var p := s.procs[pid];
    Gone(site, s, pid);
    if Paths.ValidateRelative(site.env.fold, PathOf(p.action), false).None? ||
       PathOf(p.action) in s.dir.names || p.temp in s.dir.names || p.temp == PathOf(p.action) ||
       sys.inode in s.dir.data {
    } else {
      var d := Extended(Created(s.dir, p.temp, sys.inode), sys.inode, ContentOf(p.action));
      PrepareDir(site, s, pid, p, d, sys.inode);
      DirStep(site, s, d);
      ProcOf(site, s, pid, p);
      PlainMove(site, s.db, p, Moved(p));
      Replace(site, s.(dir := d), pid, p, Moved(p));
    }
  }

  lemma PrepareDir(site: Site, s: Sys, pid: string, p: Proc, d: Directory, i: Inode)
    requires SysInv(site, s) && Runs(s, pid, p) && p.stage == Active && p.temp !in s.dir.names && i !in s.dir.data
    requires d == Extended(Created(s.dir, p.temp, i), i, ContentOf(p.action))
    ensures Intact(d) && FreeTemp(s, pid, p.temp) && FreeTemp(s.(dir := d), pid, p.temp)
    ensures AllDirs(d, s.procs) && ProcDir(d, Moved(p))
  {
    hide ProcDb, DbOk, InstallsOk, FinishedOk, ContentOf;
    forall x | x in s.procs ensures ProcDir(d, s.procs[x]) && (HoldsTemp(s.procs[x]) ==> s.procs[x].temp != p.temp) {
      assert ProcDir(s.dir, s.procs[x]);
    }
  }

  lemma PrecommitKeeps(site: Site, s: Sys, pid: string, at: Time, sys: Kernel)
    requires SysInv(site, s) && Stands(s, pid, Prepared)
    ensures SysInv(site, LocalStep(site, s, pid, at, sys))
  {
    hide SysInv, ProcDb, Acts, ProcDir, PrecommitPasses, Cleaned;
    var p := s.procs[pid];
    if PrecommitPasses(s, p, at) {
      ProcOf(site, s, pid, p);
      var q := Moved(p).(cleared := |s.db.journal|, checkedAt := at);
      ClearedDb(site, s, p, q, at);
      ProcDirMoved(s.dir, p, q);
      Replace(site, s, pid, p, q);
    } else {
      CleanedKeeps(site, s, pid, s.procs[pid]);
    }
  }

  lemma ProcDirMoved(d: Directory, p: Proc, q: Proc)
    requires ProcDir(d, p) && q.temp == p.temp && q.action == p.action && (HoldsTemp(q) ==> HoldsTemp(p))
    ensures ProcDir(d, q)
  {
  }

  lemma InvReplays(db: Db)
    requires Inv(db)
    ensures Replays(db)
  {
    hide Replays, Numbered, Versioned, SingleUse, ApprovalsBacked;
  }

  lemma NotCancelledYet(db: Db, run: string)
    requires NoRevival(db) && run in db.tables.runs && db.tables.runs[run].state != Cancelled
    ensures NotCancelledBefore(db.journal, run, |db.journal|)
  {
  }

  // The tables the check reads are what the journal folds to.
  lemma ChecksInTime(s: Sys, p: Proc, at: Time)
    requires Replays(s.db) && PrecommitPasses(s, p, at)
    ensures CheckedInTime(s.db.journal, p.run, p.action, |s.db.journal|, at)
  {
    hide Fold;
    assert s.db.journal[..|s.db.journal|] == s.db.journal;
  }

  lemma KnownCleared(site: Site, db: Db, p: Proc, q: Proc, at: Time)
    requires Dated(p.action) && p.approvalId in db.tables.approvals && Known(site, db, p, 7)
    requires q == p.(stage := q.stage, cleared := |db.journal|, checkedAt := at) && ClaimMark(p) < |db.journal|
    requires CheckedInTime(db.journal, p.run, p.action, |db.journal|, at)
    requires NotCancelledBefore(db.journal, p.run, |db.journal|)
    ensures Known(site, db, q, 8)
  {
    hide TimeText.Representable, RightWrite, BoundTo, NotCancelledBefore, CheckedInTime, ClaimMark;
    assert ClaimMark(q) == ClaimMark(p) by { SameMark(p, q); }
  }

  lemma SameMark(p: Proc, q: Proc)
    requires q.marks == p.marks
    ensures ClaimMark(q) == ClaimMark(p)
  {
  }

  // Passing the precommit check means that no cancellation was committed before it.
  lemma ClearedDb(site: Site, s: Sys, p: Proc, q: Proc, at: Time)
    requires DbOk(s.db) && ProcDb(site, s.db, p) && p.stage == Prepared && PrecommitPasses(s, p, at)
    requires q == Moved(p).(cleared := |s.db.journal|, checkedAt := at)
    ensures ProcDb(site, s.db, q) && ClaimMark(q) == ClaimMark(p)
  {
    hide Known, ValidAction, RightWrite, TimeText.Representable, MarksOk, NotCancelledBefore, CheckedInTime, Inv, LegalHistory,
         NoRevival, ClaimMark;
    NotCancelledYet(s.db, p.run);
    ClaimBelow(site, s.db, p);
    assert Replays(s.db) by { InvReplays(s.db); }
    ChecksInTime(s, p, at);
    KnownCleared(site, s.db, p, q, at);
    MovedDb(site, s.db, p, q);
  }

  // Nobody else needs the name a process drops.
  lemma DropDir(site: Site, s: Sys, pid: string, p: Proc)
    requires SysInv(site, s) && Runs(s, pid, p) && HoldsTemp(p)
    ensures Intact(Unlinked(s.dir, p.temp)) && AllDirs(Unlinked(s.dir, p.temp), s.procs - {pid})
  {
    hide ProcDb, DbOk, InstallsOk, FinishedOk, ContentOf;
    forall x | x in s.procs && x != pid ensures ProcDir(Unlinked(s.dir, p.temp), s.procs[x]) {
      assert ProcDir(s.dir, s.procs[x]);
    }
  }

  lemma CleanedKeeps(site: Site, s: Sys, pid: string, p: Proc)
    requires SysInv(site, s) && Runs(s, pid, p) && HoldsTemp(p)
    ensures SysInv(site, Cleaned(s, pid))
  {
    hide SysInv, AllDirs, Intact, Unlinked;
    Gone(site, s, pid);
    DropDir(site, s, pid, p);
    DirStep(site, s.(procs := s.procs - {pid}), Unlinked(s.dir, p.temp));
  }

  lemma DirsWith(d: Directory, procs: map<string, Proc>, pid: string, q: Proc)
    requires AllDirs(d, procs - {pid}) && ProcDir(d, q)
    ensures AllDirs(d, procs[pid := q])
  {
    hide ProcDir;
    forall x | x in procs && x != pid ensures ProcDir(d, procs[x]) { assert procs[x] == (procs - {pid})[x]; }
  }

  // A process without a temporary name asks nothing of the sandbox.
  lemma ProcDirIdle(d: Directory, q: Proc)
    requires !HoldsTemp(q)
    ensures ProcDir(d, q)
  {
  }

  lemma DropKeeps(site: Site, s: Sys, pid: string, at: Time, sys: Kernel)
    requires SysInv(site, s) && Stands(s, pid, Installed)
    ensures SysInv(site, LocalStep(site, s, pid, at, sys))
  {
    hide SysInv, ProcDb, ProcDir, AllDirs, DbOk, Intact, ContentOf, ValidAction, ClaimMark, Unlinked, Acts;
    var p := s.procs[pid];
    ProcOf(site, s, pid, p);
    PlainMove(site, s.db, p, Moved(p));
    ProcDirMoved(s.dir, p, Moved(p));
    Replace(site, s, pid, p, Moved(p));
    if !sys.dropFails {
      DropDir(site, s, pid, p);
      ProcDirIdle(Unlinked(s.dir, p.temp), Moved(p));
      DirsWith(Unlinked(s.dir, p.temp), s.procs, pid, Moved(p));
      DirStep(site, s.(procs := s.procs[pid := Moved(p)]), Unlinked(s.dir, p.temp));
    }
  }

  lemma ReadIsDated(site: Site, s: Sys, p: Proc, at: Time)
    requires ReadAllowed(site, s, p, at)
    ensures Dated(ReadAction(site, p, at))
  {
    hide Dated, ReadAction, ValidAction, Evaluate, ContextOf;
  }

  lemma CheckKeeps(site: Site, s: Sys, pid: string, at: Time, sys: Kernel)
    requires SysInv(site, s) && Stands(s, pid, Checking)
    ensures SysInv(site, LocalStep(site, s, pid, at, sys))
  {
    hide SysInv, ProcDb, Acts, ReadAllowed, ReadAction, ActionDigest, TimeText.Representable, Most, PathOf, ContentOf;
    var p := s.procs[pid];
    Gone(site, s, pid);
    ProcOf(site, s, pid, p);
    if ReadAllowed(site, s, p, at) {
      ReadIsDated(site, s, p, at);
      var q := Moved(p).(readDigest := ActionDigest(site.env.hash, ReadAction(site, p, at)));
      PlainMove(site, s.db, p, q);
      Replace(site, s, pid, p, q);
    }
  }

  lemma ReadKeeps(site: Site, s: Sys, pid: string, at: Time, sys: Kernel)
    requires SysInv(site, s) && Stands(s, pid, ReadRunning)
    ensures SysInv(site, LocalStep(site, s, pid, at, sys))
  {
    hide SysInv, ProcDb, ProcDir, DbOk, Intact, Acts, ContentOf, PathOf, Utf8.Decode, Readable, ClaimMark;
    var p := s.procs[pid];
    Gone(site, s, pid);
    ProcOf(site, s, pid, p);
    var content := Readable(s.dir, PathOf(p.action));
    if content.Some? {
      var q := Moved(p).(seen := content.value);
      PlainMove(site, s.db, p, q);
      ProcDirMoved(s.dir, p, q);
      Replace(site, s, pid, p, q);
    }
  }

  // ---------- the installation ----------

  lemma InstallIsAuthorized(site: Site, s: Sys, p: Proc, ins: Install)
    requires ProcDb(site, s.db, p) && ProcDir(s.dir, p) && p.stage == Cleared && p.temp in s.dir.names
    requires s.dir.names[p.temp] in s.dir.data
    requires ins == Install(p.approvalId, p.action, ClaimMark(p), p.cleared, p.checkedAt, PathOf(p.action),
                            s.dir.data[s.dir.names[p.temp]])
    ensures Authorized(site, s.db, ins)
  {
    hide ValidAction, TimeText.Representable, RightWrite, ContentOf, PathOf, ActionDigest, ExactReadBack, WriteCallOf;
  }

  lemma InstallKeeps(site: Site, s: Sys, pid: string, at: Time, sys: Kernel)
    requires SysInv(site, s) && Stands(s, pid, Cleared)
    ensures SysInv(site, LocalStep(site, s, pid, at, sys))
  {
    hide SysInv, ProcDb, Acts, ProcDir, DbOk, Intact, Cleaned, PathOf, ContentOf, Authorized, Linked, ClaimMark;
    var p := s.procs[pid];
    ProcOf(site, s, pid, p);
    if PathOf(p.action) in s.dir.names || p.temp !in s.dir.names || s.dir.names[p.temp] !in s.dir.data {
      CleanedKeeps(site, s, pid, s.procs[pid]);
    } else {
      var ins := Install(p.approvalId, p.action, ClaimMark(p), p.cleared, p.checkedAt, PathOf(p.action),
                         s.dir.data[s.dir.names[p.temp]]);
      InstallIsAuthorized(site, s, p, ins);
      PlainMove(site, s.db, p, Moved(p));
      ProcDirMoved(s.dir, p, Moved(p));
      Replace(site, s, pid, p, Moved(p));
      var s1 := s.(procs := s.procs[pid := Moved(p)]);
      var d := Linked(s.dir, p.temp, PathOf(p.action));
      LinkDir(site, s1, p.temp, PathOf(p.action));
      DirStep(site, s1, d);
      NewInstallDiffers(site, s, pid, p);
      AddInstall(site, s1.(dir := d), ins);
    }
  }

  lemma LinkDir(site: Site, s: Sys, temp: string, target: string)
    requires SysInv(site, s) && temp in s.dir.names && target !in s.dir.names
    ensures Intact(Linked(s.dir, temp, target))
    ensures AllDirs(Linked(s.dir, temp, target), s.procs)
  {
    hide ProcDb, DbOk, InstallsOk, FinishedOk, ContentOf;
    forall x | x in s.procs ensures ProcDir(Linked(s.dir, temp, target), s.procs[x]) {
      assert ProcDir(s.dir, s.procs[x]);
    }
  }

  // The claim behind this installation is behind no earlier one, and held by no other.
  lemma NewInstallDiffers(site: Site, s: Sys, pid: string, p: Proc)
    requires SysInv(site, s) && Runs(s, pid, p) && p.stage == Cleared
    ensures FreshClaim(s, pid, ClaimMark(p))
  {
    hide ProcDb, ProcDir, DbOk, FinishedOk, Authorized;
  }

  lemma AddInstall(site: Site, s: Sys, ins: Install)
    requires SysInv(site, s) && Authorized(site, s.db, ins)
    requires forall k :: 0 <= k < |s.installs| ==> s.installs[k].claim != ins.claim
    requires forall x :: x in s.procs && Pending(s.procs[x]) ==> ClaimMark(s.procs[x]) != ins.claim
    ensures SysInv(site, s.(installs := s.installs + [ins]))
  {
    hide ProcDb, ProcDir, DbOk, Authorized;
  }

  lemma LocalKeeps(site: Site, s: Sys, pid: string, at: Time, sys: Kernel)
    requires SysInv(site, s) && !AtWrite(s, pid)
    ensures SysInv(site, LocalStep(site, s, pid, at, sys))
  {
    hide SysInv, LocalStep, Acts;
    if pid !in s.procs {
      NoStep(site, s, pid, at, sys);
    } else {
      StageKeeps(site, s, pid, at, sys);
    }
  }

  lemma NoStep(site: Site, s: Sys, pid: string, at: Time, sys: Kernel)
    requires pid !in s.procs
    ensures LocalStep(site, s, pid, at, sys) == s
  {
  }

  lemma FinishedKeeps(site: Site, s: Sys, pid: string, at: Time, sys: Kernel)
    requires SysInv(site, s) && Stands(s, pid, Finished)
    ensures SysInv(site, LocalStep(site, s, pid, at, sys))
  {
    hide SysInv, Acts;
    Gone(site, s, pid);
  }

  lemma StageKeeps(site: Site, s: Sys, pid: string, at: Time, sys: Kernel)
    requires SysInv(site, s) && pid in s.procs && !AtWrite(s, pid)
    ensures SysInv(site, LocalStep(site, s, pid, at, sys))
  {
    hide SysInv, LocalStep, Acts;
    match s.procs[pid].stage
    case Started => DecideKeeps(site, s, pid, at, sys);
    case Active => PrepareKeeps(site, s, pid, at, sys);
    case Prepared => PrecommitKeeps(site, s, pid, at, sys);
    case Cleared => InstallKeeps(site, s, pid, at, sys);
    case Installed => DropKeeps(site, s, pid, at, sys);
    case Checking => CheckKeeps(site, s, pid, at, sys);
    case ReadRunning => ReadKeeps(site, s, pid, at, sys);
    case Finished => FinishedKeeps(site, s, pid, at, sys);
  }

  // ---------- every step ----------

  lemma BeginKeeps(site: Site, s: Sys, step: Step)
    requires SysInv(site, s) && step.Begin? && CanBegin(site, s, step)
    ensures SysInv(site, s.(procs := s.procs[step.pid := LoadedProc(s, step)]))
  {
    hide ProcDir, DbOk, Authorized, ValidAction, TimeText.Representable;
    var q := LoadedProc(s, step);
    assert ProcDb(site, s.db, q);
    assert ProcDir(s.dir, q) by { ProcDirIdle(s.dir, q); }
    AddProc(site, s, step.pid, q);
  }

  lemma AddProc(site: Site, s: Sys, pid: string, q: Proc)
    requires SysInv(site, s) && pid !in s.procs && q.stage == Loaded
    requires ProcDb(site, s.db, q) && ProcDir(s.dir, q)
    ensures SysInv(site, s.(procs := s.procs[pid := q]))
  {
    hide ProcDb, ProcDir, DbOk, Authorized;
  }

  lemma OutsideKeeps(site: Site, s: Sys, d: Directory)
    requires SysInv(site, s) && Intact(d) && OthersOnly(s, d)
    ensures SysInv(site, s.(dir := d))
  {
    hide ProcDb, DbOk, InstallsOk, FinishedOk, ContentOf;
    forall x | x in s.procs ensures ProcDir(d, s.procs[x]) { assert ProcDir(s.dir, s.procs[x]); }
    DirStep(site, s, d);
  }

  lemma LatchKeeps(site: Site, s: Sys, stop: bool)
    requires SysInv(site, s)
    ensures SysInv(site, s.(stopped := stop))
  {
    hide ProcDb, ProcDir, DbOk, Authorized;
  }

  /** Every step, whoever takes it, keeps the invariant. */
  lemma NextKeeps(site: Site, s: Sys, step: Step)
    requires SysInv(site, s)
    ensures SysInv(site, Next(site, s, step))
  {
    hide SysInv, ProcDb, ValidAction, WriteStep, LocalStep, ClientOp, CanBegin, OthersOnly, Intact, Cleaned, Dated,
         Exec, LoadedProc, AtWrite;
    match step
    case Client(op) => if ClientOp(op) { ClientStep(site, s, op); }
    case Latch(stop) => LatchKeeps(site, s, stop);
    case Outside(d) => if Intact(d) && OthersOnly(s, d) { OutsideKeeps(site, s, d); }
    case Begin(_, _, _, _, _, _) => if CanBegin(site, s, step) { BeginKeeps(site, s, step); }
    case Advance(pid, at, sys) =>
      if AtWrite(s, pid) { WriteKeeps(site, s, pid, at); } else { LocalKeeps(site, s, pid, at, sys); }
    case Abandon(pid, cleanUp) =>
      if pid in s.procs {
        if cleanUp && HoldsTemp(s.procs[pid]) { CleanedKeeps(site, s, pid, s.procs[pid]); } else { Gone(site, s, pid); }
      }
  }

  lemma {:induction false} RunKeeps(site: Site, s: Sys, steps: seq<Step>)
    requires SysInv(site, s)
    ensures SysInv(site, Run(site, s, steps))
    decreases |steps|
  {
    hide SysInv, Next;
    if steps != [] {
      RunKeeps(site, s, steps[..|steps| - 1]);
      NextKeeps(site, Run(site, s, steps[..|steps| - 1]), steps[|steps| - 1]);
    }
  }

  lemma InitialHolds(site: Site, s: Sys)
    requires Initial(s)
    ensures SysInv(site, s)
  {
    hide ProcDb, ProcDir, Authorized;
    InvEmpty();
  }

  // ---------- the theorems ----------

  lemma {:induction false} TwoClaims(j: seq<Event>, id: string, a: nat, b: nat)
    requires a < b < |j|
    requires j[a].payload.ApprovalClaimed? && j[a].payload.approvalId == id
    requires j[b].payload.ApprovalClaimed? && j[b].payload.approvalId == id
    ensures Claims(j, id) >= 2
    decreases |j|
  {
    var shorter := j[..|j| - 1];
    if b < |j| - 1 {
      TwoClaims(shorter, id, a, b);
    } else {
      OneClaim(shorter, id, a);
    }
  }

  lemma {:induction false} OneClaim(j: seq<Event>, id: string, a: nat)
    requires a < |j| && j[a].payload.ApprovalClaimed? && j[a].payload.approvalId == id
    ensures Claims(j, id) >= 1
    decreases |j|
  {
    if a < |j| - 1 { OneClaim(j[..|j| - 1], id, a); }
  }

  lemma ClaimEvent(site: Site, s: Sys, k: nat)
    requires SysInv(site, s) && k < |s.installs|
    ensures var ins, j := s.installs[k], s.db.journal;
            && ins.claim < |j| && j[ins.claim].payload.ApprovalClaimed?
            && j[ins.claim].payload.approvalId == ins.approvalId
  {
    hide DbOk, ProcsOk, FinishedOk, Sound, RightWrite, BoundTo;
    assert Authorized(site, s.db, s.installs[k]);
  }

  lemma DifferentApprovals(site: Site, s: Sys, k: nat, l: nat)
    requires SysInv(site, s) && k < l < |s.installs|
    ensures s.installs[k].approvalId != s.installs[l].approvalId
  {
    ClaimEvent(site, s, k);
    ClaimEvent(site, s, l);
    var x, y, id := s.installs[k].claim, s.installs[l].claim, s.installs[k].approvalId;
    assert x != y by { hide DbOk, ProcsOk, FinishedOk, Authorized; }
    if s.installs[l].approvalId == id {
      AtMostOneClaim(site, s, id);
      if x < y { TwoClaims(s.db.journal, id, x, y); } else { TwoClaims(s.db.journal, id, y, x); }
    }
  }

  lemma AtMostOneClaim(site: Site, s: Sys, id: string)
    requires SysInv(site, s)
    ensures Claims(s.db.journal, id) <= 1
  {
    hide ProcsOk, InstallsOk, FinishedOk, Numbered, Replays, Versioned, ApprovalsBacked, LegalHistory, NoRevival, Claims;
  }

  // The approval behind an installed file was requested, then approved by the bound
  // owner before its expiry, then claimed before its expiry, as the journal shows.
  ghost predicate Justified(site: Site, db: Db, ins: Install) {
    Authorized(site, db, ins) && Taken(db.journal, ins.approvalId, db.tables.approvals[ins.approvalId])
  }

  lemma InstallJustified(site: Site, s: Sys, k: nat)
    requires SysInv(site, s) && k < |s.installs|
    ensures Justified(site, s.db, s.installs[k])
  {
    hide ProcsOk, FinishedOk, Sound, RightWrite, Numbered, Replays, Versioned, SingleUse, LegalHistory, NoRevival, Taken,
         NotCancelledBefore, CheckedInTime;
    var ins := s.installs[k];
    assert Authorized(site, s.db, ins);
    assert Backed(s.db.journal, ins.approvalId, s.db.tables.approvals[ins.approvalId]);
  }

  /** In every interleaving of requests, decisions, claims, expiries, cancellations,
      rebuilds, recoveries, processes in the approve flow and crashes between any two
      steps: each approval id installs at most one file, and every installed file has
      exactly the name and content bound by an action whose digest is the approved one,
      approved by the bound owner and claimed before expiry.  At the moment of its precommit
      check no cancellation of its run was committed, the action was not expired, the run
      row held a lease that was not over, and its budget had room for the write. */
  lemma AtMostOneEffect(site: Site, s0: Sys, steps: seq<Step>)
    requires Initial(s0)
    ensures var s := Run(site, s0, steps);
            && (forall k, l :: 0 <= k < l < |s.installs| ==> s.installs[k].approvalId != s.installs[l].approvalId)
            && (forall k :: 0 <= k < |s.installs| ==> Justified(site, s.db, s.installs[k]))
  {
    hide SysInv, Run, Justified;
    InitialHolds(site, s0);
    RunKeeps(site, s0, steps);
    var s := Run(site, s0, steps);
    forall k, l | 0 <= k < l < |s.installs| ensures s.installs[k].approvalId != s.installs[l].approvalId {
      DifferentApprovals(site, s, k, l);
    }
    forall k | 0 <= k < |s.installs| ensures Justified(site, s.db, s.installs[k]) { InstallJustified(site, s, k); }
  }

  /** The digest pins the action: whatever action has the digest that was approved is
      the installed one, where the hash does not collide on the two. */
  lemma InstalledActionIsTheApprovedOne(site: Site, s0: Sys, steps: seq<Step>, k: nat, approved: ActionSpec)
    requires Initial(s0) && k < |Run(site, s0, steps).installs| && Dated(approved)
    requires var s := Run(site, s0, steps);
             && s.installs[k].approvalId in s.db.tables.approvals
             && s.db.tables.approvals[s.installs[k].approvalId].actionDigest == ActionDigest(site.env.hash, approved)
    requires Dated(Run(site, s0, steps).installs[k].action) ==>
               NoCollision(site.env.hash, ActionBytes(approved), ActionBytes(Run(site, s0, steps).installs[k].action))
    ensures Run(site, s0, steps).installs[k].action == approved
  {
    hide SysInv, Run, RightWrite, ValidAction, NotCancelledBefore, CheckedInTime;
    InitialHolds(site, s0);
    RunKeeps(site, s0, steps);
    var s := Run(site, s0, steps);
    InstallJustified(site, s, k);
    DigestBindsAction(site.env.hash, approved, s.installs[k].action);
  }

  // The nine milestones of a completed run, in journal order, ending at position k, for an
  // exact write that is the one the approval and the call of the milestones are bound to.
  ghost predicate Evidence(site: Site, db: Db, p: Proc, k: nat) {
    var j := db.journal;
    && |p.marks| == 9 && p.marks[8] == k
    && Dated(p.action) && RightWrite(site, p.action) && Claimant(site, db, p) && WriteCallOf(site, db, p)
    && (forall i :: 0 <= i < 9 ==> p.marks[i] < |j| && Milestone(site, j[p.marks[i]], i, p))
    && (forall i, l :: 0 <= i < l < 9 ==> p.marks[i] < p.marks[l])
  }

  ghost predicate CompletionJustified(site: Site, db: Db, k: nat) { exists p :: Evidence(site, db, p, k) }

  /** Every COMPLETED transition in every reachable journal is preceded, in this order
      and for one run, approval and pair of calls, by the owner's approval, EXECUTING,
      the claim, the write's SUCCEEDED, the consumption, VERIFYING, the read's SUCCEEDED
      and a VERIFIED artifact.  The artifact carries the content digest and length of the
      very action whose digest the approval and the write's call are bound to. */
  lemma CompletionCarriesEvidence(site: Site, s0: Sys, steps: seq<Step>)
    requires Initial(s0)
    ensures var db := Run(site, s0, steps).db;
            forall k :: 0 <= k < |db.journal| && Completes(db.journal[k].payload) ==> CompletionJustified(site, db, k)
  {
    hide SysInv, Run, CompletionJustified;
    InitialHolds(site, s0);
    RunKeeps(site, s0, steps);
    var s := Run(site, s0, steps);
    forall k | 0 <= k < |s.db.journal| && Completes(s.db.journal[k].payload)
      ensures CompletionJustified(site, s.db, k)
    {
      CompletionWitness(site, s, k);
    }
  }

  lemma CompletionWitness(site: Site, s: Sys, k: nat)
    requires SysInv(site, s) && k < |s.db.journal| && Completes(s.db.journal[k].payload)
    ensures CompletionJustified(site, s.db, k)
  {
    hide ProcsOk, InstallsOk, DbOk, ProcDb, Evidence;
    assert CompletedBy(s.finished, k);
    var f :| 0 <= f < |s.finished| && |s.finished[f].marks| == 9 && s.finished[f].marks[8] == k;
    WitnessEvidence(site, s.db, s.finished[f], k);
  }

  lemma WitnessEvidence(site: Site, db: Db, p: Proc, k: nat)
    requires ProcDb(site, db, p) && p.stage == Finished && |p.marks| == 9 && p.marks[8] == k
    ensures Evidence(site, db, p, k)
  {
    hide ValidAction, TimeText.Representable, RightWrite, Milestone, Claimant, WriteCallOf, NotCancelledBefore, CheckedInTime, ExactReadBack;
  }

  /** The store's own invariants hold in every state the protocol reaches: the tables
      replay, versions count, approvals are used once, and run histories are legal. */
  lemma StoreStaysSound(site: Site, s0: Sys, steps: seq<Step>)
    requires Initial(s0)
    ensures Inv(Run(site, s0, steps).db) && LegalHistory(Run(site, s0, steps).db.journal)
  {
    hide Run, ProcsOk, InstallsOk, FinishedOk, Inv, LegalHistory, NoRevival;
    InitialHolds(site, s0);
    RunKeeps(site, s0, steps);
  }

  // ---------- what steps do to the sandbox ----------

  // The temporary file of a process: its own from the moment it was created.
  predicate MayTouch(p: Proc, name: string) { name == p.temp && HoldsTemp(p) }

  // No entry but a temporary one of the process's own goes or changes, no content does,
  // and the step adds the target with what the process holds exactly when it installs.
  ghost predicate Careful(s: Sys, t: Sys, p: Proc) {
    && (forall n :: n in s.dir.names && !MayTouch(p, n) ==> n in t.dir.names && t.dir.names[n] == s.dir.names[n])
    && (forall i :: i in s.dir.data ==> i in t.dir.data && t.dir.data[i] == s.dir.data[i])
    && (forall n :: n in t.dir.names && n !in s.dir.names ==>
          n == (if p.stage == Cleared then PathOf(p.action) else p.temp) && p.stage in {Active, Cleared})
    && (t.installs != s.installs <==> PathOf(p.action) in t.dir.names && PathOf(p.action) !in s.dir.names && p.stage == Cleared)
    && (t.installs != s.installs ==>
          |t.installs| == |s.installs| + 1 && s.installs <= t.installs &&
          t.installs[|s.installs|].approvalId == p.approvalId && t.installs[|s.installs|].action == p.action &&
          Installs(s.dir, t.dir, PathOf(p.action), ContentOf(p.action)))
  }

  /** Nothing is ever overwritten: a step of a process changes no entry and no content of
      the sandbox but its own temporary file, and makes the target appear exactly where it
      installs, with the content of its action; all other steps leave the sandbox to the
      programs outside. */
  lemma NothingIsOverwritten(site: Site, s: Sys, step: Step)
    requires SysInv(site, s)
    ensures step.Client? || step.Latch? || step.Begin? ==>
              Next(site, s, step).dir == s.dir && Next(site, s, step).installs == s.installs
    ensures step.Outside? ==> Next(site, s, step).installs == s.installs
    ensures (step.Advance? || step.Abandon?) && step.pid in s.procs ==>
              Careful(s, Next(site, s, step), s.procs[step.pid])
    ensures (step.Advance? || step.Abandon?) && step.pid !in s.procs ==> Next(site, s, step) == s
  {
    hide Exec, OpOf, CanBegin, SysInv, Careful, ClientOp, LoadedProc, Intact, OthersOnly;
    if step.Advance? && step.pid in s.procs {
      if AtWrite(s, step.pid) { WriteIsCareful(site, s, step.pid, step.at); }
      else { LocalIsCareful(site, s, step.pid, step.at, step.sys); }
    } else if step.Abandon? && step.pid in s.procs {
      AbandonIsCareful(s, step.pid, step.cleanUp);
    }
  }

  lemma WriteIsCareful(site: Site, s: Sys, pid: string, at: Time)
    requires pid in s.procs && IsWrite(s.procs[pid].stage)
    ensures Careful(s, WriteStep(site, s, pid, at), s.procs[pid])
  {
    hide Exec, OpOf, Acts, PathOf, ContentOf, Installs;
  }

  lemma AbandonIsCareful(s: Sys, pid: string, cleanUp: bool)
    requires pid in s.procs
    ensures Careful(s, Cleaned(s, pid), s.procs[pid]) || !HoldsTemp(s.procs[pid])
    ensures Careful(s, s.(procs := s.procs - {pid}), s.procs[pid])
  {
    hide PathOf, ContentOf, Installs;
  }

  lemma LocalIsCareful(site: Site, s: Sys, pid: string, at: Time, k: Kernel)
    requires SysInv(site, s) && pid in s.procs && !IsWrite(s.procs[pid].stage)
    ensures Careful(s, LocalStep(site, s, pid, at, k), s.procs[pid])
  {
    hide SysInv, Careful, LocalStep;
    if s.procs[pid].stage == Cleared { LinkIsCareful(site, s, pid, at, k); } else { TempIsCareful(site, s, pid, at, k); }
  }

  lemma TempIsCareful(site: Site, s: Sys, pid: string, at: Time, k: Kernel)
    requires pid in s.procs && !IsWrite(s.procs[pid].stage) && s.procs[pid].stage != Cleared
    ensures Careful(s, LocalStep(site, s, pid, at, k), s.procs[pid])
  {
    hide PathOf, ContentOf, PrecommitPasses, WriteAsked, ReadAllowed, ReadAction, Readable, ActionDigest, Dated, Acts,
         Installs, ClaimMark;
  }

  lemma LinkIsCareful(site: Site, s: Sys, pid: string, at: Time, k: Kernel)
    requires SysInv(site, s) && pid in s.procs && s.procs[pid].stage == Cleared
    ensures Careful(s, LocalStep(site, s, pid, at, k), s.procs[pid])
  {
    hide DbOk, InstallsOk, FinishedOk, ProcDb, PathOf, ContentOf, Acts, ClaimMark;
  }
}
