/** The approved-effect protocol as a step system: any number of processes run the
    approve flow of the orchestrator and the broker over one database and one sandbox,
    interleaved with every other repository operation, with other programs in the
    sandbox, and with a crash between any two steps. */
module Protocol {
  import opened Domain
  import opened Projections
  import opened Repositories
  import opened Histories
  import opened Growth
  import opened Actions
  import opened Policy
  import opened Files
  import opened Json
  import Budget
  import Paths
  import TimeText
  import Utf8

  // The fixed configuration of an installation; verifier is the principal of the
  // verifier role in a run.
  datatype Site = Site(env: Env, owner: string, workspace: string, sandbox: string, policyVersion: string,
                       leaseTime: nat, toolTimeout: nat, verifier: string -> string)

  // Where a process stands; each name says what has just happened.
  datatype Stage =
    | Loaded | Granted | Started | Decided | Holding | Announced | Active | Prepared | Cleared
    | Installed | Dropped | Written | Spent | Charged | Checking | Permitted | ReadAnnounced | ReadRunning
    | Seen | ReadBack | Settled | Recorded | Finished

  function Rank(s: Stage): nat {
    match s
    case Loaded => 0 case Granted => 1 case Started => 2 case Decided => 3 case Holding => 4
    case Announced => 5 case Active => 6 case Prepared => 7 case Cleared => 8 case Installed => 9
    case Dropped => 10 case Written => 11 case Spent => 12 case Charged => 13 case Checking => 14
    case Permitted => 15 case ReadAnnounced => 16 case ReadRunning => 17 case Seen => 18 case ReadBack => 19
    case Settled => 20 case Recorded => 21 case Finished => 22
  }

  // How many of the journalled milestones lie behind a stage.
  function Milestones(s: Stage): nat {
    var r := Rank(s);
    if r >= 22 then 9 else if r >= 21 then 8 else if r >= 19 then 7 else if r >= 14 then 6
    else if r >= 12 then 5 else if r >= 11 then 4 else if r >= 4 then 3 else if r >= 2 then 2 else r
  }

  // One process in the approve flow: nonce and readDigest are the nonce and the digest of
  // its read action, marks are the journal positions of its milestones, cleared the
  // journal length at its precommit check and checkedAt the moment of it.
  datatype Proc = Proc(
    approvalId: string, run: string, action: ActionSpec, callId: string, readId: string, nonce: string, temp: string,
    stage: Stage, marks: seq<nat>, decidedAt: Time, cleared: nat, checkedAt: Time,
    readDigest: string, seen: Bytes)

  datatype Install = Install(approvalId: string, action: ActionSpec, claim: nat, cleared: nat, checkedAt: Time,
                             name: string, content: Bytes)

  datatype Sys = Sys(db: Db, dir: Directory, stopped: bool, procs: map<string, Proc>,
                     installs: seq<Install>, finished: seq<Proc>)

  // ---------- the content and the name an action binds ----------

  function PathOf(a: ActionSpec): string {
    if DecodeWrite(a).Some? then DecodeWrite(a).value.path else ""
  }

  function TextOf(a: ActionSpec): string {
    if DecodeWrite(a).Some? then DecodeWrite(a).value.content else ""
  }

  function ContentOf(a: ActionSpec): Bytes { Utf8.Encode(TextOf(a)) }

  // ---------- guards ----------

  // _tool_budget_exhausted
  predicate Exhausted(limits: BudgetLimits, usage: Counters) {
    || Budget.Used(usage, "tool_calls") >= limits.maxToolCalls || Budget.Used(usage, "bytes") >= limits.maxBytes
    || Budget.Used(usage, "wall_time_ms") >= limits.maxWallTimeMs || Budget.Used(usage, "lease_ms") >= limits.maxLeaseMs
  }

  // The rows a policy context is read from.
  predicate HasRows(s: Sys, run: string) { run in s.db.tables.runs && run in s.db.tables.budgets }

  // _policy_context
  function ContextOf(site: Site, s: Sys, run: string, requester: string, now: Time): Context
    requires HasRows(s, run)
  {
    var b := s.db.tables.budgets[run];
    Context(site.owner, {requester}, [site.workspace, site.sandbox], site.sandbox, site.policyVersion, now,
            s.db.tables.runs[run].state == Cancelled, s.stopped, Exhausted(b.limits, b.usage))
  }

  // The policy of this moment asks for approval of the write.
  predicate WriteAsked(site: Site, s: Sys, p: Proc, at: Time) {
    && ValidAction(site.env.hash, p.action) && HasRows(s, p.run)
    && Evaluate(site.env, p.action, ContextOf(site, s, p.run, p.action.requesterId, at)).RequireApproval?
  }

  // A tool call of n bytes fits into what the counters of the precommit check leave.
  predicate CallLeft(limits: BudgetLimits, usage: Counters, n: nat) {
    Budget.Used(usage, "tool_calls") + 1 <= limits.maxToolCalls && Budget.Used(usage, "bytes") + n <= limits.maxBytes
  }

  // precommit_check: only CANCELLED is refused among the states, and the lease test of
  // the source raises exactly when now is strictly after the lease.
  predicate PrecommitPasses(s: Sys, p: Proc, now: Time) {
    && !s.stopped
    && p.run in s.db.tables.runs && p.run in s.db.tables.budgets
    && var run, b := s.db.tables.runs[p.run], s.db.tables.budgets[p.run];
       && run.state != Cancelled && run.leaseExpiresAt.Some? && now <= run.leaseExpiresAt.value
       && now < p.action.expiresAt
       && p.action.contentLength.Some? && CallLeft(b.limits, b.usage, p.action.contentLength.value)
  }

  // ---------- the read-back ----------

  function Most(a: nat, b: nat): nat { if a < b then b else a }

  // _build_readback_action: at most the bytes just written, for the length of a tool timeout.
  function ReadAction(site: Site, p: Proc, at: Time): ActionSpec {
    var path, limit := PathOf(p.action), Most(|ContentOf(p.action)|, 1);
    var text := Print(Obj(ReadMembers(path, limit)));
    ActionSpec(READ, "1", site.policyVersion, site.verifier(p.run), site.owner, p.run, None, LocalRead,
               site.sandbox, Paths.TargetText(site.sandbox, path), text, HashText(site.env.hash, text),
               NotApplicable, false, None, None, BudgetLimits(16, 16_000, limit, 1, 2, 1, 1, 60_000, 30_000, 1),
               at, at + site.toolTimeout, p.nonce)
  }

  // The action can be built, and the policy of this moment lets it through.
  ghost predicate ReadAllowed(site: Site, s: Sys, p: Proc, at: Time) {
    var a := ReadAction(site, p, at);
    && HasRows(s, p.run) && Dated(a) && ValidAction(site.env.hash, a)
    && Evaluate(site.env, a, ContextOf(site, s, p.run, a.requesterId, at)).Allow?
  }

  // ---------- the charges ----------

  // _consume_budget for one tool call of n bytes.
  ghost function ChargeOf(db: Db, run: string, n: nat, at: Time): Option<Op> {
    if run !in db.tables.budgets then None else
    var b := db.tables.budgets[run];
    if !Budget.Within(b.limits, Budget.Spend(b.usage, n)) then None
    else Some(Record(Draft(run, "system:budget", at, BudgetUpdated(Budget.Spend(b.usage, n)))))
  }

  // ---------- steps ----------

  // What the file system decides: the inode of a new file, and whether the final
  // unlink fails.
  datatype Kernel = Kernel(inode: Inode, dropFails: bool)

  datatype Step =
    | Client(op: Op)
    | Latch(stop: bool)
    | Outside(dir: Directory)
    | Begin(pid: string, approvalId: string, callId: string, readId: string, nonce: string, temp: string)
    | Advance(pid: string, at: Time, sys: Kernel)
    | Abandon(pid: string, cleanUp: bool)

  // What anyone else, recovery included, may do to the database: every repository
  // operation, run transitions being checked and never to COMPLETED.
  predicate ClientOp(op: Op) { CheckedOp(op) && !Completing(op) }

  predicate HoldsTemp(p: Proc) { 7 <= Rank(p.stage) <= 9 }

  ghost predicate OthersOnly(s: Sys, d: Directory) {
    forall pid :: pid in s.procs && HoldsTemp(s.procs[pid]) ==> Interference(s.dir, d, s.procs[pid].temp)
  }

  // The head of approve: nothing durable happens yet.
  ghost predicate CanBegin(site: Site, s: Sys, step: Step)
    requires step.Begin?
  {
    && step.pid !in s.procs && !s.stopped
    && step.approvalId in s.db.tables.approvals
    && var row := s.db.tables.approvals[step.approvalId];
       && row.runId in s.db.tables.runs && s.db.tables.runs[row.runId].state == AwaitingApproval
       && row.action.Exact? && ValidAction(site.env.hash, row.action.action) && Dated(row.action.action)
       && row.action.action.ownerId == site.owner
  }

  function LoadedProc(s: Sys, step: Step): Proc
    requires step.Begin? && step.approvalId in s.db.tables.approvals
    requires s.db.tables.approvals[step.approvalId].action.Exact?
  {
    var row := s.db.tables.approvals[step.approvalId];
    Proc(step.approvalId, row.runId, row.action.action, step.callId, step.readId, step.nonce, step.temp,
         Loaded, [], 0, 0, 0, "", [])
  }

  // The database operation by which a process leaves a stage; None where the step is
  // not a database write.
  ghost function OpOf(site: Site, s: Sys, p: Proc, at: Time): Option<Op> {
    if !Dated(p.action) then None else
    var a, h := p.action, site.env.hash;
    match p.stage
    case Loaded => Some(Grant(p.approvalId, site.owner, at))
    case Granted => Checked(site, s, p.run, Executing, site.owner, at)
    case Decided =>
      Some(Take(ClaimArgs(p.approvalId, a.runId, a.requesterId, ActionDigest(h, a), a.requesterId, Some(a),
                          p.decidedAt)))
    case Holding =>
      if p.callId in s.db.tables.calls then None else
      Some(Record(Draft(a.runId, a.requesterId, at,
                        ToolCallProposed(p.callId, Some(p.approvalId), a.toolName, ActionDigest(h, a),
                                         CallText(Authorized, true), 1))))
    case Announced => Some(CallStep(p.callId, a.requesterId, CallText(Running, true), None, None, at))
    case Dropped =>
      Some(CallStep(p.callId, a.requesterId, CallText(Succeeded, true),
                    Some(ToolResult(PathOf(a), h(ContentOf(a)), |ContentOf(a)|, "created")), None, at))
    case Written => Some(Use(p.approvalId, a.requesterId, p.decidedAt))
    case Spent => ChargeOf(s.db, p.run, |ContentOf(p.action)|, at)
    case Charged => Checked(site, s, p.run, Verifying, "system:orchestrator", at)
    case Permitted =>
      if p.readId in s.db.tables.calls then None else
      Some(Record(Draft(p.run, site.verifier(p.run), at,
                        ToolCallProposed(p.readId, None, READ, p.readDigest, CallText(Authorized, true), 1))))
    case ReadAnnounced => Some(CallStep(p.readId, site.verifier(p.run), CallText(Running, true), None, None, at))
    case Seen =>
      Some(CallStep(p.readId, site.verifier(p.run), CallText(Succeeded, true),
                    Some(ToolResult(PathOf(a), h(p.seen), |p.seen|, "")), None, at))
    case ReadBack => if !ExactReadBack(site, p) then None else ChargeOf(s.db, p.run, |p.seen|, at)
    case Settled =>
      Some(Record(Draft(p.run, site.verifier(p.run), at,
                        ArtifactRecorded(p.callId + ":verified",
                                         Artifact(Some(p.callId), "sandbox_text", "sandbox/" + PathOf(a), h(p.seen),
                                                  |p.seen|, "VERIFIED")))))
    case Recorded => Checked(site, s, p.run, Completed, "role:verifier", at)
    case _ => None
  }

  // _transition: stop and edge are tested on the row whose state and version the
  // compare-and-set then requires.
  function Checked(site: Site, s: Sys, run: string, target: RunState, actor: string, at: Time): Option<Op> {
    if run !in s.db.tables.runs || s.stopped then None else
    var row := s.db.tables.runs[run];
    if !CanTransition(row.state, target) then None else
    var lease := if target in TERMINAL then None else Some(at + site.leaseTime);
    Some(MoveRun(run, target, actor, Some(row.state), Some(row.version), ReasonFor(target), lease, at))
  }

  function ReasonFor(target: RunState): Option<string> {
    if target == Completed then Some("exact approved effect independently verified") else None
  }

  // The postcondition test on what the read tool returned.
  ghost predicate ExactReadBack(site: Site, p: Proc) {
    && p.action.contentSha256 == Some(site.env.hash(p.seen)) && p.action.contentLength == Some(|p.seen|)
    && Utf8.Decode(p.seen).Some? && site.env.redact(Utf8.Decode(p.seen).value) == TextOf(p.action)
  }

  function NextStage(s: Stage): Stage {
    match s
    case Loaded => Granted case Granted => Started case Started => Decided case Decided => Holding
    case Holding => Announced case Announced => Active case Active => Prepared case Prepared => Cleared
    case Cleared => Installed case Installed => Dropped case Dropped => Written case Written => Spent
    case Spent => Charged case Charged => Checking case Checking => Permitted case Permitted => ReadAnnounced
    case ReadAnnounced => ReadRunning case ReadRunning => Seen case Seen => ReadBack case ReadBack => Settled
    case Settled => Recorded case Recorded => Finished case Finished => Finished
  }

  predicate IsWrite(s: Stage) {
    s !in {Started, Active, Prepared, Cleared, Installed, Checking, ReadRunning, Finished}
  }

  predicate Runs(s: Sys, pid: string, p: Proc) { pid in s.procs && s.procs[pid] == p }

  predicate Stands(s: Sys, pid: string, st: Stage) { pid in s.procs && s.procs[pid].stage == st }

  predicate AtWrite(s: Sys, pid: string) { pid in s.procs && IsWrite(s.procs[pid].stage) }

  function Moved(p: Proc): Proc { p.(stage := NextStage(p.stage)) }

  predicate Marks(s: Stage) { Milestones(NextStage(s)) > Milestones(s) }

  // After a successful write at journal length n: a milestone is marked there.
  function Successor(p: Proc, n: nat): Proc {
    if Marks(p.stage) then Moved(p).(marks := p.marks + [n]) else Moved(p)
  }

  function Onward(s: Sys, p: Proc): Proc { Successor(p, |s.db.journal|) }

  // The process is there, and its action is one that can be written down and validated.
  ghost predicate Acts(site: Site, s: Sys, pid: string) {
    pid in s.procs && Dated(s.procs[pid].action) && ValidAction(site.env.hash, s.procs[pid].action)
  }

  // A database step: the process goes on when the operation succeeds and is gone, with
  // whatever was journalled, when it raises.
  ghost function WriteStep(site: Site, s: Sys, pid: string, at: Time): Sys {
    if !Acts(site, s, pid) then s else
    var p := s.procs[pid];
    var op := OpOf(site, s, p, at);
    if op.None? then s.(procs := s.procs - {pid}) else
    var r := Exec(s.db, op.value);
    if r.1 != Done then s.(db := r.0, procs := s.procs - {pid}) else
    var q := Successor(p, |s.db.journal|);
    if p.stage == Recorded then s.(db := r.0, procs := s.procs - {pid}, finished := s.finished + [q])
    else s.(db := r.0, procs := s.procs[pid := q])
  }

  // The steps in between, on the policy and on the sandbox.
  ghost function LocalStep(site: Site, s: Sys, pid: string, at: Time, sys: Kernel): Sys {
    if !Acts(site, s, pid) then s else
    var p := s.procs[pid];
    var gone := s.(procs := s.procs - {pid});
    match p.stage
    case Started =>
      if !WriteAsked(site, s, p, at) then gone
      else s.(procs := s.procs[pid := Moved(p).(decidedAt := at)])
    case Active =>
      // the temporary file, created exclusively and written in full
      if Paths.ValidateRelative(site.env.fold, PathOf(p.action), false).None? ||
         PathOf(p.action) in s.dir.names || p.temp in s.dir.names || p.temp == PathOf(p.action) ||
         sys.inode in s.dir.data then gone
      else
        s.(dir := Extended(Created(s.dir, p.temp, sys.inode), sys.inode, ContentOf(p.action)),
           procs := s.procs[pid := Moved(p)])
    case Prepared =>
      if !PrecommitPasses(s, p, at) then Cleaned(s, pid)
      else s.(procs := s.procs[pid := Moved(p).(cleared := |s.db.journal|, checkedAt := at)])
    case Cleared =>
      if PathOf(p.action) in s.dir.names || p.temp !in s.dir.names || s.dir.names[p.temp] !in s.dir.data
      then Cleaned(s, pid)
      else
        var ins := Install(p.approvalId, p.action, ClaimMark(p), p.cleared, p.checkedAt, PathOf(p.action),
                           s.dir.data[s.dir.names[p.temp]]);
        s.(dir := Linked(s.dir, p.temp, PathOf(p.action)), procs := s.procs[pid := Moved(p)],
           installs := s.installs + [ins])
    case Installed =>
      s.(dir := if sys.dropFails then s.dir else Unlinked(s.dir, p.temp), procs := s.procs[pid := Moved(p)])
    case Checking =>
      if !ReadAllowed(site, s, p, at) then gone
      else s.(procs := s.procs[pid := Moved(p).(readDigest := ActionDigest(site.env.hash, ReadAction(site, p, at)))])
    case ReadRunning =>
      var content := Readable(s.dir, PathOf(p.action));
      if content.None? || p.action.contentLength.None? || |content.value| > Most(p.action.contentLength.value, 1)
         || Utf8.Decode(content.value).None?
      then gone
      else s.(procs := s.procs[pid := Moved(p).(seen := content.value)])
    case _ => gone
  }

  // The journal position of the claim a process holds.
  function ClaimMark(p: Proc): nat { if |p.marks| > 2 then p.marks[2] else 0 }

  // An exception inside the installer: its finally clause drops the temporary name.
  function Cleaned(s: Sys, pid: string): Sys {
    if pid !in s.procs then s else s.(dir := Unlinked(s.dir, s.procs[pid].temp), procs := s.procs - {pid})
  }

  ghost function Next(site: Site, s: Sys, step: Step): Sys {
    match step
    case Client(op) => if ClientOp(op) then s.(db := Exec(s.db, op).0) else s
    case Latch(stop) => s.(stopped := stop)
    case Outside(d) => if Intact(d) && OthersOnly(s, d) then s.(dir := d) else s
    case Begin(pid, _, _, _, _, _) => if CanBegin(site, s, step) then s.(procs := s.procs[pid := LoadedProc(s, step)]) else s
    case Advance(pid, at, sys) =>
      if AtWrite(s, pid) then WriteStep(site, s, pid, at) else LocalStep(site, s, pid, at, sys)
    case Abandon(pid, cleanUp) =>
      if pid !in s.procs then s
      else if cleanUp && HoldsTemp(s.procs[pid]) then Cleaned(s, pid)
      else s.(procs := s.procs - {pid})
  }

  ghost function Run(site: Site, s: Sys, steps: seq<Step>): Sys
    decreases |steps|
  {
    if steps == [] then s else Next(site, Run(site, s, steps[..|steps| - 1]), steps[|steps| - 1])
  }

  // An installation before its first operation, over whatever the sandbox holds.
  predicate Initial(s: Sys) {
    s.db == EMPTY_DB && Intact(s.dir) && s.procs == map[] && s.installs == [] && s.finished == []
  }
}
