/** What each test of the approve flow decides: for every step between two journalled
    writes, and for every checked transition, exactly when the process goes on, and what
    is left when it does not. */
module Gates {
  import opened Domain
  import opened Projections
  import opened Repositories
  import opened Invariants
  import opened Actions
  import opened Policy
  import opened Files
  import opened Protocol
  import opened Effects
  import Authority
  import Budget
  import Json
  import Paths
  import TimeText
  import Utf8

  /** Who may begin: a process is loaded exactly for an exact and valid approval of the
      site's owner, on a run that waits for approval, while the stop is clear.  It then holds
      the action and the run of that approval, and nothing else has changed. */
  lemma BeginsExactly(site: Site, s: Sys, step: Step)
    requires step.Begin? && step.pid !in s.procs
    ensures var t := Next(site, s, step);
            var ok := !s.stopped && step.approvalId in s.db.tables.approvals && Startable(site, s.db, step.approvalId);
            && t == s.(procs := t.procs)
            && (step.pid in t.procs <==> ok)
            && (!ok ==> t == s)
            && (ok ==>
                  var p, row := t.procs[step.pid], s.db.tables.approvals[step.approvalId];
                  && t.procs == s.procs[step.pid := p] && p.stage == Loaded && p.marks == []
                  && p.approvalId == step.approvalId && p.run == row.runId && row.action == Exact(p.action)
                  && p.callId == step.callId && p.readId == step.readId && p.nonce == step.nonce && p.temp == step.temp)
  {
    hide ValidAction, TimeText.Representable;
  }

  // The approval of a run that waits for it, with an action that can still be acted on.
  ghost predicate Startable(site: Site, db: Db, id: string)
    requires id in db.tables.approvals
  {
    var row := db.tables.approvals[id];
    && row.runId in db.tables.runs && db.tables.runs[row.runId].state == AwaitingApproval
    && row.action.Exact? && row.action.action.ownerId == site.owner
    && Dated(row.action.action) && ValidAction(site.env.hash, row.action.action)
  }

  // A process in the invariant can act, and holds its temporary file where it should.
  lemma Acting(site: Site, s: Sys, pid: string, p: Proc)
    requires SysInv(site, s) && Runs(s, pid, p)
    ensures Acts(site, s, pid) && ProcDir(s.dir, p)
  {
    hide DbOk, InstallsOk, FinishedOk, MarksOk, Known, ValidAction, TimeText.Representable, PathOf, ContentOf;
  }

  // A step between two writes, of a process that can act.
  lemma IsLocal(site: Site, s: Sys, pid: string, p: Proc, now: Time, k: Kernel)
    requires SysInv(site, s) && Runs(s, pid, p) && !IsWrite(p.stage)
    ensures Next(site, s, Advance(pid, now, k)) == LocalStep(site, s, pid, now, k)
    ensures Acts(site, s, pid) && ProcDir(s.dir, p)
  {
    hide SysInv, LocalStep, WriteStep, Acts, ProcDir, TimeText.Representable;
    Acting(site, s, pid, p);
  }

  // The database, the sandbox and what was installed are as they were.
  predicate OnlyProcs(s: Sys, t: Sys) { t == s.(procs := t.procs) }

  // The process stands at the next stage, or is gone; no other process changed.
  ghost predicate Decides(s: Sys, t: Sys, pid: string, st: Stage, goes: bool) {
    && (goes <==> Stands(t, pid, st)) && (!goes ==> pid !in t.procs)
    && forall x :: x != pid ==> (x in t.procs <==> x in s.procs) && (x in s.procs ==> t.procs[x] == s.procs[x])
  }

  // ---------- the policy decisions ----------

  // What both decisions ask at a moment: the stop is clear, the run lives, and none of its
  // four counters has reached its limit; the action is in force for the owner.
  predicate Live(site: Site, s: Sys, a: ActionSpec, run: string, now: Time) {
    var t := s.db.tables;
    && a.ownerId == site.owner && a.policyVersion == site.policyVersion && a.createdAt <= now < a.expiresAt
    && a.toolSchemaVersion == "1" && a.budget.maxToolCalls >= 1
    && !s.stopped && run in t.runs && t.runs[run].state != Cancelled && run in t.budgets
    && var b := t.budgets[run];
       && Budget.Used(b.usage, "tool_calls") < b.limits.maxToolCalls && Budget.Used(b.usage, "bytes") < b.limits.maxBytes
       && Budget.Used(b.usage, "wall_time_ms") < b.limits.maxWallTimeMs
       && Budget.Used(b.usage, "lease_ms") < b.limits.maxLeaseMs
  }

  lemma LiveIsInForce(site: Site, s: Sys, a: ActionSpec, run: string, now: Time)
    requires HasRows(s, run) && a.toolName in {LIST, READ, WRITE}
    ensures InForce(a, ContextOf(site, s, run, a.requesterId, now)) <==> Live(site, s, a, run, now)
  {
    ToolNames();
  }

  // An exact write in the sandbox, in force on a live run.
  ghost predicate MayWrite(site: Site, s: Sys, a: ActionSpec, run: string, now: Time) {
    && Live(site, s, a, run, now)
    && Arguments(a).Some? && ExactWrite(site.env, a, Arguments(a).value, site.sandbox)
  }

  // An exact read below one of the two delegated roots, in force on a live run.
  ghost predicate MayRead(site: Site, s: Sys, a: ActionSpec, run: string, now: Time) {
    && Dated(a) && ValidAction(site.env.hash, a) && Live(site, s, a, run, now)
    && Arguments(a).Some?
    && exists path :: ExactRead(site.env, a, Arguments(a).value, [site.workspace, site.sandbox], path)
  }

  // The process is permitted to read, under the digest of its read action.
  ghost predicate ReadsUnder(site: Site, t: Sys, pid: string, p: Proc, a: ActionSpec) {
    Dated(a) && Runs(t, pid, p.(stage := Permitted, readDigest := ActionDigest(site.env.hash, a)))
  }

  /** The first decision lets the process go on exactly for an exact write in the sandbox
      that is in force on a live run; that moment is then the moment of the claim. */
  lemma WriteDecides(site: Site, s: Sys, pid: string, p: Proc, now: Time, k: Kernel)
    requires SysInv(site, s) && Stands(s, pid, Started) && Runs(s, pid, p)
    ensures var t := Next(site, s, Advance(pid, now, k));
            && OnlyProcs(s, t)
            && Decides(s, t, pid, Decided, MayWrite(site, s, p.action, p.run, now))
            && (Stands(t, pid, Decided) ==> Runs(t, pid, p.(stage := Decided, decidedAt := now)))
  {
    hide SysInv, Next, Acts, WriteAsked, MayWrite, ValidAction;
    IsLocal(site, s, pid, p, now, k);
    assert ValidAction(site.env.hash, p.action) by { ActsValid(site, s, pid); }
    AskedExactly(site, s, p, now);
  }

  lemma ActsValid(site: Site, s: Sys, pid: string)
    requires Acts(site, s, pid)
    ensures ValidAction(site.env.hash, s.procs[pid].action)
  {
  }

  lemma AskedExactly(site: Site, s: Sys, p: Proc, now: Time)
    requires ValidAction(site.env.hash, p.action)
    ensures WriteAsked(site, s, p, now) <==> MayWrite(site, s, p.action, p.run, now)
  {
    hide InForce, Evaluate, Paths.CanonicalAbsolute, Arguments, WriteOf, Paths.PolicyRelative, Paths.IsSensitive;
    if HasRows(s, p.run) {
      var ctx := ContextOf(site, s, p.run, p.action.requesterId, now);
      ApprovalExactlyForBoundWrites(site.env, p.action, ctx);
      if p.action.toolName == WRITE { LiveIsInForce(site, s, p.action, p.run, now); }
    }
  }

  /** The second decision lets the process go on exactly when its read action can be built,
      is in force on a live run, and is an exact read below the two delegated roots. */
  lemma ReadDecides(site: Site, s: Sys, pid: string, p: Proc, now: Time, k: Kernel)
    requires SysInv(site, s) && Stands(s, pid, Checking) && Runs(s, pid, p)
    ensures var t, a := Next(site, s, Advance(pid, now, k)), ReadAction(site, p, now);
            && OnlyProcs(s, t)
            && Decides(s, t, pid, Permitted, MayRead(site, s, a, p.run, now))
            && (Stands(t, pid, Permitted) ==> ReadsUnder(site, t, pid, p, a))
  {
    hide SysInv, Next, Acts, ReadAllowed, MayRead, ValidAction, ReadAction, ActionDigest, TimeText.Representable;
    IsLocal(site, s, pid, p, now, k);
    AllowedExactly(site, s, p, now);
  }

  lemma HasArguments(h: Hash, a: ActionSpec)
    ensures ValidAction(h, a) ==> Arguments(a).Some?
  {
  }

  lemma AllowedFor(site: Site, s: Sys, a: ActionSpec, run: string, now: Time)
    requires a.toolName == READ && HasRows(s, run) && ValidAction(site.env.hash, a) && Dated(a)
    ensures Evaluate(site.env, a, ContextOf(site, s, run, a.requesterId, now)).Allow? <==> MayRead(site, s, a, run, now)
  {
    hide InForce, Evaluate, ExactRead, ValidAction, TimeText.Representable, Arguments, Live;
    HasArguments(site.env.hash, a);
    AllowedExactlyForBoundReads(site.env, a, ContextOf(site, s, run, a.requesterId, now));
    LiveIsInForce(site, s, a, run, now);
  }

  lemma LiveHasRows(site: Site, s: Sys, a: ActionSpec, run: string, now: Time)
    ensures Live(site, s, a, run, now) ==> HasRows(s, run)
  {
  }

  lemma AllowedExactly(site: Site, s: Sys, p: Proc, now: Time)
    ensures ReadAllowed(site, s, p, now) <==> MayRead(site, s, ReadAction(site, p, now), p.run, now)
    ensures ReadAllowed(site, s, p, now) ==> Dated(ReadAction(site, p, now))
  {
    hide Evaluate, ValidAction, TimeText.Representable, Arguments, Live, ExactRead, Most, PathOf, ContentOf;
    var a := ReadAction(site, p, now);
    LiveHasRows(site, s, a, p.run, now);
    if HasRows(s, p.run) && ValidAction(site.env.hash, a) && Dated(a) { AllowedFor(site, s, a, p.run, now); }
  }

  // ---------- the sandbox ----------

  /** The temporary file is created exactly for a path that the file layer accepts, free
      names and a fresh file; it then holds the content of the action. */
  lemma TempDecides(site: Site, s: Sys, pid: string, p: Proc, now: Time, k: Kernel)
    requires SysInv(site, s) && Stands(s, pid, Active) && Runs(s, pid, p)
    ensures var t, path := Next(site, s, Advance(pid, now, k)), PathOf(p.action);
            && t == s.(procs := t.procs, dir := t.dir)
            && Decides(s, t, pid, Prepared,
                       Paths.ValidateRelative(site.env.fold, path, false).Some? && path !in s.dir.names &&
                       p.temp !in s.dir.names && p.temp != path && k.inode !in s.dir.data)
            && t.dir == if Stands(t, pid, Prepared)
                        then Directory(s.dir.names[p.temp := k.inode], s.dir.data[k.inode := ContentOf(p.action)]) else s.dir
  {
    hide SysInv, Next, Acts, PathOf, ContentOf, Paths.ValidateRelative;
    IsLocal(site, s, pid, p, now, k);
    assert [] + ContentOf(p.action) == ContentOf(p.action);
  }

  // The stop is clear, the run lives under a lease that is not over, the action is not
  // expired, and the budget has room for one more call of its length.
  predicate MayLink(s: Sys, p: Proc, now: Time) {
    var t := s.db.tables;
    && !s.stopped && now < p.action.expiresAt && p.action.contentLength.Some?
    && p.run in t.runs && t.runs[p.run].state != Cancelled
    && t.runs[p.run].leaseExpiresAt.Some? && now <= t.runs[p.run].leaseExpiresAt.value
    && p.run in t.budgets
    && var b := t.budgets[p.run];
       && Budget.Used(b.usage, "tool_calls") < b.limits.maxToolCalls
       && Budget.Used(b.usage, "bytes") + p.action.contentLength.value <= b.limits.maxBytes
  }

  /** What the last check before the effect decides: the process goes on to the link exactly
      when the stop is clear, its run is not cancelled and under a lease that is not over,
      its action is not expired and the budget has room for the write.  Otherwise it is
      gone, and its temporary name with it; nothing else in the sandbox changes. */
  lemma CheckDecides(site: Site, s: Sys, pid: string, p: Proc, now: Time, k: Kernel)
    requires SysInv(site, s) && Stands(s, pid, Prepared) && Runs(s, pid, p)
    ensures var t := Next(site, s, Advance(pid, now, k));
            && t.db == s.db && t.installs == s.installs
            && (Stands(t, pid, Cleared) <==> MayLink(s, p, now))
            && (Stands(t, pid, Cleared) ==> t.dir == s.dir)
            && (!Stands(t, pid, Cleared) ==>
                  pid !in t.procs && t.dir.names == s.dir.names - {p.temp} && t.dir.data == s.dir.data)
  {
    hide SysInv, Next, Acts, PathOf, ContentOf;
    IsLocal(site, s, pid, p, now, k);
  }

  // The new name leads to the temporary file, and the link is on record.
  predicate Makes(s: Sys, t: Sys, p: Proc, path: string) {
    && p.temp in s.dir.names && t.dir == s.dir.(names := s.dir.names[path := s.dir.names[p.temp]])
    && |t.installs| == |s.installs| + 1 && s.installs <= t.installs
    && var ins := t.installs[|s.installs|];
       && ins.approvalId == p.approvalId && ins.action == p.action && ins.name == path
       && ins.content == ContentOf(p.action) && ins.cleared == p.cleared && ins.checkedAt == p.checkedAt
  }

  /** The link is made exactly when its name is free; otherwise the process is gone, and its
      temporary name with it. */
  lemma LinkDecides(site: Site, s: Sys, pid: string, p: Proc, now: Time, k: Kernel)
    requires SysInv(site, s) && Stands(s, pid, Cleared) && Runs(s, pid, p)
    ensures var t, path := Next(site, s, Advance(pid, now, k)), PathOf(p.action);
            && t.db == s.db && Decides(s, t, pid, Installed, path !in s.dir.names)
            && (path in s.dir.names ==>
                  t.installs == s.installs && t.dir == s.dir.(names := s.dir.names - {p.temp}))
            && (path !in s.dir.names ==> Makes(s, t, p, path))
  {
    hide SysInv, Next, Acts, PathOf, ContentOf;
    IsLocal(site, s, pid, p, now, k);
  }

  // Something readable, not longer than what was to be written, or a single byte, and text.
  ghost predicate MayFetch(a: ActionSpec, got: Option<Bytes>) {
    && got.Some? && a.contentLength.Some? && (|got.value| <= a.contentLength.value || |got.value| <= 1)
    && exists text :: Utf8.Encode(text) == got.value
  }

  lemma FetchExactly(a: ActionSpec, got: Option<Bytes>)
    ensures MayFetch(a, got) <==>
            got.Some? && a.contentLength.Some? && |got.value| <= Most(a.contentLength.value, 1) &&
            Utf8.Decode(got.value).Some?
  {
    hide Utf8.Encode;
  }

  /** The read returns exactly the whole content of a file with one name, no longer than
      what was to be written and valid text; otherwise the process is gone. */
  lemma FetchDecides(site: Site, s: Sys, pid: string, p: Proc, now: Time, k: Kernel)
    requires SysInv(site, s) && Stands(s, pid, ReadRunning) && Runs(s, pid, p)
    ensures var t, got := Next(site, s, Advance(pid, now, k)), Readable(s.dir, PathOf(p.action));
            && OnlyProcs(s, t)
            && Decides(s, t, pid, Seen, MayFetch(p.action, got))
            && (Stands(t, pid, Seen) ==> got.Some? && Runs(t, pid, p.(stage := Seen, seen := got.value)))
  {
    hide SysInv, Next, Acts, PathOf, ContentOf, Readable, Utf8.Encode, MayFetch;
    FetchExactly(p.action, Readable(s.dir, PathOf(p.action)));
    IsLocal(site, s, pid, p, now, k);
  }

  // ---------- the checked transitions ----------

  // Where a transition of the flow leads, where it may start, and who makes it.
  function TargetOf(st: Stage): RunState {
    if st == Granted then Executing else if st == Charged then Verifying else Completed
  }

  function SourcesOf(st: Stage): set<RunState> {
    if st == Granted then {AwaitingApproval} else if st == Charged then {Planning, Executing} else {Verifying}
  }

  function MoverOf(site: Site, st: Stage): string {
    if st == Granted then site.owner else if st == Charged then "system:orchestrator" else "role:verifier"
  }

  function ReasonOf(st: Stage): Option<string> {
    if st == Recorded then Some("exact approved effect independently verified") else None
  }

  // The run alone moved, by one event, under a new lease unless it is over.
  ghost predicate RunMoved(site: Site, db: Db, db': Db, run: string, st: Stage, at: Time) {
    && run in db'.tables.runs && db'.tables == db.tables.(runs := db'.tables.runs)
    && db'.tables.runs - {run} == db.tables.runs - {run}
    && db'.tables.runs[run].state == TargetOf(st)
    && db'.tables.runs[run].leaseExpiresAt == (if st == Recorded then None else Some(at + site.leaseTime))
    && Authority.Journalled(db, db', run, MoverOf(site, st), at,
                            RunStateChanged(TargetOf(st), ReasonOf(st), db'.tables.runs[run].leaseExpiresAt))
  }

  // The stop is clear, and the run is where the transition starts.
  predicate MayMove(s: Sys, p: Proc) {
    !s.stopped && p.run in s.db.tables.runs && s.db.tables.runs[p.run].state in SourcesOf(p.stage)
  }

  lemma SourcesAre(st: Stage, state: RunState)
    requires st in {Granted, Charged, Recorded}
    ensures CanTransition(state, TargetOf(st)) <==> state in SourcesOf(st)
    ensures TargetOf(st) in TERMINAL <==> st == Recorded
  {
  }

  /** A transition of the flow is made exactly while the stop is clear and the run is where
      the transition starts: EXECUTING from the wait for approval, VERIFYING from EXECUTING,
      or from PLANNING, COMPLETED from VERIFYING.  Otherwise the process is gone and nothing
      else has changed. */
  lemma MoveDecides(site: Site, s: Sys, pid: string, p: Proc, at: Time, k: Kernel)
    requires SysInv(site, s) && Runs(s, pid, p) && p.stage in {Granted, Charged, Recorded}
    ensures var t := Next(site, s, Advance(pid, at, k));
            var goes := MayMove(s, p) && p.run != "" && MoverOf(site, p.stage) != "";
            && t.dir == s.dir && t.installs == s.installs
            && (goes ==> RunMoved(site, s.db, t.db, p.run, p.stage, at))
            && (!goes ==> t == s.(procs := s.procs - {pid}))
            && (goes && p.stage != Recorded ==> Stands(t, pid, NextStage(p.stage)) && t.finished == s.finished)
            && (goes && p.stage == Recorded ==> pid !in t.procs && |t.finished| == |s.finished| + 1)
  {
    hide SysInv, OpOf, Exec, Acts, RunMoved, TimeText.Representable, MayMove, ReasonFor, Checked, MoverOf;
    Acting(site, s, pid, p);
    MoveIsChecked(site, s, pid, p, at);
    MoveMeans(site, s, p, at);
  }

  // The operation of the three stages is a checked transition.
  lemma MoveIsChecked(site: Site, s: Sys, pid: string, p: Proc, at: Time)
    requires Acts(site, s, pid) && Runs(s, pid, p) && p.stage in {Granted, Charged, Recorded}
    ensures OpOf(site, s, p, at) == Checked(site, s, p.run, TargetOf(p.stage), MoverOf(site, p.stage), at)
  {
    hide ValidAction, TimeText.Representable, Checked;
  }

  lemma MoveMeans(site: Site, s: Sys, p: Proc, at: Time)
    requires p.stage in {Granted, Charged, Recorded}
    ensures var op := Checked(site, s, p.run, TargetOf(p.stage), MoverOf(site, p.stage), at);
            && (op.Some? <==> MayMove(s, p))
            && (MayMove(s, p) ==>
                  var (db', reply) := Exec(s.db, op.value);
                  && (reply == Done <==> p.run != "" && MoverOf(site, p.stage) != "")
                  && (reply == Done ==> RunMoved(site, s.db, db', p.run, p.stage, at))
                  && (reply != Done ==> db' == s.db))
  {
    hide Transition, MoverOf;
    var actor := MoverOf(site, p.stage);
    if p.run in s.db.tables.runs {
      var row := s.db.tables.runs[p.run];
      SourcesAre(p.stage, row.state);
      Authority.TransitionMeans(s.db, p.run, TargetOf(p.stage), actor, Some(row.state), Some(row.version), ReasonOf(p.stage),
                                if p.stage == Recorded then None else Some(at + site.leaseTime), at);
    }
  }

  // ---------- the charges ----------

  // The bytes a tool call of the flow is charged for.
  function BytesOf(p: Proc): nat { if p.stage == Spent then |ContentOf(p.action)| else |p.seen| }

  // A call and its bytes are left, and no other counter is over its limit.
  ghost predicate Affords(db: Db, run: string, n: nat) {
    && run != "" && run in db.tables.budgets
    && var b := db.tables.budgets[run];
       && Budget.Used(b.usage, "tool_calls") < b.limits.maxToolCalls
       && Budget.Used(b.usage, "bytes") + n <= b.limits.maxBytes
       && Budget.OthersWithin(b.limits, b.usage)
  }

  // One call and its bytes were charged to the run, by one event.
  ghost predicate RunCharged(db: Db, db': Db, run: string, n: nat, at: Time) {
    && run in db.tables.budgets && run in db'.tables.budgets && db'.tables == db.tables.(budgets := db'.tables.budgets)
    && db'.tables.budgets - {run} == db.tables.budgets - {run}
    && var was, b := db.tables.budgets[run], db'.tables.budgets[run];
       && b.limits == was.limits
       && Budget.Used(b.usage, "tool_calls") == Budget.Used(was.usage, "tool_calls") + 1
       && Budget.Used(b.usage, "bytes") == Budget.Used(was.usage, "bytes") + n
       && Budget.Used(b.usage, "wall_time_ms") == Budget.Used(was.usage, "wall_time_ms")
       && Budget.Used(b.usage, "lease_ms") == Budget.Used(was.usage, "lease_ms")
       && Authority.Journalled(db, db', run, "system:budget", at, BudgetUpdated(b.usage))
  }

  // What was read back is what was approved: its digest, its length and its redacted text.
  ghost predicate Matches(site: Site, p: Proc) {
    && p.action.contentSha256 == Some(site.env.hash(p.seen)) && p.action.contentLength == Some(|p.seen|)
    && exists text :: Utf8.Encode(text) == p.seen && site.env.redact(text) == TextOf(p.action)
  }

  lemma MatchesExactly(site: Site, p: Proc)
    ensures ExactReadBack(site, p) <==> Matches(site, p)
  {
    hide Utf8.Encode, TextOf;
    if Matches(site, p) {
      var text :| Utf8.Encode(text) == p.seen && site.env.redact(text) == TextOf(p.action);
      Utf8.DecodeEncode(text);
    }
  }

  /** After the write, and after the read-back, the flow goes on exactly when the call can be
      charged to the run, and after the read-back only with what was approved.  The charge
      is one call and its bytes; otherwise the process is gone and nothing else changed. */
  lemma ChargeDecides(site: Site, s: Sys, pid: string, p: Proc, at: Time, k: Kernel)
    requires SysInv(site, s) && Runs(s, pid, p) && p.stage in {Spent, ReadBack}
    ensures var t := Next(site, s, Advance(pid, at, k));
            var goes := (p.stage == ReadBack ==> Matches(site, p)) && Affords(s.db, p.run, BytesOf(p));
            && t.dir == s.dir && t.installs == s.installs && t.finished == s.finished
            && (goes ==> RunCharged(s.db, t.db, p.run, BytesOf(p), at) && Stands(t, pid, NextStage(p.stage)))
            && (!goes ==> t == s.(procs := s.procs - {pid}))
  {
    hide SysInv, OpOf, Exec, Acts, RunCharged, Affords, Matches, TimeText.Representable, ContentOf;
    Acting(site, s, pid, p);
    ChargeIsOp(site, s, pid, p, at);
    ChargeMeans(s.db, p.run, BytesOf(p), at);
  }

  lemma ChargeIsOp(site: Site, s: Sys, pid: string, p: Proc, at: Time)
    requires Acts(site, s, pid) && Runs(s, pid, p) && p.stage in {Spent, ReadBack}
    ensures OpOf(site, s, p, at) ==
            if p.stage == ReadBack && !Matches(site, p) then None else ChargeOf(s.db, p.run, BytesOf(p), at)
  {
    hide ValidAction, TimeText.Representable, Matches, ExactReadBack, ChargeOf, ContentOf;
    MatchesExactly(site, p);
  }

  lemma ChargeMeans(db: Db, run: string, n: nat, at: Time)
    ensures var op := ChargeOf(db, run, n, at);
            && (Affords(db, run, n) ==>
                  op.Some? && Exec(db, op.value).1 == Done && RunCharged(db, Exec(db, op.value).0, run, n, at))
            && (!Affords(db, run, n) && op.Some? ==> Exec(db, op.value).1 != Done && Exec(db, op.value).0 == db)
  {
    hide Exec, Budget.Spend, Budget.Used, Budget.OthersWithin, Budget.Within;
    if run in db.tables.budgets {
      var b := db.tables.budgets[run];
      Budget.SpendFits(b.limits, b.usage, n);
      Authority.RecordMeans(db, Draft(run, "system:budget", at, BudgetUpdated(Budget.Spend(b.usage, n))));
    }
  }

  // ---------- the record of the verified file ----------

  // The row of a verified file: of the run and its write call, found where it was written,
  // with the digest and the length that were read back.
  predicate Verified(site: Site, row: ArtifactRow, p: Proc) {
    && row.runId == p.run && row.artifact.toolCallId == Some(p.callId) && row.artifact.kind == "sandbox_text"
    && row.artifact.locator == "sandbox/" + PathOf(p.action) && row.artifact.digest == site.env.hash(p.seen)
    && row.artifact.byteLength == |p.seen| && row.artifact.verification == "VERIFIED"
  }

  // One more artifact, by one event of the verifier.
  ghost predicate RunRecorded(site: Site, db: Db, db': Db, p: Proc, at: Time) {
    && |db'.journal| == |db.journal| + 1 && db.journal <= db'.journal
    && db'.journal[|db.journal|].actorId == site.verifier(p.run) && db'.journal[|db.journal|].createdAt == at
    && exists id ::
         && id !in db.tables.artifacts && id in db'.tables.artifacts && Verified(site, db'.tables.artifacts[id], p)
         && db'.tables == db.tables.(artifacts := db.tables.artifacts[id := db'.tables.artifacts[id]])
  }

  /** The verified file is recorded exactly under a new id; otherwise the process is gone and
      nothing else has changed. */
  lemma StoreDecides(site: Site, s: Sys, pid: string, p: Proc, at: Time, k: Kernel)
    requires SysInv(site, s) && Runs(s, pid, p) && p.stage == Settled
    ensures var t := Next(site, s, Advance(pid, at, k));
            && t.dir == s.dir && t.installs == s.installs && t.finished == s.finished
            && (Stands(t, pid, Recorded) ==> RunRecorded(site, s.db, t.db, p, at))
            && (!Stands(t, pid, Recorded) ==> t == s.(procs := s.procs - {pid}))
            && (Stands(t, pid, Recorded) <==>
                  p.callId + ":verified" !in s.db.tables.artifacts && p.run != "" && site.verifier(p.run) != "")
  {
    hide SysInv, OpOf, Exec, Acts, RunRecorded, TimeText.Representable;
    Acting(site, s, pid, p);
    StoreIsOp(site, s, pid, p, at);
    StoreMeans(site, s.db, p, at);
  }

  function StoreOp(site: Site, p: Proc, at: Time): Op {
    Record(Draft(p.run, site.verifier(p.run), at,
                 ArtifactRecorded(p.callId + ":verified",
                                  Artifact(Some(p.callId), "sandbox_text", "sandbox/" + PathOf(p.action),
                                           site.env.hash(p.seen), |p.seen|, "VERIFIED"))))
  }

  lemma StoreIsOp(site: Site, s: Sys, pid: string, p: Proc, at: Time)
    requires Acts(site, s, pid) && Runs(s, pid, p) && p.stage == Settled
    ensures OpOf(site, s, p, at) == Some(StoreOp(site, p, at))
  {
    hide ValidAction, TimeText.Representable, PathOf;
  }

  lemma StoreMeans(site: Site, db: Db, p: Proc, at: Time)
    ensures var (db', reply) := Exec(db, StoreOp(site, p, at));
            && (reply == Done <==>
                  p.callId + ":verified" !in db.tables.artifacts && p.run != "" && site.verifier(p.run) != "")
            && (reply == Done ==> RunRecorded(site, db, db', p, at))
            && (reply != Done ==> db' == db)
  {
    hide Exec, PathOf;
    Authority.RecordMeans(db, StoreOp(site, p, at).draft);
    var db' := Exec(db, StoreOp(site, p, at)).0;
    var id := p.callId + ":verified";
    if Exec(db, StoreOp(site, p, at)).1 == Done {
      assert id !in db.tables.artifacts && id in db'.tables.artifacts && Verified(site, db'.tables.artifacts[id], p);
    }
  }

  // ---------- the read-back action ----------

  /** The action of the read-back asks for exactly the file that was written and for no more
      bytes than it has, or one: a single local read by the verifier for the owner, below
      the sandbox, for the length of a tool timeout. */
  lemma ReadActionMeans(site: Site, p: Proc, at: Time)
    ensures var a, limit := ReadAction(site, p, at), if |ContentOf(p.action)| == 0 then 1 else |ContentOf(p.action)|;
            && a.toolName == "fs.read" && a.toolSchemaVersion == "1" && a.policyVersion == site.policyVersion
            && a.requesterId == site.verifier(p.run) && a.ownerId == site.owner && a.runId == p.run && a.workItemId == None
            && a.riskClass == LocalRead && a.root == site.sandbox
            && a.target == Paths.TargetText(site.sandbox, PathOf(p.action))
            && a.expectedPriorState == NotApplicable && !a.overwrite && a.contentSha256 == None && a.contentLength == None
            && a.argumentsSha256 == HashText(site.env.hash, a.argumentsJson)
            && Arguments(a).Some? && KeySet(Arguments(a).value) == {"path", "max_bytes"}
            && Get(Arguments(a).value, "path") == Some(Json.Str(PathOf(p.action)))
            && Get(Arguments(a).value, "max_bytes") == Some(Json.Int(limit))
            && a.budget.maxToolCalls == 1 && a.budget.maxBytes == limit
            && a.createdAt == at && a.expiresAt == at + site.toolTimeout && a.nonce == p.nonce
  {
    hide PathOf, ContentOf, Paths.TargetText, HashText, Json.Print, Json.Canon;
    var limit := Most(|ContentOf(p.action)|, 1);
    ReadArgumentsRoundTrip(ReadAction(site, p, at), PathOf(p.action), limit);
  }
}
