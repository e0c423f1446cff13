/** What a recovery finds after the approve flow died at each of its stages. */
module Crashes {
  import opened Domain
  import opened Projections
  import opened Repositories
  import opened Histories
  import opened Growth
  import opened Actions
  import opened Policy
  import opened Files
  import opened Protocol
  import opened Effects
  import opened Progress
  import Paths
  import Recovery
  import Restart
  import TimeText

  // ---------- every reachable database is one recovery may start from ----------

  lemma NextIsGood(site: Site, s: Sys, step: Step)
    requires Good(s.db)
    ensures Good(Next(site, s, step).db)
  {
    hide Good, Exec, OpOf, Acts, LocalStep, CheckedOp, CanBegin, OthersOnly, LoadedProc, ActionDigest;
    match step
    case Client(op) => if ClientOp(op) { GoodExec(s.db, op); }
    case Advance(pid, at, k) =>
      if !AtWrite(s, pid) {
        LocalKeepsDb(site, s, pid, at, k);
      } else {
        var p := s.procs[pid];
        var op := OpOf(site, s, p, at);
        if op.Some? {
          OpChecked(site, s, p, op.value, at);
          GoodExec(s.db, op.value);
        }
      }
    case _ =>
  }

  lemma LocalKeepsDb(site: Site, s: Sys, pid: string, at: Time, k: Kernel)
    ensures LocalStep(site, s, pid, at, k).db == s.db
  {
    hide Acts, WriteAsked, ReadAllowed, ReadAction, ActionDigest, PrecommitPasses, Readable, PathOf, ContentOf;
  }

  /** Whatever the protocol did, recovery may start: its theorems ask no more of the
      database than what every reachable one satisfies. */
  lemma {:induction false} ReachableIsGood(site: Site, s0: Sys, steps: seq<Step>)
    requires Initial(s0)
    ensures Good(Run(site, s0, steps).db)
    decreases |steps|
  {
    hide Good, Next;
    if steps == [] {
      EmptyIsGood();
    } else {
      ReachableIsGood(site, s0, steps[..|steps| - 1]);
      NextIsGood(site, Run(site, s0, steps[..|steps| - 1]), steps[|steps| - 1]);
    }
  }

  // ---------- what recovery reads of a flow that died ----------

  // Recovery runs with the configuration the flow ran with.
  ghost predicate SameSettings(cfg: Recovery.Settings, site: Site, a: ActionSpec)
    requires Dated(a)
  {
    && cfg.hash == site.env.hash && cfg.fold == site.env.fold && cfg.sandbox == site.sandbox
    && cfg.digest(a) == ActionDigest(site.env.hash, a) && |ContentOf(a)| <= cfg.maxReadBytes
  }

  lemma PostconditionIsBound(cfg: Recovery.Settings, site: Site, p: Proc)
    requires Fits(site, p) && SameSettings(cfg, site, p.action)
    ensures Recovery.RecoverableWrite(cfg, p.action) && Recovery.PostconditionBound(cfg, p.action)
    ensures DecodeWrite(p.action).Some? && DecodeWrite(p.action).value == WriteArguments(PathOf(p.action), TextOf(p.action))
  {
    WriteToolAccepts(site, p);
    ActionNamed(site, p);
    hide ValidAction, TimeText.Representable, Paths.ValidateRelative, Paths.PolicyRelative, Paths.IsSensitive, ActionDigest;
  }

  lemma AuthorityIsBound(cfg: Recovery.Settings, site: Site, s: Sys, pid: string, w: Window, i: Inode, r: nat)
    requires Standing(site, s, pid, w, i, r) && 6 <= r <= 10 && SameSettings(cfg, site, s.procs[pid].action)
    ensures var p := s.procs[pid];
            && p.callId in s.db.tables.calls && p.approvalId in s.db.tables.approvals
            && var call, row := s.db.tables.calls[p.callId], s.db.tables.approvals[p.approvalId];
               call.approvalId == Some(p.approvalId) && row.action == Exact(p.action) &&
               Recovery.HoldsAuthority(cfg, row) && Recovery.DurableBindingsAgree(cfg, call, row, p.action)
  {
    hide ValidAction, TimeText.Representable, RightWrite, PathOf, ContentOf, ActionDigest, DirFits, RunFits;
  }

  // The binding recovery reconstructs is the flow's own.
  lemma BindingIsTheFlows(cfg: Recovery.Settings, site: Site, s: Sys, pid: string, w: Window, i: Inode, r: nat)
    requires Standing(site, s, pid, w, i, r) && 6 <= r <= 10 && SameSettings(cfg, site, s.procs[pid].action)
    ensures var p := s.procs[pid];
            && p.callId in s.db.tables.calls
            && Recovery.Bind(cfg, s.db, p.callId) ==
               Some(Recovery.Binding(p.action, p.approvalId, p.action.requesterId, PathOf(p.action), ContentOf(p.action)))
  {
    AuthorityIsBound(cfg, site, s, pid, w, i, r);
    PostconditionIsBound(cfg, site, s.procs[pid]) by { hide ValidAction, RightWrite, PathOf, ContentOf; }
    hide Standing, ValidAction, Recovery.HoldsAuthority, Recovery.DurableBindingsAgree, Recovery.RecoverableWrite,
         Recovery.PostconditionBound, Arguments, SameSettings;
  }

  lemma CallAt(site: Site, s: Sys, pid: string, w: Window, i: Inode, r: nat)
    requires Standing(site, s, pid, w, i, r) && r >= 5
    ensures s.procs[pid].callId in s.db.tables.calls
    ensures s.db.tables.calls[s.procs[pid].callId].state == CallText(CallStateAt(r), true)
    ensures s.db.tables.calls[s.procs[pid].callId].runId == s.procs[pid].run
  {
    hide Fits, RunFits, ApprovalFits, DirFits, ActionDigest;
  }

  lemma RunAt(site: Site, s: Sys, pid: string, w: Window, i: Inode, r: nat)
    requires Standing(site, s, pid, w, i, r)
    ensures s.procs[pid].run in s.db.tables.runs && s.db.tables.runs[s.procs[pid].run].state == StateAt(r)
  {
    hide Fits, CallsFit, ApprovalFits, DirFits, ContentOf;
  }

  // The approved file is readable only once the temporary name is gone.
  lemma ReadableAt(site: Site, s: Sys, pid: string, w: Window, i: Inode, r: nat)
    requires Standing(site, s, pid, w, i, r) && 6 <= r <= 10
    ensures (Readable(s.dir, PathOf(s.procs[pid].action)) == Some(ContentOf(s.procs[pid].action))) <==> r == 10
  {
    hide RunFits, CallsFit, ApprovalFits, ContentOf, PathOf, ValidAction, RightWrite;
    var p := s.procs[pid];
    if r == 9 { assert p.temp != PathOf(p.action) && |{p.temp, PathOf(p.action)}| == 2; }
  }

  // No earlier recovery has dealt with the call.
  ghost predicate Untried(s: Sys, call: string) {
    !Recovery.BlockedIn(s.db.journal, call) && Recovery.ArtifactId(call) !in s.db.tables.artifacts
  }

  /** A crash after the temporary name was dropped and before the success was recorded
      leaves a call that recovery reconciles. */
  lemma CrashAfterUnlinkIsReconcilable(cfg: Recovery.Settings, site: Site, s: Sys, pid: string, w: Window, i: Inode)
    requires Standing(site, s, pid, w, i, 10) && SameSettings(cfg, site, s.procs[pid].action)
    requires Untried(s, s.procs[pid].callId)
    ensures Restart.OnItsWay(Restart.Aim(cfg, s.dir, s.procs[pid].callId), s.db)
  {
    hide Standing, Recovery.Bind, SameSettings, PathOf, ContentOf, Recovery.BlockedIn, Readable;
    BindingIsTheFlows(cfg, site, s, pid, w, i, 10);
    CallAt(site, s, pid, w, i, 10);
    RunAt(site, s, pid, w, i, 10);
    ReadableAt(site, s, pid, w, i, 10);
  }

  /** A crash earlier, while the call is RUNNING, is blocked: before the link there is no
      file, and between the link and the unlink the file has two names. */
  lemma CrashBeforeUnlinkIsBlocked(cfg: Recovery.Settings, site: Site, s: Sys, pid: string, w: Window, i: Inode, r: nat,
                                   g: Recovery.Glance)
    requires Standing(site, s, pid, w, i, r) && 6 <= r <= 9 && SameSettings(cfg, site, s.procs[pid].action)
    requires Restart.Clear(g, s.dir)
    ensures s.procs[pid].callId in s.db.tables.calls
    ensures Recovery.Obstacle(cfg, s.db, s.procs[pid].callId, false, g) == Some("exact_postcondition_mismatch")
  {
    hide Standing, Recovery.Bind, SameSettings, PathOf, ContentOf, Readable;
    BindingIsTheFlows(cfg, site, s, pid, w, i, r);
    CallAt(site, s, pid, w, i, r);
    RunAt(site, s, pid, w, i, r);
    ReadableAt(site, s, pid, w, i, r);
  }

  /** A crash between the claim and RUNNING, or after SUCCEEDED, is not picked up at all. */
  lemma CrashOutsideRunningIsNotSelected(site: Site, s: Sys, pid: string, w: Window, i: Inode, r: nat)
    requires Standing(site, s, pid, w, i, r) && (r <= 5 || r >= 11)
    ensures !Recovery.Selected(s.db, s.procs[pid].callId)
  {
    hide Fits, RunFits, ApprovalFits, CallsFit, DirFits, ContentOf;
    if r >= 5 {
      CallAt(site, s, pid, w, i, r);
    } else {
      NoCallYet(site, s, pid, w, i, r);
    }
  }

  lemma NoCallYet(site: Site, s: Sys, pid: string, w: Window, i: Inode, r: nat)
    requires Standing(site, s, pid, w, i, r) && r < 5
    ensures s.procs[pid].callId !in s.db.tables.calls
  {
    hide Fits, RunFits, ApprovalFits, DirFits, ActionDigest;
  }
}
