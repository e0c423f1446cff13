/** A cancellation or an emergency stop that races the approve flow: over every interleaving
    it keeps files out of the sandbox unless some process has already passed the precommit
    check and not yet linked. */
module Races {
  import opened Domain
  import opened Projections
  import opened Repositories
  import opened Histories
  import opened Invariants
  import opened Actions
  import opened Policy
  import opened Files
  import opened Protocol
  import opened Effects
  import Paths
  import Replay
  import TimeText
  import Utf8

  // Between the precommit check and the link.
  predicate Exposed(s: Sys, pid: string, run: string) {
    pid in s.procs && s.procs[pid].run == run && s.procs[pid].stage == Cleared
  }

  // The run is cancelled and none of its processes is past the check.
  ghost predicate Halted(s: Sys, run: string) {
    Replay.IsCancelled(s.db, run) && forall pid :: pid in s.procs ==> !Exposed(s, pid, run)
  }

  // Whatever was installed since belongs to other runs.
  ghost predicate NoneInstalled(s: Sys, t: Sys, run: string) {
    && s.installs <= t.installs
    && forall k :: |s.installs| <= k < |t.installs| ==> t.installs[k].action.runId != run
  }

  lemma CancelledStays(db: Db, op: Op, run: string)
    requires Inv(db) && CheckedOp(op) && Replay.IsCancelled(db, run)
    ensures Replay.IsCancelled(Exec(db, op).0, run)
  {
    hide Inv, Exec, Replay.IsCancelled, CheckedOp;
    assert [op][1..] == [];
    Replay.CancelledForever(db, [op], run);
  }

  lemma DbIsFine(site: Site, s: Sys)
    requires SysInv(site, s)
    ensures Inv(s.db)
  {
    hide Inv, ProcsOk, InstallsOk, FinishedOk, LegalHistory;
  }

  // A process about to link acts for the run of its action.
  lemma BoundRun(site: Site, s: Sys, pid: string, p: Proc)
    requires SysInv(site, s) && Runs(s, pid, p) && p.stage == Cleared
    ensures p.action.runId == p.run
  {
    hide DbOk, InstallsOk, FinishedOk, Sound, MarksOk, RightWrite, BoundTo, NotCancelledBefore, CheckedInTime, ProcDir, ExactReadBack;
  }

  // The run stays halted, and whatever is installed belongs to other runs.
  ghost predicate Halting(s: Sys, t: Sys, run: string) { Halted(t, run) && NoneInstalled(s, t, run) }

  lemma WriteHalts(site: Site, s: Sys, pid: string, at: Time, run: string)
    requires SysInv(site, s) && Halted(s, run) && AtWrite(s, pid)
    ensures Halting(s, WriteStep(site, s, pid, at), run)
  {
    hide SysInv, Exec, OpOf, Acts, Marks, Replay.IsCancelled, CheckedOp;
    DbIsFine(site, s);
    var p := s.procs[pid];
    var op := OpOf(site, s, p, at);
    if op.Some? {
      OpChecked(site, s, p, op.value, at);
      CancelledStays(s.db, op.value, run);
    }
  }

  lemma LocalHalts(site: Site, s: Sys, pid: string, at: Time, k: Kernel, run: string)
    requires SysInv(site, s) && Halted(s, run)
    ensures Halting(s, LocalStep(site, s, pid, at, k), run)
  {
    hide SysInv, Acts, WriteAsked, ReadAllowed, ReadAction, ActionDigest, CallLeft, Readable, PathOf, ContentOf,
         Paths.ValidateRelative, Utf8.Decode, Extended, Created, Linked, Unlinked;
    if pid !in s.procs {
      NoStep(site, s, pid, at, k);
    } else if s.procs[pid].stage == Cleared {
      BoundRun(site, s, pid, s.procs[pid]);
    }
  }

  lemma BeginHalts(site: Site, s: Sys, step: Step, run: string)
    requires Halted(s, run) && step.Begin?
    ensures Halting(s, Next(site, s, step), run)
  {
    hide ValidAction, TimeText.Representable, Exec, WriteStep, LocalStep, Replay.IsCancelled;
  }

  lemma NextHalts(site: Site, s: Sys, step: Step, run: string)
    requires SysInv(site, s) && Halted(s, run)
    ensures Halting(s, Next(site, s, step), run)
  {
    hide SysInv, WriteStep, LocalStep, CanBegin, OthersOnly, Intact, Exec, AtWrite, CheckedOp,
         Replay.IsCancelled;
    match step
    case Client(op) => if ClientOp(op) { DbIsFine(site, s); CancelledStays(s.db, op, run); }
    case Begin(_, _, _, _, _, _) => BeginHalts(site, s, step, run);
    case Advance(pid, at, k) =>
      if AtWrite(s, pid) { WriteHalts(site, s, pid, at, run); } else { LocalHalts(site, s, pid, at, k, run); }
    case _ =>
  }

  lemma {:induction false} HaltedForever(site: Site, s: Sys, steps: seq<Step>, run: string)
    requires SysInv(site, s) && Halted(s, run)
    ensures SysInv(site, Run(site, s, steps)) && Halted(Run(site, s, steps), run)
    ensures NoneInstalled(s, Run(site, s, steps), run)
    decreases |steps|
  {
    hide SysInv, Next, Halted;
    if steps != [] {
      var t, last := Run(site, s, steps[..|steps| - 1]), steps[|steps| - 1];
      HaltedForever(site, s, steps[..|steps| - 1], run);
      NextKeeps(site, t, last);
      NextHalts(site, t, last, run);
    }
  }

  // The cancellation commits, and touches neither a process nor the sandbox.
  lemma CancelCommits(site: Site, s: Sys, run: string, actor: string, why: string, at: Time)
    requires run in s.db.tables.runs && run != "" && actor != ""
    ensures var c := Next(site, s, Client(StopRun(run, actor, why, at)));
            Replay.IsCancelled(c.db, run) && c == s.(db := c.db)
  {
    hide CancelRun, WriteStep, LocalStep, CanBegin, OthersOnly;
    Replay.CancelRevokes(s.db, run, actor, why, at);
  }

  // A process past the check links whatever the database says, if the target is free.
  lemma LinksAnyway(site: Site, c: Sys, pid: string, p: Proc, run: string, now: Time, k: Kernel)
    requires SysInv(site, c) && Exposed(c, pid, run) && Runs(c, pid, p) && PathOf(p.action) !in c.dir.names
    ensures !NoneInstalled(c, Next(site, c, Advance(pid, now, k)), run)
  {
    hide DbOk, InstallsOk, FinishedOk, MarksOk, RightWrite, BoundTo, NotCancelledBefore, CheckedInTime, ValidAction, TimeText.Representable,
         WriteStep, Exec, PathOf, ContentOf, Milestone, ActionDigest;
    BoundRun(site, c, pid, p) by { hide SysInv; }
    var t := Next(site, c, Advance(pid, now, k));
    assert |t.installs| == |c.installs| + 1 && t.installs[|c.installs|].action.runId == run;
  }

  /** In every reachable system a committed cancellation of a run settles what its
      processes may still do.  If none of them stands between the precommit check and the
      link, no continuation whatever installs another file for the run; one that does
      stand there installs its file all the same, as soon as its target is free. */
  lemma CancellationRace(site: Site, s0: Sys, before: seq<Step>, run: string, actor: string, why: string, at: Time,
                         after: seq<Step>, pid: string, now: Time, k: Kernel)
    requires Initial(s0) && run in Run(site, s0, before).db.tables.runs && run != "" && actor != ""
    ensures var s := Run(site, s0, before);
            var c := Next(site, s, Client(StopRun(run, actor, why, at)));
            && Replay.IsCancelled(c.db, run)
            && ((forall x :: x in s.procs ==> !Exposed(s, x, run)) ==> NoneInstalled(c, Run(site, c, after), run))
            && (Exposed(s, pid, run) && PathOf(s.procs[pid].action) !in s.dir.names ==>
                  !NoneInstalled(c, Run(site, c, [Advance(pid, now, k)]), run))
  {
    hide SysInv, Next, Replay.IsCancelled, PathOf;
    var s := Run(site, s0, before);
    var c := Next(site, s, Client(StopRun(run, actor, why, at)));
    InitialHolds(site, s0);
    RunKeeps(site, s0, before);
    NextKeeps(site, s, Client(StopRun(run, actor, why, at)));
    CancelCommits(site, s, run, actor, why, at);
    if forall x :: x in s.procs ==> !Exposed(s, x, run) { HaltedForever(site, c, after, run); }
    if Exposed(s, pid, run) && PathOf(s.procs[pid].action) !in s.dir.names {
      LinksAnyway(site, c, pid, c.procs[pid], run, now, k);
      var steps := [Advance(pid, now, k)];
      assert steps[..0] == [] && Run(site, c, steps) == Next(site, c, steps[0]);
    }
  }

  // ---------- the stop latch ----------

  // The stop is set and no process stands between its precommit check and the link.
  predicate Latched(s: Sys) { s.stopped && forall pid :: pid in s.procs ==> s.procs[pid].stage != Cleared }

  // How many of the tests of the stop a process has behind it: the two transitions and the
  // two policy decisions, the last check before the effect, and the completion.
  function Gates(st: Stage): nat {
    var r := Rank(st);
    if r >= 22 then 6 else if r >= 15 then 5 else if r >= 14 then 4 else if r >= 8 then 3 else if r >= 3 then 2
    else if r >= 2 then 1 else 0
  }

  // Nothing was installed or completed, nobody joined, and nobody passed a test.
  predicate KeepsLatch(s: Sys, t: Sys) {
    && Latched(t) && t.installs == s.installs && t.finished == s.finished && t.procs.Keys <= s.procs.Keys
    && forall pid :: pid in t.procs ==> Gates(t.procs[pid].stage) == Gates(s.procs[pid].stage)
  }

  lemma StopDenies(site: Site, s: Sys, p: Proc, at: Time)
    requires s.stopped
    ensures !WriteAsked(site, s, p, at) && !ReadAllowed(site, s, p, at)
  {
    hide ValidAction, ReadAction, Dated, Exhausted;
  }

  lemma LocalLatched(site: Site, s: Sys, pid: string, at: Time, k: Kernel)
    requires Latched(s) && pid in s.procs && !IsWrite(s.procs[pid].stage)
    ensures KeepsLatch(s, LocalStep(site, s, pid, at, k))
  {
    hide Acts, WriteAsked, ReadAllowed, ReadAction, ActionDigest, CallLeft, Readable, PathOf, ContentOf,
         Paths.ValidateRelative, Utf8.Decode, Extended, Created, Linked, Unlinked;
    StopDenies(site, s, s.procs[pid], at);
  }

  // A transition is not made while the stop is set.
  lemma StopsTransitions(site: Site, s: Sys, p: Proc, at: Time)
    requires s.stopped && p.stage in {Granted, Charged, Recorded}
    ensures OpOf(site, s, p, at).None?
  {
    hide TimeText.Representable;
  }

  lemma GatesStay(st: Stage)
    requires st !in {Granted, Started, Prepared, Charged, Checking, Recorded}
    ensures Gates(NextStage(st)) == Gates(st)
  {
  }

  lemma WriteLatched(site: Site, s: Sys, pid: string, at: Time)
    requires Latched(s) && AtWrite(s, pid)
    ensures KeepsLatch(s, WriteStep(site, s, pid, at))
  {
    hide Acts, OpOf, Exec, Marks, Gates, Rank;
    if s.procs[pid].stage !in {Granted, Charged, Recorded} { GatesStay(s.procs[pid].stage); }
    if s.procs[pid].stage in {Granted, Charged, Recorded} { StopsTransitions(site, s, s.procs[pid], at); }
  }

  lemma NextLatched(site: Site, s: Sys, step: Step)
    requires Latched(s) && step != Latch(false)
    ensures KeepsLatch(s, Next(site, s, step))
  {
    hide WriteStep, LocalStep, OthersOnly, Intact, Exec, ClientOp, Gates, ValidAction, TimeText.Representable;
    match step
    case Advance(pid, at, k) =>
      if pid !in s.procs { NoStep(site, s, pid, at, k); }
      else if AtWrite(s, pid) { WriteLatched(site, s, pid, at); }
      else { LocalLatched(site, s, pid, at, k); }
    case _ =>
  }

  lemma {:induction false} LatchedForever(site: Site, s: Sys, steps: seq<Step>)
    requires Latched(s) && Latch(false) !in steps
    ensures KeepsLatch(s, Run(site, s, steps))
    decreases |steps|
  {
    hide Next, Gates;
    if steps != [] {
      LatchedForever(site, s, steps[..|steps| - 1]);
      NextLatched(site, Run(site, s, steps[..|steps| - 1]), steps[|steps| - 1]);
    }
  }

  /** In every reachable system the emergency stop settles what may still happen.  If no
      process stands between the precommit check and the link when it is set, then until it
      is cleared nothing is installed or completed, no process begins, and none gets past a
      transition, a policy decision or the precommit check; one that does stand there
      installs its file all the same, as soon as its target is free. */
  lemma StopRace(site: Site, s0: Sys, before: seq<Step>, after: seq<Step>, pid: string, now: Time, k: Kernel)
    requires Initial(s0) && Latch(false) !in after
    ensures var s := Run(site, s0, before);
            var c := Next(site, s, Latch(true));
            && ((forall x :: x in s.procs ==> s.procs[x].stage != Cleared) ==> KeepsLatch(c, Run(site, c, after)))
            && (Stands(s, pid, Cleared) && PathOf(s.procs[pid].action) !in s.dir.names ==>
                  !NoneInstalled(c, Run(site, c, [Advance(pid, now, k)]), s.procs[pid].run))
  {
    hide SysInv, PathOf, WriteStep, LocalStep, CanBegin, OthersOnly, ClientOp, Gates;
    var s := Run(site, s0, before);
    var c := Next(site, s, Latch(true));
    InitialHolds(site, s0);
    RunKeeps(site, s0, before);
    NextKeeps(site, s, Latch(true));
    if forall x :: x in s.procs ==> s.procs[x].stage != Cleared { LatchedForever(site, c, after); }
    if Stands(s, pid, Cleared) && PathOf(s.procs[pid].action) !in s.dir.names {
      LinksAnyway(site, c, pid, c.procs[pid], s.procs[pid].run, now, k);
      var steps := [Advance(pid, now, k)];
      assert steps[..0] == [] && Run(site, c, steps) == Next(site, c, steps[0]);
    }
  }
}
