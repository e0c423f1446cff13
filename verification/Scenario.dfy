/** One concrete installation and run, from the empty database on.  It shows that the
    assumptions of the theorems about the flow, about crashes and about recovery can be
    met together: the flow below starts, completes when it is left alone with two tool
    calls to spend, is stranded with one, and is reconciled by recovery when it dies right
    after its write. */
module Scenario {
  import opened Domain
  import opened Projections
  import opened Repositories
  import opened Histories
  import opened Growth
  import opened Json
  import opened Actions
  import opened Policy
  import opened Files
  import opened Protocol
  import opened Effects
  import opened Progress
  import Budget
  import Chain
  import Crashes
  import Idempotence
  import Paths
  import Races
  import Recovery
  import Replay
  import Restart
  import TimeText
  import Utf8

  // ---------- the installation and the action ----------

  const START := TimeText.Stamp(2026, 1, 1, 12, 0, 0, 0)
  const LIMIT := TimeText.Stamp(2026, 1, 1, 12, 15, 0, 0)

  function Now(): Time { TimeText.Instant(START) }

  function Later(): Time { TimeText.Instant(LIMIT) }

  lemma TimesAreDated()
    ensures Now() < Later() && TimeText.Representable(Now()) && TimeText.Representable(Later())
  {
    assert TimeText.Valid(START) && TimeText.Valid(LIMIT);
  }

  // Any hash will do; a theorem that needs one that does not collide says so.
  function Hashed(): Hash { (b: Bytes) => Chain.Zeros(64) }

  lemma {:induction false} ZerosAreHex(n: nat)
    ensures |Chain.Zeros(n)| == n && forall i :: 0 <= i < n ==> Chain.Zeros(n)[i] == '0'
  {
    if n > 0 { ZerosAreHex(n - 1); }
  }

  function TheEnv(): Env { Env(Hashed(), (s: string) => s, (s: string) => s) }

  function TheSite(): Site {
    Site(TheEnv(), "owner", "/w", "/s", "v1", 60_000_000, 5_000_000, (run: string) => "verifier")
  }

  const LIMITS := BudgetLimits(16, 16_000, 1_000_000, 1, 2, 1, 1, 60_000, 30_000, 1)

  // The budget of the run, by its number of tool calls.
  function Allowance(calls: nat): BudgetLimits { LIMITS.(maxToolCalls := calls) }

  // The write and its read-back; a configuration with a single tool call is legal too.
  const ENOUGH: nat := 2

  function TheArguments(): Json { Obj(WriteMembers(("path", "f"), ("content", "x"))) }

  function TheAction(): ActionSpec {
    ActionSpec(WRITE, "1", "v1", "executor", "owner", "run", None, ReversibleWorkspaceWrite,
               "/s", Paths.TargetText("/s", "f"), Print(TheArguments()), Chain.Zeros(64), Absent, false,
               Some(Chain.Zeros(64)), Some(|Utf8.Encode("x")|), LIMITS, Now(), Later(), "nonce-nonce-nonce")
  }

  lemma RelativePath()
    ensures Paths.PolicyRelative("f") == Some("f") && !Paths.IsSensitive(TheEnv().fold, "f")
  {
    Paths.SplitOne("f");
    assert Paths.Filter(["f"]) == ["f"] + Paths.Filter(["f"][1..]) == ["f"];
    assert Paths.Parse("f") == Paths.PurePath([], ["f"]);
    assert Paths.Slashed("f") == "f" + Paths.Slashed("f"[1..]) == "f";
    assert !Paths.Contains("f"[1..], "credential");
  }

  lemma SandboxRoot()
    ensures Paths.CanonicalAbsolute("/s") && Paths.Parse("/s") == Paths.PurePath("/", ["s"])
  {
    assert "/s"[1..] == "s";
    Paths.SplitOne("s");
    assert Paths.Split("/s") == [[]] + ["s"];
    Paths.FilterEmpty(["s"]);
    assert Paths.Filter(["s"]) == ["s"] + Paths.Filter(["s"][1..]) == ["s"];
  }

  lemma ArgumentsPrint()
    ensures CanonicalText(TheArguments()) == Some(Print(TheArguments()))
  {
    hide Print;
    NormalizeExact(TheArguments(), 0);
  }

  lemma ActionDecodes()
    ensures Arguments(TheAction()).Some? && DecodeWrite(TheAction()) == Some(WriteArguments("f", "x"))
  {
    hide Print, CanonicalText;
    ArgumentsPrint();
    WriteArgumentsRoundTrip(TheAction(), "f", "x");
  }

  lemma TargetIsCanonical()
    ensures Paths.CanonicalAbsolute(TheAction().target)
    ensures Paths.RelativeTo(Paths.Parse(TheAction().target), Paths.Parse("/s"))
    ensures TheAction().target != "f"
  {
    RelativePath();
    SandboxRoot();
    Paths.TargetContained("/s", "f");
    Paths.SplitOne("f");
    assert Paths.Filter(["f"]) == ["f"] + Paths.Filter(["f"][1..]) == ["f"];
    assert TheAction().target == "/" + Paths.Join(["s", "f"]);
    assert ["s", "f"][1..] == ["f"];
  }

  lemma ActionIsValid()
    ensures Dated(TheAction()) && ValidAction(Hashed(), TheAction()) && RightWrite(TheSite(), TheAction())
    ensures PathOf(TheAction()) == "f" && TextOf(TheAction()) == "x"
  {
    hide Print, TimeText.Instant, Paths.CanonicalAbsolute, Paths.Parse, Paths.TargetText, Paths.IsSensitive,
         TimeText.Representable, Paths.PolicyRelative, RequireCanonical;
    TimesAreDated();
    RelativePath();
    SandboxRoot();
    ActionDecodes();
    TargetIsCanonical();
    ZerosAreHex(64);
    assert Utf8.EncodeChar('x') == [120 as Byte];
    assert Utf8.Encode("x") == Utf8.EncodeChar('x') + Utf8.Encode("x"[1..]);
  }

  // ---------- from the empty database to a run that awaits its approval ----------

  const OWNER := "owner"
  const RUN := "run"

  function Request(): Repositories.Request {
    Repositories.Request("approval", RUN, None, "executor", OWNER, TheAction(), Chain.Zeros(64), "metadata", "v1",
                         Later(), "nonce-nonce-nonce", OWNER)
  }

  function Move(target: RunState, was: RunState, version: nat): Op {
    MoveRun(RUN, target, OWNER, Some(was), Some(version), None, None, Now())
  }

  function Opening(calls: nat): seq<Op> {
    [Record(Draft(RUN, OWNER, Now(), RunCreated(OWNER, Received, "demo", None))),
     Record(Draft(RUN, OWNER, Now(), BudgetInitialized(Allowance(calls), map[]))),
     Move(Triaged, Received, 1), Move(Planning, Triaged, 2), Ask(Request(), true, Now()),
     Move(AwaitingApproval, Planning, 3)]
  }

  // The run in a state, its budget unspent, and an approval once it was asked for.
  predicate Opened(db: Db, state: RunState, version: nat, asked: bool, calls: nat) {
    && db.tables.runs.Keys == {RUN} && db.tables.runs[RUN].state == state && db.tables.runs[RUN].version == version
    && db.tables.budgets.Keys == {RUN} && db.tables.budgets[RUN].limits == Allowance(calls) && db.tables.budgets[RUN].usage == map[]
    && db.tables.calls == map[] && db.tables.artifacts == map[] && Unblocked(db.journal)
    && (if asked then db.tables.approvals.Keys == {"approval"} && IsAsked(db.tables.approvals["approval"])
        else db.tables.approvals == map[])
  }

  predicate IsAsked(row: ApprovalRow) {
    && row.status == Pending && row.action == Exact(TheAction()) && row.runId == RUN && row.ownerId == OWNER
    && row.requesterId == "executor" && row.actionDigest == Chain.Zeros(64) && row.expiresAt == Later()
    && row.policyVersion == "v1"
  }

  predicate Unblocked(journal: seq<Event>) {
    forall k :: 0 <= k < |journal| ==> !journal[k].payload.RecoveryBlocked?
  }

  lemma RunCreatedFirst(calls: nat)
    ensures var db := Exec(EMPTY_DB, Opening(calls)[0]).0;
            && db.tables.runs.Keys == {RUN} && db.tables == EMPTY_TABLES.(runs := db.tables.runs) && Unblocked(db.journal)
            && db.tables.runs[RUN].state == Received && db.tables.runs[RUN].version == 1
  {
    hide TheAction, Request, TimeText.Instant;
  }

  lemma BudgetOpened(db: Db, calls: nat)
    requires db.tables.runs.Keys == {RUN} && db.tables == EMPTY_TABLES.(runs := db.tables.runs) && Unblocked(db.journal)
    requires db.tables.runs[RUN].state == Received && db.tables.runs[RUN].version == 1
    ensures Opened(Exec(db, Opening(calls)[1]).0, Received, 1, false, calls)
  {
    hide TheAction, Request, TimeText.Instant;
    assert Exec(db, Opening(calls)[1]).0.tables.budgets.Keys == {RUN};
  }

  lemma Moves(db: Db, target: RunState, was: RunState, version: nat, asked: bool, calls: nat)
    requires Opened(db, was, version, asked, calls)
    ensures Opened(Exec(db, Move(target, was, version)).0, target, version + 1, asked, calls)
  {
    hide TheAction, TimeText.Instant;
    var db' := Exec(db, Move(target, was, version)).0;
    assert db'.tables.runs.Keys == {RUN};
  }

  lemma Asks(db: Db, calls: nat)
    requires Opened(db, Planning, 3, false, calls)
    ensures Opened(Exec(db, Ask(Request(), true, Now())).0, Planning, 3, true, calls)
  {
    hide TheAction, TimeText.Instant, Chain.Zeros;
    var db' := Exec(db, Ask(Request(), true, Now())).0;
    assert db'.tables.approvals.Keys == {"approval"};
  }

  lemma OpeningOpens(calls: nat)
    ensures Opened(ExecAll(EMPTY_DB, Opening(calls)), AwaitingApproval, 4, true, calls)
    ensures forall i :: 0 <= i < |Opening(calls)| ==> ClientOp(Opening(calls)[i])
  {
    hide Exec, Request, TimeText.Instant, Opened;
    var ops := Opening(calls);
    RunCreatedFirst(calls);
    var db1 := Exec(EMPTY_DB, ops[0]).0;
    BudgetOpened(db1, calls);
    var db2 := Exec(db1, ops[1]).0;
    Moves(db2, Triaged, Received, 1, false, calls);
    var db3 := Exec(db2, ops[2]).0;
    Moves(db3, Planning, Triaged, 2, false, calls);
    var db4 := Exec(db3, ops[3]).0;
    Asks(db4, calls);
    var db5 := Exec(db4, ops[4]).0;
    Moves(db5, AwaitingApproval, Planning, 3, true, calls);
    Six(EMPTY_DB, ops);
  }

  lemma Two(db: Db, ops: seq<Op>)
    requires |ops| >= 2
    ensures ExecAll(db, ops) == ExecAll(Exec(Exec(db, ops[0]).0, ops[1]).0, ops[2..])
  {
    hide Exec;
    assert ops[1..][0] == ops[1] && ops[1..][1..] == ops[2..];
  }

  lemma Six(db: Db, ops: seq<Op>)
    requires |ops| == 6
    ensures ExecAll(db, ops) ==
            Exec(Exec(Exec(Exec(Exec(Exec(db, ops[0]).0, ops[1]).0, ops[2]).0, ops[3]).0, ops[4]).0, ops[5]).0
  {
    hide Exec;
    var db2 := Exec(Exec(db, ops[0]).0, ops[1]).0;
    var db4 := Exec(Exec(db2, ops[2]).0, ops[3]).0;
    Two(db, ops);
    Two(db2, ops[2..]);
    assert ops[2..][2..] == ops[4..];
    Two(db4, ops[4..]);
    assert ops[4..][2..] == [];
  }

  // ---------- as a run of the protocol ----------

  function Empty(): Sys { Sys(EMPTY_DB, Directory(map[], map[]), false, map[], [], []) }

  function Clients(ops: seq<Op>): (r: seq<Step>)
    ensures |r| == |ops|
  {
    seq(|ops|, i requires 0 <= i < |ops| => Client(ops[i]))
  }

  lemma RunSnoc(site: Site, s: Sys, steps: seq<Step>, x: Step)
    ensures Run(site, s, steps + [x]) == Next(site, Run(site, s, steps), x)
  {
    hide Next;
    assert (steps + [x])[..|steps|] == steps;
  }

  lemma {:induction false} ClientsRun(site: Site, s: Sys, ops: seq<Op>)
    requires forall i :: 0 <= i < |ops| ==> ClientOp(ops[i])
    ensures Run(site, s, Clients(ops)) == s.(db := ExecAll(s.db, ops))
    decreases |ops|
  {
    hide Exec, ClientOp;
    if ops != [] {
      var n := |ops| - 1;
      ClientsRun(site, s, ops[..n]);
      assert Clients(ops) == Clients(ops[..n]) + [Client(ops[n])];
      RunSnoc(site, s, Clients(ops[..n]), Client(ops[n]));
      assert ops == ops[..n] + [ops[n]];
      ExecAllConcat(s.db, ops[..n], [ops[n]]);
      assert [ops[n]][1..] == [];
    }
  }

  const K := Kernel(0, false)

  // The clock ticks once a microsecond, a step at a time.
  function Clock(): nat -> Time { (n: nat) => Now() + n }

  function TheWindow(calls: nat): Window { Window(Clock()(1) + 60_000_000, Later(), Allowance(calls), map[]) }

  lemma ClockIsOnTime(p: Proc, calls: nat)
    requires p.action == TheAction()
    ensures OnTime(TheSite(), p, TheWindow(calls), Clock())
  {
    hide TheAction, TimeText.Instant, TimeText.Representable, Now, Later, Allowance, TheEnv;
    ActionFields();
    ReadBackIsDated();
  }

  lemma ReadBackIsDated()
    ensures TimeText.Representable(Now() + 14) && TimeText.Representable(Now() + 5_000_014)
    ensures Later() == Now() + 900_000_000
  {
    assert TimeText.Valid(START.(micro := 14)) && TimeText.Valid(START.(second := 5, micro := 14));
    assert TimeText.Instant(START.(micro := 14)) == Now() + 14;
    assert TimeText.Instant(START.(second := 5, micro := 14)) == Now() + 5_000_014;
  }

  function Beginning(): Step { Begin("p", "approval", "call", "read", "nonce-of-the-read", "tmp") }

  function Prelude(calls: nat): seq<Step> { Clients(Opening(calls)) + [Beginning()] }

  function TheProc(): Proc {
    Proc("approval", RUN, TheAction(), "call", "read", "nonce-of-the-read", "tmp", Loaded, [], 0, 0, 0, "", [])
  }

  lemma Loads(db: Db, calls: nat)
    requires Opened(db, AwaitingApproval, 4, true, calls)
    ensures var s := Empty().(db := db); Next(TheSite(), s, Beginning()) == s.(procs := map["p" := TheProc()])
  {
    hide TheAction, ValidAction, RightWrite, TimeText.Representable, Exec, WriteStep, LocalStep, Cleaned,
         OthersOnly, ClientOp, Unblocked, TimeText.Instant,
         PathOf, ContentOf, OpOf, ActionDigest, Dated, Now, Later, Chain.Zeros;
    ActionFields();
    ActionIsValid();
  }

  lemma ActionFields()
    ensures var a := TheAction();
            && a.runId == RUN && a.ownerId == OWNER && a.requesterId == "executor" && a.policyVersion == "v1"
            && a.createdAt == Now() && a.expiresAt == Later() && a.budget == LIMITS && a.toolName == WRITE
  {
    hide TimeText.Instant;
  }

  lemma ContentFits()
    requires Dated(TheAction())
    ensures |ContentOf(TheAction())| == 1 && PathOf(TheAction()) == "f"
    ensures ActionDigest(Hashed(), TheAction()) == Chain.Zeros(64)
  {
    ActionIsValid();
    hide TheAction, PathOf, TextOf;
    assert Utf8.EncodeChar('x') == [120 as Byte];
    assert Utf8.Encode("x") == Utf8.EncodeChar('x') + Utf8.Encode("x"[1..]);
  }

  lemma ReadyToPay(db: Db, calls: nat)
    requires Opened(db, AwaitingApproval, 4, true, calls)
    ensures Paid(db.tables, TheProc(), 0, TheWindow(calls))
  {
    hide TheAction, ContentOf, IsAsked, Unblocked, PathOf, TimeText.Instant, Now, Later;
  }

  lemma HashIsHex()
    ensures HexHash(Hashed())
  {
    ZerosAreHex(64);
    hide Chain.Zeros;
  }

  lemma ProcFitsSite()
    ensures Fits(TheSite(), TheProc()) && Dated(TheAction())
  {
    hide TheAction, ValidAction, RightWrite, TimeText.Representable, PathOf, ContentOf, TimeText.Instant, HexHash, Hashed;
    ActionFields();
    ActionIsValid();
    HashIsHex();
  }

  lemma LoadedIsReady(db: Db, calls: nat)
    requires Opened(db, AwaitingApproval, 4, true, calls)
    ensures var s := Empty().(db := db, procs := map["p" := TheProc()]);
            Ready(TheSite(), s, "p", TheWindow(calls), 0, 0)
  {
    hide TheAction, PathOf, ContentOf, ActionDigest, Clock, Now, Later, Fits, Paid, TimeText.Representable, Unblocked;
    ProcFitsSite();
    ActionFields();
    ContentFits();
    ReadyToPay(db, calls);
  }

  lemma PreludeLoads(calls: nat) returns (db: Db)
    ensures Opened(db, AwaitingApproval, 4, true, calls)
    ensures Run(TheSite(), Empty(), Prelude(calls)) == Empty().(db := db, procs := map["p" := TheProc()])
    ensures Ready(TheSite(), Run(TheSite(), Empty(), Prelude(calls)), "p", TheWindow(calls), 0, 0)
  {
    hide Next, Opened, ClientOp, Opening, TheProc, Ready, ExecAll;
    OpeningOpens(calls);
    ClientsRun(TheSite(), Empty(), Opening(calls));
    RunSnoc(TheSite(), Empty(), Clients(Opening(calls)), Beginning());
    db := ExecAll(EMPTY_DB, Opening(calls));
    Loads(db, calls);
    LoadedIsReady(db, calls);
  }

  function Advances(pid: string, clock: nat -> Time, k: Kernel, n: nat): (r: seq<Step>)
    ensures |r| == n
  {
    if n == 0 then [] else Advances(pid, clock, k, n - 1) + [Advance(pid, clock(n - 1), k)]
  }

  lemma {:induction false} StepsRun(site: Site, s: Sys, steps: seq<Step>, pid: string, clock: nat -> Time, k: Kernel, n: nat)
    ensures Steps(site, Run(site, s, steps), pid, clock, k, n) == Run(site, s, steps + Advances(pid, clock, k, n))
  {
    hide Next;
    if n == 0 {
      assert steps + [] == steps;
    } else {
      StepsRun(site, s, steps, pid, clock, k, n - 1);
      var last := Advance(pid, clock(n - 1), k);
      assert steps + Advances(pid, clock, k, n) == (steps + Advances(pid, clock, k, n - 1)) + [last];
      RunSnoc(site, s, steps + Advances(pid, clock, k, n - 1), last);
    }
  }

  // What each of the two budgets covers, for a content of one byte.
  lemma BudgetsCover()
    ensures Headroom(TheWindow(ENOUGH), 1) && CoversWrite(TheWindow(ENOUGH), 1) && CoversWrite(TheWindow(1), 1)
    ensures !Headroom(TheWindow(1), 1)
    ensures Budget.OthersWithin(TheWindow(1).limits, TheWindow(1).usage)
  {
    hide Clock, Later, Now, Budget.LimitOf, Budget.Within, Budget.Spend;
  }

  lemma TheContent()
    ensures var a := TheProc().action; PathOf(a) == "f" && ContentOf(a) == Utf8.Encode("x") && |ContentOf(a)| == 1
  {
    hide TheAction, PathOf, TextOf, Utf8.Encode;
    ActionIsValid();
    ContentFits();
  }

  lemma OpenWithEnough(r: nat)
    ensures OpenFor(TheWindow(ENOUGH), TheProc(), r)
  {
    hide TheAction, ContentOf, TheWindow, Gate, Headroom, Utf8.Encode;
    BudgetsCover();
    TheContent();
    HeadroomOpensGates(TheWindow(ENOUGH), |ContentOf(TheProc().action)|);
  }

  // The end of the flow for each budget, as a run of the protocol.
  lemma FlowEnds(calls: nat) returns (steps: seq<Step>)
    ensures EndsAsBudgeted(Run(TheSite(), Empty(), steps), "p", TheProc(), TheWindow(calls))
    ensures Affords(TheWindow(calls), TheProc()) ==> |Run(TheSite(), Empty(), steps).finished| > 0
  {
    hide Next, Run, Steps, Ready, Prelude, TheSite, Opened, TheAction, ContentOf, Advances, OnTime, Clock,
         TheWindow, EndsAsBudgeted, Affords;
    var db := PreludeLoads(calls);
    ClockIsOnTime(TheProc(), calls);
    StepsRun(TheSite(), Empty(), Prelude(calls), "p", Clock(), K, 22);
    UndisturbedFlowCompletes(TheSite(), Run(TheSite(), Empty(), Prelude(calls)), "p", TheProc(), TheWindow(calls), Clock(), K);
    steps := Prelude(calls) + Advances("p", Clock(), K, 22);
  }

  /** From the empty database the flow starts and, left alone on a running clock, completes:
      the run is COMPLETED and the approved file stands alone under its name. */
  lemma AFlowCompletes() returns (steps: seq<Step>)
    ensures Initial(Empty())
    ensures var s := Run(TheSite(), Empty(), steps);
            && RUN in s.db.tables.runs && s.db.tables.runs[RUN].state == Completed
            && Readable(s.dir, "f") == Some(Utf8.Encode("x")) && |s.finished| > 0
  {
    hide Run, TheSite, TheAction, TheWindow, Headroom, CoversWrite, Readable, PathOf, ContentOf, Utf8.Encode,
         Budget.OthersWithin;
    BudgetsCover();
    TheContent();
    steps := FlowEnds(ENOUGH);
  }

  /** One tool call is not enough: with a budget of a single call, which the configuration
      admits, the same flow writes its file with that call and is then refused the
      read-back.  The file is there, the approval is consumed, and the run stays in
      VERIFYING with no process to go on. */
  lemma OneCallStrandsTheRun() returns (steps: seq<Step>)
    ensures Initial(Empty())
    ensures var s := Run(TheSite(), Empty(), steps);
            && RUN in s.db.tables.runs && s.db.tables.runs[RUN].state == Verifying
            && "approval" in s.db.tables.approvals && s.db.tables.approvals["approval"].status == Consumed
            && Readable(s.dir, "f") == Some(Utf8.Encode("x")) && "p" !in s.procs
  {
    hide Run, TheSite, TheAction, TheWindow, Headroom, CoversWrite, Readable, PathOf, ContentOf, Utf8.Encode,
         Budget.OthersWithin;
    BudgetsCover();
    TheContent();
    steps := FlowEnds(1);
  }

  // The system before the last step of the flow.
  ghost function Eve(): Sys { Steps(TheSite(), Run(TheSite(), Empty(), Prelude(ENOUGH)), "p", Clock(), K, 21) }

  lemma EveVerifies()
    ensures RUN in Eve().db.tables.runs && Eve().db.tables.runs[RUN].state == Verifying
  {
    hide Next, Run, Steps, Ready, Prelude, TheSite, Opened, TheAction, PathOf, TextOf, OnTime;
    var db := PreludeLoads(ENOUGH);
    ClockIsOnTime(TheProc(), ENOUGH);
    OpenWithEnough(21);
    StepsReady(TheSite(), Run(TheSite(), Empty(), Prelude(ENOUGH)), "p", TheProc(), TheWindow(ENOUGH), Clock(), K, 21);
    StateOfFlow(TheSite(), Eve(), "p", TheWindow(ENOUGH), 0, 21);
  }

  lemma EveCompletes()
    ensures var s := Next(TheSite(), Eve(), Advance("p", Clock()(21), K));
            RUN in s.db.tables.runs && s.db.tables.runs[RUN].state == Completed
  {
    hide Next, Run, Steps, Ready, Prelude, TheSite, Opened, TheAction, Readable, PathOf, TextOf, OnTime;
    var db := PreludeLoads(ENOUGH);
    ClockIsOnTime(TheProc(), ENOUGH);
    BudgetsCover();
    TheContent();
    var t := StepsNext(TheSite(), Run(TheSite(), Empty(), Prelude(ENOUGH)), "p", Clock(), K, 21, 22);
    UndisturbedFlowCompletes(TheSite(), Run(TheSite(), Empty(), Prelude(ENOUGH)), "p", TheProc(), TheWindow(ENOUGH), Clock(), K);
  }

  /** COMPLETED is not absorbing: in this run the owner's cancel, which tested the state
      before the completion and commits after it, overwrites the completed run. */
  lemma CompletedCanBeOverwritten() returns (before: seq<Step>, last: Step, cancel: Step)
    ensures Initial(Empty()) && cancel == Client(StopRun(RUN, OWNER, "owner cancellation", Later()))
    ensures var tested := Run(TheSite(), Empty(), before).db;
            RUN in tested.tables.runs && tested.tables.runs[RUN].state == Verifying
    ensures var completed := Run(TheSite(), Empty(), before + [last]).db;
            RUN in completed.tables.runs && completed.tables.runs[RUN].state == Completed
    ensures Replay.IsCancelled(Run(TheSite(), Empty(), before + [last] + [cancel]).db, RUN)
  {
    hide Next, Run, Steps, Prelude, TheSite, Advances, Replay.IsCancelled, Clock, Later;
    StepsRun(TheSite(), Empty(), Prelude(ENOUGH), "p", Clock(), K, 21);
    before := Prelude(ENOUGH) + Advances("p", Clock(), K, 21);
    last := Advance("p", Clock()(21), K);
    cancel := Client(StopRun(RUN, OWNER, "owner cancellation", Later()));
    EveVerifies();
    EveCompletes();
    RunSnoc(TheSite(), Empty(), before, last);
    RunSnoc(TheSite(), Empty(), before + [last], cancel);
    Races.CancelCommits(TheSite(), Run(TheSite(), Empty(), before + [last]), RUN, OWNER, "owner cancellation", Later());
  }

  lemma StateOfFlow(site: Site, s: Sys, pid: string, w: Window, i: Inode, r: nat)
    requires Ready(site, s, pid, w, i, r)
    ensures var run := s.procs[pid].run; run in s.db.tables.runs && s.db.tables.runs[run].state == StateAt(r)
  {
    hide Fits, ApprovalFits, CallsFit, DirFits, Paid, ContentOf;
  }

  // ---------- ... and dies right after its write ----------

  // What a flow adds to: its two calls, its artifact, and no recovery note.
  ghost predicate Adds(db: Db, db': Db, p: Proc) {
    && db'.tables.calls.Keys <= db.tables.calls.Keys + {p.callId, p.readId}
    && db'.tables.artifacts.Keys <= db.tables.artifacts.Keys + {VerifiedId(p)}
    && (Unblocked(db.journal) ==> Unblocked(db'.journal))
  }

  predicate OfFlow(op: Op, p: Proc) {
    match op
    case Grant(_, _, _) => true
    case MoveRun(_, _, _, _, _, _, _, _) => true
    case Take(_) => true
    case Use(_, _, _) => true
    case CallStep(_, _, _, _, _, _) => true
    case Record(d) =>
      (d.payload.ToolCallProposed? && d.payload.callId in {p.callId, p.readId}) ||
      (d.payload.ArtifactRecorded? && d.payload.artifactId == VerifiedId(p)) || d.payload.BudgetUpdated?
    case _ => false
  }

  lemma OpIsOfFlow(site: Site, s: Sys, p: Proc, op: Op, at: Time)
    requires OpOf(site, s, p, at) == Some(op)
    ensures OfFlow(op, p)
  {
    hide TimeText.Representable, ExactReadBack, ActionDigest, CanTransition, ContentOf, PathOf, Budget.Within, Budget.Spend;
  }

  lemma OpAdds(db: Db, op: Op, p: Proc)
    requires OfFlow(op, p)
    ensures Adds(db, Exec(db, op).0, p)
  {
    hide Append;
    if Exec(db, op).0 != db {
      var d := OneEventOp(db, op, false);
      AppendAdds(db, d, p) by { hide Exec; DraftOfFlow(db, op, d, p); }
    }
  }

  lemma DraftOfFlow(db: Db, op: Op, d: Draft, p: Proc)
    requires OfFlow(op, p) && Append(db, d).Some? && Exec(db, op).0 == Append(db, d).value
    ensures !d.payload.RecoveryBlocked?
    ensures d.payload.ToolCallProposed? ==> d.payload.callId in {p.callId, p.readId}
    ensures d.payload.ArtifactRecorded? ==> d.payload.artifactId == VerifiedId(p)
  {
    var j := Exec(db, op).0.journal;
    assert j[|j| - 1] == NextEvent(db.journal, d);
  }

  lemma AppendAdds(db: Db, d: Draft, p: Proc)
    requires Append(db, d).Some? && !d.payload.RecoveryBlocked?
    requires d.payload.ToolCallProposed? ==> d.payload.callId in {p.callId, p.readId}
    requires d.payload.ArtifactRecorded? ==> d.payload.artifactId == VerifiedId(p)
    ensures Adds(db, Append(db, d).value, p)
  {
    var e, db' := NextEvent(db.journal, d), Append(db, d).value;
    match TableOf(d.payload)
    case CallsTable => assert ApplyCall(db.tables.calls, e) == Some(db'.tables.calls);
    case ArtifactsTable => assert ApplyArtifact(db.tables.artifacts, e) == Some(db'.tables.artifacts);
    case _ =>
  }

  lemma AdvanceAdds(site: Site, s: Sys, pid: string, p: Proc, now: Time, k: Kernel)
    requires Runs(s, pid, p)
    ensures Adds(s.db, Next(site, s, Advance(pid, now, k)).db, p)
  {
    hide Exec, OpOf, Acts, LocalStep, OfFlow, Adds, ActionDigest;
    NothingAdded(s.db, p);
    var op := OpOf(site, s, p, now);
    if !AtWrite(s, pid) {
      Crashes.LocalKeepsDb(site, s, pid, now, k);
    } else if op.Some? {
      OpIsOfFlow(site, s, p, op.value, now);
      OpAdds(s.db, op.value, p);
    }
  }

  lemma NothingAdded(db: Db, p: Proc)
    ensures Adds(db, db, p)
  {
  }

  lemma AddsTransitive(a: Db, b: Db, c: Db, p: Proc, q: Proc)
    requires Adds(a, b, p) && Adds(b, c, q) && SameFlow(p, q)
    ensures Adds(a, c, p)
  {
  }

  lemma {:induction false} StepsAdd(site: Site, s: Sys, pid: string, p: Proc, w: Window, clock: nat -> Time, k: Kernel, n: nat)
    requires Ready(site, s, pid, w, k.inode, 0) && n <= 21 && !k.dropFails
    requires Runs(s, pid, p) && OnTime(site, p, w, clock) && OpenFor(w, p, n)
    ensures Adds(s.db, Steps(site, s, pid, clock, k, n).db, p)
  {
    hide Ready, Next, Adds, SameFlow, OnTime, Gate, ContentOf;
    if n == 0 {
      NothingAdded(s.db, p);
    } else {
      var t := Steps(site, s, pid, clock, k, n - 1);
      StepsAdd(site, s, pid, p, w, clock, k, n - 1);
      StepsReady(site, s, pid, p, w, clock, k, n - 1);
      AdvanceAdds(site, t, pid, t.procs[pid], clock(n - 1), k);
      AddsTransitive(s.db, t.db, Steps(site, s, pid, clock, k, n).db, p, t.procs[pid]);
    }
  }

  function TheSettings(): Recovery.Settings {
    Recovery.Settings(Hashed(), (s: string) => s, (a: ActionSpec) => Chain.Zeros(64), "/s", 1_000_000, 60_000_000)
  }

  // The flow after ten steps: its file stands alone under its name, its call is RUNNING.
  ghost function Died(): Sys { Steps(TheSite(), Run(TheSite(), Empty(), Prelude(ENOUGH)), "p", Clock(), K, 10) }

  lemma DiedReady()
    ensures Ready(TheSite(), Died(), "p", TheWindow(ENOUGH), 0, 10) && "p" in Died().procs && SameFlow(TheProc(), Died().procs["p"])
    ensures Died().db.tables.calls.Keys <= {"call", "read"} && Died().db.tables.artifacts.Keys <= {"call:verified"}
    ensures Unblocked(Died().db.journal)
  {
    hide Next, Run, Steps, Ready, Prelude, TheSite, TheAction, SameFlow, ContentOf, OpenTo, OnTime, TheWindow, Unblocked,
         IsAsked, Allowance;
    var db := PreludeLoads(ENOUGH);
    var s := Run(TheSite(), Empty(), Prelude(ENOUGH));
    ClockIsOnTime(TheProc(), ENOUGH);
    OpenWithEnough(10);
    StepsReady(TheSite(), s, "p", TheProc(), TheWindow(ENOUGH), Clock(), K, 10);
    StepsAdd(TheSite(), s, "p", TheProc(), TheWindow(ENOUGH), Clock(), K, 10);
    ReadyHas(TheSite(), Died(), "p", TheWindow(ENOUGH), 0, 10);
    assert VerifiedId(TheProc()) == "call:verified";
  }

  lemma DiedIsTheRun() returns (steps: seq<Step>)
    ensures Died() == Run(TheSite(), Empty(), steps)
  {
    hide Next, Run, Steps, Prelude, TheSite;
    StepsRun(TheSite(), Empty(), Prelude(ENOUGH), "p", Clock(), K, 10);
    steps := Prelude(ENOUGH) + Advances("p", Clock(), K, 10);
  }

  lemma SettingsFit(p: Proc)
    requires SameFlow(TheProc(), p)
    ensures Dated(p.action) && Crashes.SameSettings(TheSettings(), TheSite(), p.action)
  {
    hide TheAction, ValidAction, RightWrite, TimeText.Representable, PathOf, ContentOf, ActionDigest;
    ActionIsValid();
    ContentFits();
  }

  lemma DiedUntried()
    ensures Crashes.Untried(Died(), "call")
  {
    DiedReady();
    hide Died, Ready;
    assert Recovery.ArtifactId("call")[0] == 'r' && "call:verified"[0] == 'c';
  }

  // The only interrupted call is the flow's own write.
  lemma OnlyTheWrite(x: string)
    requires x in Recovery.Selection(Died().db)
    ensures x == "call"
  {
    hide Died, Ready, SameFlow, TheProc, TheSite, Recovery.BlockedIn;
    DiedReady();
    NoReadYet(TheSite(), Died(), "p", TheWindow(ENOUGH), 0);
    FlowCall(Died().procs["p"]);
  }

  lemma NoReadYet(site: Site, s: Sys, pid: string, w: Window, i: Inode)
    requires Ready(site, s, pid, w, i, 10)
    ensures s.procs[pid].readId !in s.db.tables.calls
  {
    hide Fits, RunFits, ApprovalFits, DirFits, ActionDigest;
  }

  /** A flow that dies right after its write is picked up: every assumption of the
      idempotence theorem holds of the state it leaves, and recovery reconciles it. */
  lemma ACrashIsReconciled(at: Time) returns (steps: seq<Step>, aim: Restart.Aim, gs: string -> Recovery.Glance)
    ensures Initial(Empty()) && aim.call == "call"
    ensures var db := Run(TheSite(), Empty(), steps).db;
            && Good(db) && Restart.OnItsWay(aim, db) && Restart.Bound(aim, db) && Idempotence.Unhindered(aim, db)
            && Idempotence.ClearRun(aim, db, gs)
            && Restart.Reconciled(aim, Recovery.Recover(aim.cfg, db, false, at, gs))
  {
    hide Run, Died, Ready, Standing, Good, Restart.OnItsWay, Restart.Reconciled, Recovery.Recover, Recovery.Bind, TheSite,
         TheSettings, SameFlow, Recovery.Script, Recovery.Selection, Crashes.Untried;
    steps := DiedIsTheRun();
    DiedReady();
    var s, p := Died(), Died().procs["p"];
    assert p.callId == "call" by { FlowCall(p); }
    SettingsFit(p);
    DiedUntried();
    assert Standing(TheSite(), s, "p", TheWindow(ENOUGH), 0, 10) by { ReadyStands(TheSite(), s, "p", TheWindow(ENOUGH), 0, 10); }
    Crashes.CrashAfterUnlinkIsReconcilable(TheSettings(), TheSite(), s, "p", TheWindow(ENOUGH), 0);
    aim := Restart.Aim(TheSettings(), s.dir, "call");
    gs := (x: string) => Recovery.Glance((k: nat) => 0, (k: nat) => false, s.dir);
    Crashes.ReachableIsGood(TheSite(), Empty(), steps);
    Restart.FineBound(aim, s.db);
    forall x | x in Recovery.Selection(s.db) ensures x == "call" { OnlyTheWrite(x); }
    assert Idempotence.Other(aim, "call") == aim;
    Idempotence.CrashRestartIsIdempotent(aim, s.db, at, gs, 0, at, gs);
  }

  lemma ReadyStands(site: Site, s: Sys, pid: string, w: Window, i: Inode, r: nat)
    requires Ready(site, s, pid, w, i, r)
    ensures Standing(site, s, pid, w, i, r)
  {
    hide Standing;
  }

  lemma FlowCall(p: Proc)
    requires SameFlow(TheProc(), p)
    ensures p.callId == "call" && p.readId == "read"
  {
    hide TheAction;
  }
}
