/** Theorems about recovery: it never invents a success, it settles every call it
    selects, a second recovery has nothing to do, and it acts only through interrupted
    calls.  Module Idempotence builds the theorem about cut recoveries on the steps here. */
module Restart {
  import opened Domain
  import opened Projections
  import opened Repositories
  import opened Histories
  import opened Invariants
  import opened Growth
  import opened Actions
  import opened Files
  import opened Recovery
  import Paths
  import TextOrder
  import Utf8

  // ---------- what each operation of a recovery does ----------

  predicate CallBecame(row: CallRow, row': CallRow, st: CallText, result: Option<ToolResult>) {
    SameCall(row, row') && row'.state == st && row'.result == result
  }

  lemma DoCall(db: Db, op: Op) returns (row: CallRow)
    requires op.CallStep? && op.id in db.tables.calls && CallRun(db, op.id) != "" && op.actor != ""
    ensures Exec(db, op).1 == Done
    ensures var db' := Exec(db, op).0;
            && db'.tables == db.tables.(calls := db.tables.calls[op.id := row])
            && CallBecame(db.tables.calls[op.id], row, op.state, op.result)
            && |db'.journal| == |db.journal| + 1 && db.journal <= db'.journal
            && !db'.journal[|db.journal|].payload.RecoveryBlocked?
  {
    row := Exec(db, op).0.tables.calls[op.id];
  }

  lemma DoUse(db: Db, op: Op) returns (row: ApprovalRow)
    requires op.Use? && op.id in db.tables.approvals && db.tables.approvals[op.id].runId != "" && op.claimedBy != ""
    requires db.tables.approvals[op.id].status == Claimed && db.tables.approvals[op.id].claimedBy == Some(op.claimedBy)
    ensures Exec(db, op).1 == Done
    ensures var db', was := Exec(db, op).0, db.tables.approvals[op.id];
            && db'.tables == db.tables.(approvals := db.tables.approvals[op.id := row])
            && SameBinding(was, row) && row.status == Consumed && row.action == was.action
            && |db'.journal| == |db.journal| + 1 && db.journal <= db'.journal
            && !db'.journal[|db.journal|].payload.RecoveryBlocked?
  {
    row := Exec(db, op).0.tables.approvals[op.id];
  }

  lemma DoArtifact(db: Db, d: Draft) returns (row: ArtifactRow)
    requires d.payload.ArtifactRecorded? && d.payload.artifactId !in db.tables.artifacts && d.runId != "" && d.actorId != ""
    ensures Exec(db, Record(d)).1 == Done
    ensures var db' := Exec(db, Record(d)).0;
            && db'.tables == db.tables.(artifacts := db.tables.artifacts[d.payload.artifactId := row])
            && row.runId == d.runId && row.artifact == d.payload.artifact
            && |db'.journal| == |db.journal| + 1 && db.journal <= db'.journal
            && !db'.journal[|db.journal|].payload.RecoveryBlocked?
  {
    row := Exec(db, Record(d)).0.tables.artifacts[d.payload.artifactId];
  }

  lemma DoNote(db: Db, d: Draft)
    requires d.payload.RecoveryBlocked? && d.runId != "" && d.actorId != ""
    ensures Exec(db, Record(d)).1 == Done
    ensures var db' := Exec(db, Record(d)).0;
            && db'.tables == db.tables && |db'.journal| == |db.journal| + 1 && db.journal <= db'.journal
            && db'.journal[|db.journal|].payload == d.payload
  {
  }

  lemma DoMove(db: Db, run: string, target: RunState, lease: Option<Time>, at: Time) returns (row: RunRow)
    requires run in db.tables.runs && run != ""
    ensures Exec(db, MoveOp(db, run, target, lease, at)).1 == Done
    ensures var db' := Exec(db, MoveOp(db, run, target, lease, at)).0;
            && db'.tables == db.tables.(runs := db.tables.runs[run := row]) && row.state == target
            && row.version == db.tables.runs[run].version + 1 && row.leaseExpiresAt == lease
            && |db'.journal| == |db.journal| + 1 && db.journal <= db'.journal
            && db'.journal[|db.journal|].payload == RunStateChanged(target, None, lease)
  {
    row := Exec(db, MoveOp(db, run, target, lease, at)).0.tables.runs[run];
  }

  // ---------- a call on its way to being reconciled ----------

  datatype Aim = Aim(cfg: Settings, dir: Directory, call: string)

  // The rows that decide what happens to one call.
  ghost predicate Bound(aim: Aim, db: Db) {
    aim.call in db.tables.calls && Bind(aim.cfg, db, aim.call).Some?
  }

  function RunOf(aim: Aim, db: Db): string { CallRun(db, aim.call) }

  ghost predicate RunIn(aim: Aim, db: Db, states: set<RunState>) {
    RunOf(aim, db) in db.tables.runs && db.tables.runs[RunOf(aim, db)].state in states
  }

  ghost predicate ArtifactOk(aim: Aim, db: Db, needed: bool) {
    Bound(aim, db) && if ArtifactId(aim.call) in db.tables.artifacts then
      ArtifactMatches(aim.cfg, db.tables.artifacts[ArtifactId(aim.call)], aim.call, RunOf(aim, db),
                      Bind(aim.cfg, db, aim.call).value)
    else !needed
  }

  // Interrupted, with all its authority, its exact file and a run that can go on.
  ghost predicate OnItsWay(aim: Aim, db: Db) {
    && Bound(aim, db) && Selected(db, aim.call) && RunIn(aim, db, {Executing, Verifying})
    && Observed(aim.dir, Bind(aim.cfg, db, aim.call).value) && ArtifactOk(aim, db, false)
  }

  // Reconciled: SUCCEEDED, CONSUMED, one artifact, run VERIFYING.
  ghost predicate Reconciled(aim: Aim, db: Db) {
    && Bound(aim, db) && !BlockedIn(db.journal, aim.call) && RunIn(aim, db, {Verifying})
    && db.tables.calls[aim.call].state == CallText(Succeeded, false)
    && db.tables.approvals[Bind(aim.cfg, db, aim.call).value.approvalId].status == Consumed
    && ArtifactOk(aim, db, true)
  }

  ghost predicate Fine(aim: Aim, db: Db) { OnItsWay(aim, db) || Reconciled(aim, db) }

  lemma BindFacts(cfg: Settings, db: Db, c: string)
    requires c in db.tables.calls && Bind(cfg, db, c).Some?
    ensures var b, call := Bind(cfg, db, c).value, db.tables.calls[c];
            && call.approvalId == Some(b.approvalId) && b.approvalId in db.tables.approvals
            && var row := db.tables.approvals[b.approvalId];
               && row.runId == call.runId != "" && row.status in {Claimed, Consumed} && row.claimedBy == Some(b.claimedBy)
               && b.claimedBy != "" && row.action.Exact?
               && b.action.contentSha256 == Some(cfg.hash(b.content)) && b.action.contentLength == Some(|b.content|)
               && call.actionDigest == row.actionDigest == cfg.digest(b.action) && b.claimedBy == b.action.requesterId
  {
  }

  // A call, its approval and an exact write that agree in everything they share.
  predicate FullyBound(cfg: Settings, db: Db, c: string, b: Binding) {
    && c in db.tables.calls && b.approvalId in db.tables.approvals && DecodeWrite(b.action).Some?
    && var call, row, a, w := db.tables.calls[c], db.tables.approvals[b.approvalId], b.action, DecodeWrite(b.action).value;
       && call.approvalId == Some(b.approvalId) && row.action == Exact(a) && ValidAction(cfg.hash, a)
       && (row.status == Claimed || row.status == Consumed) && row.claimedBy == Some(b.claimedBy)
       && b.claimedBy == a.requesterId && call.runId == row.runId == a.runId
       && call.toolName == a.toolName == "sandbox.write_text" && a.toolSchemaVersion == "1"
       && call.actionDigest == row.actionDigest == cfg.digest(a) && row.policyVersion == a.policyVersion
       && a.riskClass == ReversibleWorkspaceWrite && a.expectedPriorState == Absent && !a.overwrite
       && a.root == cfg.sandbox && a.target == Paths.TargetText(cfg.sandbox, b.path) && b.path == w.path
       && Paths.ValidateRelative(cfg.fold, b.path, false).Some?
       && b.content == Utf8.Encode(w.content) && |b.content| <= cfg.maxReadBytes
       && a.contentLength == Some(|b.content|) && a.contentSha256 == Some(cfg.hash(b.content))
  }

  /** A call is bound exactly when its own row, the row of its approval and the exact action
      kept there agree on the run, the tool, the digest, the requester and the policy, the
      approval was claimed by its requester, and the action is a write of a new file below
      the sandbox, whose content has the digest and the length it names. */
  lemma BindExactly(cfg: Settings, db: Db, c: string, b: Binding)
    ensures Bind(cfg, db, c) == Some(b) <==> FullyBound(cfg, db, c, b)
  {
    hide ValidAction, DecodeWrite, Paths.ValidateRelative, Paths.TargetText;
  }

  // The binding depends on the call's identity and its approval's identity, not on
  // their progress.
  lemma SameBind(cfg: Settings, db: Db, db': Db, c: string)
    requires c in db.tables.calls && c in db'.tables.calls && SameCall(db.tables.calls[c], db'.tables.calls[c])
    requires Bind(cfg, db, c).Some?
    requires var id := Bind(cfg, db, c).value.approvalId;
             && id in db.tables.approvals && id in db'.tables.approvals
             && SameBinding(db.tables.approvals[id], db'.tables.approvals[id])
             && db'.tables.approvals[id].action == db.tables.approvals[id].action
    ensures Bind(cfg, db', c) == Bind(cfg, db, c)
  {
    hide ValidAction, RecoverableWrite, PostconditionBound;
    BindFacts(cfg, db, c);
  }

  // ---------- operations for other calls ----------

  // Nothing this call depends on differs between the two databases.
  ghost predicate SameView(aim: Aim, db: Db, db': Db) {
    Bound(aim, db) &&
    var c, run, id := aim.call, RunOf(aim, db), Bind(aim.cfg, db, aim.call).value.approvalId;
    && c in db'.tables.calls && SameCall(db.tables.calls[c], db'.tables.calls[c])
    && db'.tables.calls[c].state == db.tables.calls[c].state
    && id in db.tables.approvals && id in db'.tables.approvals && db'.tables.approvals[id] == db.tables.approvals[id]
    && (run in db.tables.runs <==> run in db'.tables.runs)
    && (run in db.tables.runs ==> db'.tables.runs[run] == db.tables.runs[run])
    && (ArtifactId(c) in db.tables.artifacts <==> ArtifactId(c) in db'.tables.artifacts)
    && (ArtifactId(c) in db.tables.artifacts ==> db'.tables.artifacts[ArtifactId(c)] == db.tables.artifacts[ArtifactId(c)])
    && (BlockedIn(db'.journal, c) <==> BlockedIn(db.journal, c))
  }

  lemma ViewKeeps(aim: Aim, db: Db, db': Db)
    requires Bound(aim, db) && SameView(aim, db, db')
    ensures Bound(aim, db') && Bind(aim.cfg, db', aim.call) == Bind(aim.cfg, db, aim.call)
    ensures RunOf(aim, db') == RunOf(aim, db)
    ensures OnItsWay(aim, db) ==> OnItsWay(aim, db')
    ensures Reconciled(aim, db) ==> Reconciled(aim, db')
  {
    hide Bind, Observed, ArtifactMatches, BlockedIn;
    SameBind(aim.cfg, db, db', aim.call);
  }

  // An operation that names neither the call, nor its run, its approval or its artifact.
  predicate Apart(op: Op, c: string, run: string, approval: string) {
    match op
    case Record(d) =>
      (d.payload.RecoveryBlocked? && d.payload.callId != c) ||
      (d.payload.ArtifactRecorded? && d.payload.artifactId != ArtifactId(c))
    case MoveRun(r, _, _, _, _, _, _, _) => r != run
    case Use(id, _, _) => id != approval
    case CallStep(id, _, _, _, _, _) => id != c
    case _ => false
  }

  lemma BlockedSnoc(journal: seq<Event>, e: Event, c: string)
    ensures BlockedIn(journal + [e], c) <==>
            BlockedIn(journal, c) || (e.payload.RecoveryBlocked? && e.payload.callId == c)
  {
    if BlockedIn(journal, c) {
      var k :| 0 <= k < |journal| && journal[k].payload.RecoveryBlocked? && journal[k].payload.callId == c;
      assert (journal + [e])[k] == journal[k];
    }
    if BlockedIn(journal + [e], c) {
      var k :| 0 <= k < |journal + [e]| && (journal + [e])[k].payload.RecoveryBlocked? && (journal + [e])[k].payload.callId == c;
      if k < |journal| { assert journal[k] == (journal + [e])[k]; }
    }
    assert (journal + [e])[|journal|] == e;
  }

  predicate ApartDraft(d: Draft, c: string, run: string, approval: string) {
    var p := d.payload;
    && (p.RecoveryBlocked? ==> p.callId != c)
    && (TableOf(p).ArtifactsTable? ==> p.artifactId != ArtifactId(c))
    && (TableOf(p).RunsTable? ==> d.runId != run)
    && (TableOf(p).ApprovalsTable? ==> !p.ApprovalRequested? && p.approvalId != approval)
    && (TableOf(p).CallsTable? ==> p.ToolCallStateChanged? && p.callId != c)
  }

  lemma ApartAppend(aim: Aim, db: Db, d: Draft)
    requires Bound(aim, db) && Append(db, d).Some?
    requires ApartDraft(d, aim.call, RunOf(aim, db), Bind(aim.cfg, db, aim.call).value.approvalId)
    ensures SameView(aim, db, Append(db, d).value)
  {
    hide HoldsAuthority, DurableBindingsAgree, RecoverableWrite, PostconditionBound;
    var e, db' := NextEvent(db.journal, d), Append(db, d).value;
    BlockedSnoc(db.journal, e, aim.call) by { hide BlockedIn; }
    hide BlockedIn;
    match TableOf(d.payload)
    case RunsTable => assert ApplyRun(db.tables.runs, e) == Some(db'.tables.runs);
    case ApprovalsTable => assert ApplyApproval(db.tables.approvals, e) == Some(db'.tables.approvals);
    case CallsTable => assert ApplyCall(db.tables.calls, e) == Some(db'.tables.calls);
    case ArtifactsTable => assert ApplyArtifact(db.tables.artifacts, e) == Some(db'.tables.artifacts);
    case _ =>
  }

  lemma SameDbView(aim: Aim, db: Db)
    requires Bound(aim, db)
    ensures SameView(aim, db, db)
  {
    BindFacts(aim.cfg, db, aim.call);
    hide Bind;
  }

  lemma ApartView(aim: Aim, db: Db, op: Op)
    requires Bound(aim, db)
    requires Apart(op, aim.call, RunOf(aim, db), Bind(aim.cfg, db, aim.call).value.approvalId)
    ensures SameView(aim, db, Exec(db, op).0)
  {
    hide Bind, SameView, Append;
    SameDbView(aim, db);
    if Exec(db, op).0 != db {
      var d := OneEventOp(db, op, false);
      AppendLast(db, d);
      LastOf(db, op, d);
      ApartAppend(aim, db, d);
    }
  }

  // The event of a one-event operation of recovery.
  lemma LastOf(db: Db, op: Op, d: Draft)
    requires op.Record? || op.MoveRun? || op.Use? || op.CallStep?
    requires Append(db, d).Some? && Exec(db, op).0 == Append(db, d).value
    ensures match op
            case Record(r) => d == r
            case MoveRun(run, _, _, _, _, _, _, _) => d.payload.RunStateChanged? && d.runId == run
            case Use(id, by_, _) => d.payload == ApprovalConsumed(id, by_)
            case CallStep(id, _, _, _, _, _) => d.payload.ToolCallStateChanged? && d.payload.callId == id
            case _ => true
  {
    var j := Exec(db, op).0.journal;
    assert j[|j| - 1] == NextEvent(db.journal, d);
  }

  // ---------- a call's own operations ----------

  // Fine before and after every operation of the list.
  ghost predicate Along(aim: Aim, db: Db, ops: seq<Op>)
    decreases ops
  {
    Fine(aim, db) && (ops == [] || Along(aim, Exec(db, ops[0]).0, ops[1..]))
  }

  lemma {:induction false} AlongEnd(aim: Aim, db: Db, ops: seq<Op>, n: nat)
    requires Along(aim, db, ops) && n <= |ops|
    ensures Fine(aim, ExecAll(db, ops[..n]))
    decreases ops
  {
    hide Fine, Exec;
    if n > 0 {
      assert ops[..n][1..] == ops[1..][..n - 1];
      AlongEnd(aim, Exec(db, ops[0]).0, ops[1..], n - 1);
    } else {
      assert ops[..0] == [];
    }
  }

  lemma {:induction false} AlongConcat(aim: Aim, db: Db, p: seq<Op>, q: seq<Op>)
    requires Along(aim, db, p) && Along(aim, ExecAll(db, p), q)
    ensures Along(aim, db, p + q)
    decreases p
  {
    hide Fine, Exec;
    if p == [] {
      assert p + q == q;
    } else {
      assert (p + q)[0] == p[0] && (p + q)[1..] == p[1..] + q;
      AlongConcat(aim, Exec(db, p[0]).0, p[1..], q);
    }
  }

  lemma OneAlong(aim: Aim, db: Db, op: Op)
    requires Fine(aim, db) && Fine(aim, Exec(db, op).0)
    ensures Along(aim, db, [op]) && ExecAll(db, [op]) == Exec(db, op).0
  {
    hide Fine, Exec;
    assert [op][1..] == [];
    assert Along(aim, Exec(db, op).0, []);
  }

  // After a step of its own: still on its way, with the same binding.
  ghost predicate Stepped(aim: Aim, db: Db, db': Db) {
    && Bound(aim, db)
    && OnItsWay(aim, db') && Bind(aim.cfg, db', aim.call) == Bind(aim.cfg, db, aim.call)
    && RunOf(aim, db') == RunOf(aim, db)
  }

  lemma SameBlocked(db: Db, db': Db, c: string)
    requires |db'.journal| == |db.journal| + 1 && db.journal <= db'.journal
    ensures var p := db'.journal[|db.journal|].payload;
            BlockedIn(db'.journal, c) <==> BlockedIn(db.journal, c) || (p.RecoveryBlocked? && p.callId == c)
  {
    assert db'.journal == db.journal + [db'.journal[|db.journal|]];
    BlockedSnoc(db.journal, db'.journal[|db.journal|], c);
  }

  lemma MarkStep(aim: Aim, db: Db, g: Glance)
    requires OnItsWay(aim, db)
    ensures var ops := MarkOps(db, aim.call, g); var db' := ExecAll(db, ops);
            && Along(aim, db, ops) && Stepped(aim, db, db') && db'.tables == db.tables.(calls := db'.tables.calls)
  {
    hide Exec, Observed, HoldsAuthority, DurableBindingsAgree, RecoverableWrite, PostconditionBound, ArtifactMatches,
         BlockedIn;
    BindFacts(aim.cfg, db, aim.call);
    if db.tables.calls[aim.call].state.state == Running {
      var op := MarkOps(db, aim.call, g)[0];
      var row := DoCall(db, op);
      SameBlocked(db, Exec(db, op).0, aim.call);
      SameBind(aim.cfg, db, Exec(db, op).0, aim.call);
      OneAlong(aim, db, op);
    }
  }

  lemma SpendStep(aim: Aim, db: Db, g: Glance)
    requires OnItsWay(aim, db)
    ensures var b := Bind(aim.cfg, db, aim.call).value;
            var ops := SpendOps(db, b, g); var db' := ExecAll(db, ops);
            && Along(aim, db, ops) && Stepped(aim, db, db') && db'.tables == db.tables.(approvals := db'.tables.approvals)
            && b.approvalId in db'.tables.approvals && db'.tables.approvals[b.approvalId].status == Consumed
  {
    hide Exec, Observed, HoldsAuthority, DurableBindingsAgree, RecoverableWrite, PostconditionBound, ArtifactMatches,
         BlockedIn;
    BindFacts(aim.cfg, db, aim.call);
    var b := Bind(aim.cfg, db, aim.call).value;
    if db.tables.approvals[b.approvalId].status == Claimed {
      var op := SpendOps(db, b, g)[0];
      var row := DoUse(db, op);
      SameBlocked(db, Exec(db, op).0, aim.call);
      SameBind(aim.cfg, db, Exec(db, op).0, aim.call);
      OneAlong(aim, db, op);
    }
  }

  lemma StoreStep(aim: Aim, db: Db, g: Glance)
    requires OnItsWay(aim, db)
    ensures var b := Bind(aim.cfg, db, aim.call).value;
            var ops := StoreOps(aim.cfg, db, aim.call, b, g); var db' := ExecAll(db, ops);
            && Along(aim, db, ops) && Stepped(aim, db, db') && db'.tables == db.tables.(artifacts := db'.tables.artifacts)
            && ArtifactId(aim.call) in db'.tables.artifacts
  {
    hide Exec, Observed, HoldsAuthority, DurableBindingsAgree, RecoverableWrite, PostconditionBound, BlockedIn;
    BindFacts(aim.cfg, db, aim.call);
    var b := Bind(aim.cfg, db, aim.call).value;
    if ArtifactId(aim.call) !in db.tables.artifacts {
      var op := StoreOps(aim.cfg, db, aim.call, b, g)[0];
      var row := DoArtifact(db, op.draft);
      SameBlocked(db, Exec(db, op).0, aim.call);
      SameBind(aim.cfg, db, Exec(db, op).0, aim.call);
      OneAlong(aim, db, op);
    }
  }

  lemma AdvanceStep(aim: Aim, db: Db, g: Glance)
    requires OnItsWay(aim, db)
    ensures var ops := AdvanceOps(aim.cfg, db, RunOf(aim, db), g); var db' := ExecAll(db, ops);
            && Along(aim, db, ops) && Stepped(aim, db, db') && db'.tables == db.tables.(runs := db'.tables.runs)
            && RunIn(aim, db', {Verifying})
  {
    hide Exec, Observed, HoldsAuthority, DurableBindingsAgree, RecoverableWrite, PostconditionBound, ArtifactMatches,
         BlockedIn;
    BindFacts(aim.cfg, db, aim.call);
    var run := RunOf(aim, db);
    if db.tables.runs[run].state == Executing {
      var op := AdvanceOps(aim.cfg, db, run, g)[0];
      var row := DoMove(db, run, Verifying, Some(g.now(7) + aim.cfg.leaseTime), g.now(3));
      SameBlocked(db, Exec(db, op).0, aim.call);
      SameBind(aim.cfg, db, Exec(db, op).0, aim.call);
      OneAlong(aim, db, op);
    }
  }

  lemma FinishStep(aim: Aim, db: Db, g: Glance)
    requires OnItsWay(aim, db) && RunIn(aim, db, {Verifying}) && ArtifactOk(aim, db, true)
    requires db.tables.approvals[Bind(aim.cfg, db, aim.call).value.approvalId].status == Consumed
    ensures var ops := FinishOps(aim.cfg, aim.call, Bind(aim.cfg, db, aim.call).value, g);
            Along(aim, db, ops) && Reconciled(aim, ExecAll(db, ops))
  {
    hide Exec, Observed, HoldsAuthority, DurableBindingsAgree, RecoverableWrite, PostconditionBound, ArtifactMatches,
         BlockedIn;
    BindFacts(aim.cfg, db, aim.call);
    var op := FinishOps(aim.cfg, aim.call, Bind(aim.cfg, db, aim.call).value, g)[0];
    var row := DoCall(db, op);
    SameBlocked(db, Exec(db, op).0, aim.call);
    SameBind(aim.cfg, db, Exec(db, op).0, aim.call);
    OneAlong(aim, db, op);
  }

  ghost predicate Clear(g: Glance, dir: Directory) { g.dir == dir && forall k :: !g.stopped(k) }

  lemma OwnCommit(aim: Aim, db: Db, g: Glance)
    requires OnItsWay(aim, db) && Clear(g, aim.dir)
    ensures var b, run := Bind(aim.cfg, db, aim.call).value, RunOf(aim, db);
            CommitOps(aim.cfg, db, aim.call, b, g) ==
            SpendOps(db, b, g) + StoreOps(aim.cfg, db, aim.call, b, g) + AdvanceOps(aim.cfg, db, run, g) +
            FinishOps(aim.cfg, aim.call, b, g)
  {
    hide Observed, Bind, SpendOps, StoreOps, AdvanceOps, FinishOps, BlockedIn;
  }

  lemma SameOps(aim: Aim, db: Db, db': Db, b: Binding, g: Glance)
    requires aim.call in db.tables.calls && aim.call in db'.tables.calls && RunOf(aim, db) == RunOf(aim, db')
    ensures db'.tables.approvals == db.tables.approvals ==> SpendOps(db', b, g) == SpendOps(db, b, g)
    ensures db'.tables.artifacts == db.tables.artifacts ==>
              StoreOps(aim.cfg, db', aim.call, b, g) == StoreOps(aim.cfg, db, aim.call, b, g)
    ensures db'.tables.runs == db.tables.runs ==>
              AdvanceOps(aim.cfg, db', RunOf(aim, db), g) == AdvanceOps(aim.cfg, db, RunOf(aim, db), g)
  {
  }

  lemma Chain(aim: Aim, db: Db, p: seq<Op>, q: seq<Op>)
    requires Along(aim, db, p) && Along(aim, ExecAll(db, p), q)
    ensures Along(aim, db, p + q) && ExecAll(db, p + q) == ExecAll(ExecAll(db, p), q)
  {
    hide Along;
    AlongConcat(aim, db, p, q);
    ExecAllConcat(db, p, q);
  }

  // Spending, storing, advancing and finishing, from any point they may start at.
  lemma OwnTail(aim: Aim, db: Db, g: Glance)
    requires OnItsWay(aim, db)
    ensures var b, run := Bind(aim.cfg, db, aim.call).value, RunOf(aim, db);
            var ops := SpendOps(db, b, g) + StoreOps(aim.cfg, db, aim.call, b, g) + AdvanceOps(aim.cfg, db, run, g) +
                       FinishOps(aim.cfg, aim.call, b, g);
            Along(aim, db, ops) && Reconciled(aim, ExecAll(db, ops))
  {
    hide Along, Bind, SpendOps, StoreOps, AdvanceOps, FinishOps, Exec, Reconciled;
    var b, run := Bind(aim.cfg, db, aim.call).value, RunOf(aim, db);
    var spend, store := SpendOps(db, b, g), StoreOps(aim.cfg, db, aim.call, b, g);
    var advance, finish := AdvanceOps(aim.cfg, db, run, g), FinishOps(aim.cfg, aim.call, b, g);
    SpendStep(aim, db, g);
    var db2 := ExecAll(db, spend);
    SameOps(aim, db, db2, b, g);
    StoreStep(aim, db2, g);
    Chain(aim, db, spend, store);
    var db3 := ExecAll(db2, store);
    SameOps(aim, db2, db3, b, g);
    AdvanceStep(aim, db3, g);
    Chain(aim, db, spend + store, advance);
    var db4 := ExecAll(db3, advance);
    FinishStep(aim, db4, g);
    Chain(aim, db, spend + store + advance, finish);
  }

  /** A call on its way is reconciled by its own operations, and is fine wherever they
      are cut. */
  lemma OwnScript(aim: Aim, db: Db, g: Glance)
    requires OnItsWay(aim, db) && Clear(g, aim.dir)
    ensures var ops := ScriptOne(aim.cfg, db, aim.call, false, g);
            Along(aim, db, ops) && Reconciled(aim, ExecAll(db, ops))
  {
    hide Along, Bind, CommitOps, MarkOps, SpendOps, StoreOps, AdvanceOps, FinishOps, Exec, Reconciled, Observed;
    var b, run := Bind(aim.cfg, db, aim.call).value, RunOf(aim, db);
    var mark := MarkOps(db, aim.call, g);
    assert Obstacle(aim.cfg, db, aim.call, false, g).None?;
    MarkStep(aim, db, g);
    var db1 := ExecAll(db, mark);
    SameOps(aim, db, db1, b, g);
    OwnTail(aim, db1, g);
    OwnCommit(aim, db, g);
    Chain(aim, db, mark, CommitOps(aim.cfg, db, aim.call, b, g));
  }

  // ---------- what a whole script may contain ----------

  // Recovery moves a run from EXECUTING to VERIFYING, or takes it down: to BLOCKED from
  // wherever that is legal, to FAILED from RECEIVED alone, and without a lease.
  predicate OwnMove(op: Op) {
    && op.MoveRun? && op.target in {Verifying, Blocked, Failed} && op.expectedState.Some?
    && (op.target == Verifying ==> op.expectedState.value == Executing)
    && (op.target == Blocked ==>
          op.expectedState.value in {Triaged, Planning, AwaitingApproval, Executing, Verifying} && op.lease == None)
    && (op.target == Failed ==> op.expectedState.value == Received && op.lease == None)
  }

  // The operations recovery may submit for call x of the given run.
  predicate Shaped(op: Op, x: string, run: string) {
    && CheckedOp(op) && !Completing(op)
    && match op
       case Record(d) =>
         d.runId == run && d.actorId == ACTOR &&
         ((d.payload.RecoveryBlocked? && d.payload.callId == x) ||
          (d.payload.ArtifactRecorded? && d.payload.artifactId == ArtifactId(x)))
       case MoveRun(r, _, _, _, _, _, _, _) => r == run && OwnMove(op)
       case Use(_, _, _) => true
       case CallStep(id, actor, st, _, _, _) =>
         id == x && actor == ACTOR && st in {CallText(Uncertain, false), CallText(Succeeded, false)}
       case _ => false
  }

  predicate AllShaped(ops: seq<Op>, x: string, run: string) { forall i :: 0 <= i < |ops| ==> Shaped(ops[i], x, run) }

  // The approvals the operations consume are the call's own.
  predicate SpendsOwn(ops: seq<Op>, cfg: Settings, db: Db, x: string) {
    forall i :: 0 <= i < |ops| && ops[i].Use? ==> Bind(cfg, db, x).Some? && ops[i].id == Bind(cfg, db, x).value.approvalId
  }

  lemma BlockShaped(db: Db, x: string, why: string, g: Glance)
    requires x in db.tables.calls
    ensures AllShaped(BlockOps(db, x, why, g), x, CallRun(db, x))
    ensures forall i :: 0 <= i < |BlockOps(db, x, why, g)| ==> !BlockOps(db, x, why, g)[i].Use?
  {
    var run := db.tables.calls[x].runId;
    if run in db.tables.runs && db.tables.runs[run].state !in TERMINAL {
      var st := db.tables.runs[run].state;
      assert CanTransition(st, BlockTarget(st));
    }
  }

  lemma AdvanceKeepsCalls(cfg: Settings, db: Db, run: string, g: Glance)
    ensures ExecAll(db, AdvanceOps(cfg, db, run, g)).tables.calls == db.tables.calls
    ensures AllShaped(AdvanceOps(cfg, db, run, g), "", run)
  {
    var ops := AdvanceOps(cfg, db, run, g);
    if ops != [] {
      assert ops[1..] == [];
      assert ExecAll(db, ops) == Exec(db, ops[0]).0;
      MoveKeepsCalls(db, ops[0]);
    }
  }

  lemma MoveKeepsCalls(db: Db, op: Op)
    requires op.MoveRun?
    ensures Exec(db, op).0.tables.calls == db.tables.calls
  {
  }

  lemma CommitShaped(cfg: Settings, db: Db, x: string, b: Binding, g: Glance)
    requires x in db.tables.calls && Bind(cfg, db, x) == Some(b)
    ensures AllShaped(CommitOps(cfg, db, x, b, g), x, CallRun(db, x))
    ensures SpendsOwn(CommitOps(cfg, db, x, b, g), cfg, db, x)
  {
    hide Bind, ExecAll, BlockOps, ArtifactMatches, ArtifactOf;
    var run := db.tables.calls[x].runId;
    BlockShaped(db, x, INVALID, g);
    AdvanceKeepsCalls(cfg, db, run, g);
    var moved := ExecAll(db, AdvanceOps(cfg, db, run, g));
    BlockShaped(moved, x, INVALID, g);
  }

  lemma MarkShaped(db: Db, x: string, g: Glance)
    requires x in db.tables.calls
    ensures AllShaped(MarkOps(db, x, g), x, CallRun(db, x))
    ensures forall i :: 0 <= i < |MarkOps(db, x, g)| ==> !MarkOps(db, x, g)[i].Use?
  {
  }

  /** Recovery submits only checked, non-completing operations about the call it
      handles, so each is one of the client steps of the effect protocol. */
  lemma ScriptShaped(cfg: Settings, db: Db, x: string, emergency: bool, g: Glance)
    requires x in db.tables.calls
    ensures AllShaped(ScriptOne(cfg, db, x, emergency, g), x, CallRun(db, x))
    ensures SpendsOwn(ScriptOne(cfg, db, x, emergency, g), cfg, db, x)
  {
    hide Bind, CommitOps, MarkOps, BlockOps, Shaped;
    MarkShaped(db, x, g);
    var why := Obstacle(cfg, db, x, emergency, g);
    if why.Some? {
      BlockShaped(db, x, why.value, g);
    } else {
      BindSome(cfg, db, x, emergency, g);
      CommitShaped(cfg, db, x, Bind(cfg, db, x).value, g);
    }
  }

  lemma BindSome(cfg: Settings, db: Db, x: string, emergency: bool, g: Glance)
    requires x in db.tables.calls && Obstacle(cfg, db, x, emergency, g).None?
    ensures Bind(cfg, db, x).Some?
  {
    hide Bind;
  }

  // ---------- scripts of other calls ----------

  lemma ArtifactIdsDiffer(x: string, c: string)
    requires x != c
    ensures ArtifactId(x) != ArtifactId(c)
  {
    var n := |"recovery:"|;
    assert ArtifactId(x)[n..] == x && ArtifactId(c)[n..] == c;
  }

  lemma ShapedApart(op: Op, x: string, runx: string, c: string, run: string, app: string)
    requires Shaped(op, x, runx) && x != c && runx != run && (op.Use? ==> op.id != app)
    ensures Apart(op, c, run, app)
  {
    ArtifactIdsDiffer(x, c);
  }

  lemma FineBound(aim: Aim, db: Db)
    requires Fine(aim, db)
    ensures Bound(aim, db) && (Reconciled(aim, db) <==> !OnItsWay(aim, db))
  {
    hide Bind, Observed, ArtifactMatches, BlockedIn;
  }

  lemma ShapedChecked(ops: seq<Op>, x: string, run: string)
    requires AllShaped(ops, x, run)
    ensures forall i :: 0 <= i < |ops| ==> CheckedOp(ops[i])
  {
  }

  lemma ScriptOneGood(cfg: Settings, db: Db, x: string, emergency: bool, g: Glance)
    requires Good(db) && x in db.tables.calls
    ensures var db' := ExecAll(db, ScriptOne(cfg, db, x, emergency, g)); Good(db') && Kept(db, db')
  {
    hide Good, Kept, ScriptOne, ExecAll, AllShaped, SpendsOwn;
    ScriptShaped(cfg, db, x, emergency, g);
    ShapedChecked(ScriptOne(cfg, db, x, emergency, g), x, db.tables.calls[x].runId);
    GoodExecAll(db, ScriptOne(cfg, db, x, emergency, g));
  }

  // ---------- the expiry before the calls ----------

  lemma ViewTransitive(aim: Aim, a: Db, b: Db, c: Db)
    requires Bound(aim, a) && SameView(aim, a, b) && Bound(aim, b) && SameView(aim, b, c)
    requires Bind(aim.cfg, b, aim.call) == Bind(aim.cfg, a, aim.call) && RunOf(aim, b) == RunOf(aim, a)
    ensures SameView(aim, a, c)
  {
    hide Bind, BlockedIn;
  }

  lemma ExpiryNeedsLive(db: Db, d: Draft)
    requires d.payload.ApprovalExpired? && Append(db, d).Some?
    ensures d.payload.approvalId in db.tables.approvals
    ensures db.tables.approvals[d.payload.approvalId].status in {Pending, Approved}
  {
    assert ApplyApproval(db.tables.approvals, NextEvent(db.journal, d)).Some?;
  }

  lemma ExpiredApart(aim: Aim, db: Db, d: Draft)
    requires Bound(aim, db) && d.payload.ApprovalExpired? && Append(db, d).Some?
    ensures ApartDraft(d, aim.call, RunOf(aim, db), Bind(aim.cfg, db, aim.call).value.approvalId)
  {
    hide Bind, Append;
    BindFacts(aim.cfg, db, aim.call);
    ExpiryNeedsLive(db, d);
  }

  lemma {:induction false} ExpiriesView(aim: Aim, db: Db, drafts: seq<Draft>)
    requires Bound(aim, db) && AppendAll(db, drafts).Some?
    requires forall i :: 0 <= i < |drafts| ==> drafts[i].payload.ApprovalExpired?
    ensures SameView(aim, db, AppendAll(db, drafts).value)
    decreases drafts
  {
    hide Bind, SameView, Append;
    if drafts == [] {
      SameDbView(aim, db);
    } else {
      var next := Append(db, drafts[0]).value;
      ExpiredApart(aim, db, drafts[0]);
      ApartAppend(aim, db, drafts[0]);
      ViewKeeps(aim, db, next);
      ExpiriesView(aim, next, drafts[1..]);
      ViewTransitive(aim, db, next, AppendAll(db, drafts).value);
    }
  }

  lemma ExpiryView(aim: Aim, db: Db, at: Time)
    requires Bound(aim, db)
    ensures SameView(aim, db, Exec(db, Expiry(at)).0)
  {
    hide Bind, SameView;
    var drafts := Expiries(db.tables, DueIds(db.tables, at), at);
    if AppendAll(db, drafts).Some? {
      ExpiriesView(aim, db, drafts);
    } else {
      SameDbView(aim, db);
    }
  }

  // ---------- which calls are touched ----------

  // An operation recovery may submit when it handles only calls of the set.
  predicate TouchesOnly(op: Op, s: set<string>) {
    && CheckedOp(op) && !Completing(op)
    && match op
       case Record(d) => d.payload.RecoveryBlocked? || d.payload.ArtifactRecorded?
       case MoveRun(_, _, _, _, _, _, _, _) => OwnMove(op)
       case Use(_, _, _) => true
       case CallStep(id, _, _, _, _, _) => id in s
       case Expiry(_) => true
       case _ => false
  }

  predicate AllTouchOnly(ops: seq<Op>, s: set<string>) { forall i :: 0 <= i < |ops| ==> TouchesOnly(ops[i], s) }

  lemma ShapedTouches(ops: seq<Op>, x: string, run: string, s: set<string>)
    requires AllShaped(ops, x, run) && x in s
    ensures AllTouchOnly(ops, s)
  {
    forall i | 0 <= i < |ops| ensures TouchesOnly(ops[i], s) { assert Shaped(ops[i], x, run); }
  }

  lemma {:induction false} ManyTouch(cfg: Settings, db: Db, calls: seq<string>, emergency: bool, gs: string -> Glance,
                                     s: set<string>)
    requires forall i :: 0 <= i < |calls| ==> calls[i] in s
    ensures AllTouchOnly(ScriptMany(cfg, db, calls, emergency, gs), s)
    decreases calls
  {
    hide ScriptOne, TouchesOnly, AllShaped, SpendsOwn, ExecAll;
    if calls != [] && calls[0] in db.tables.calls {
      var one := ScriptOne(cfg, db, calls[0], emergency, gs(calls[0]));
      ScriptShaped(cfg, db, calls[0], emergency, gs(calls[0]));
      ShapedTouches(one, calls[0], db.tables.calls[calls[0]].runId, s);
      ManyTouch(cfg, ExecAll(db, one), calls[1..], emergency, gs, s);
    }
  }

  /** A whole recovery, seen from outside, is a list of ordinary checked operations none
      of which completes a run. */
  lemma RecoverySubmitsClientSteps(cfg: Settings, db: Db, emergency: bool, at: Time, gs: string -> Glance)
    ensures AllTouchOnly(Script(cfg, db, emergency, at, gs), Selection(Exec(db, Expiry(at)).0))
    ensures forall i :: 0 <= i < |Script(cfg, db, emergency, at, gs)| ==>
              CheckedOp(Script(cfg, db, emergency, at, gs)[i]) && !Completing(Script(cfg, db, emergency, at, gs)[i])
  {
    hide ScriptMany, Exec, Selection, UncertainCalls;
    var expired := Exec(db, Expiry(at)).0;
    ListedCalls(expired);
    ManyTouch(cfg, expired, UncertainCalls(expired), emergency, gs, Selection(expired));
  }

  // Calls outside the set are exactly as they were, and no call appears.
  ghost predicate Untouched(db: Db, db': Db, s: set<string>) {
    && db.journal <= db'.journal && db'.tables.calls.Keys == db.tables.calls.Keys
    && forall x :: x in db.tables.calls && x !in s ==> db'.tables.calls[x] == db.tables.calls[x]
  }

  lemma {:induction false} ExpiriesTouchNoCall(db: Db, drafts: seq<Draft>)
    requires AppendAll(db, drafts).Some?
    requires forall i :: 0 <= i < |drafts| ==> drafts[i].payload.ApprovalExpired?
    ensures db.journal <= AppendAll(db, drafts).value.journal
    ensures AppendAll(db, drafts).value.tables.calls == db.tables.calls
    decreases drafts
  {
    if drafts != [] { ExpiriesTouchNoCall(Append(db, drafts[0]).value, drafts[1..]); }
  }

  lemma OpUntouched(db: Db, op: Op, s: set<string>)
    requires TouchesOnly(op, s)
    ensures Untouched(db, Exec(db, op).0, s)
  {
    if op.Expiry? {
      var drafts := Expiries(db.tables, DueIds(db.tables, op.at), op.at);
      if AppendAll(db, drafts).Some? { ExpiriesTouchNoCall(db, drafts); }
    }
  }

  lemma {:induction false} OpsUntouched(db: Db, ops: seq<Op>, s: set<string>)
    requires AllTouchOnly(ops, s)
    ensures Untouched(db, ExecAll(db, ops), s)
    decreases ops
  {
    hide TouchesOnly, Exec;
    if ops != [] {
      assert TouchesOnly(ops[0], s);
      OpUntouched(db, ops[0], s);
      assert AllTouchOnly(ops[1..], s);
      OpsUntouched(Exec(db, ops[0]).0, ops[1..], s);
    }
  }

  lemma BlockedGrows(j: seq<Event>, j': seq<Event>, x: string)
    requires j <= j' && BlockedIn(j, x)
    ensures BlockedIn(j', x)
  {
    var k :| 0 <= k < |j| && j[k].payload.RecoveryBlocked? && j[k].payload.callId == x;
    assert j'[k] == j[k];
  }

  lemma SelectionShrinks(db: Db, db': Db, s: set<string>)
    requires Untouched(db, db', s) && s <= Selection(db)
    ensures Selection(db') <= Selection(db)
  {
    forall x | x in Selection(db') ensures x in Selection(db) {
      if x !in s && BlockedIn(db.journal, x) { BlockedGrows(db.journal, db'.journal, x); }
    }
  }

  lemma RecoverGood(cfg: Settings, db: Db, emergency: bool, at: Time, gs: string -> Glance)
    requires Good(db)
    ensures Good(Recover(cfg, db, emergency, at, gs)) && Kept(db, Recover(cfg, db, emergency, at, gs))
  {
    hide Good, Kept, Script, ExecAll;
    RecoverySubmitsClientSteps(cfg, db, emergency, at, gs);
    GoodExecAll(db, Script(cfg, db, emergency, at, gs));
  }

  // ---------- recovery never invents a success ----------

  // What must hold of the database and the sandbox for call x to be moved to SUCCEEDED.
  ghost predicate Earned(cfg: Settings, db: Db, x: string, g: Glance) {
    && x in db.tables.calls && Bind(cfg, db, x).Some?
    && Bind(cfg, db, x).value.approvalId in db.tables.approvals
    && var b, call := Bind(cfg, db, x).value, db.tables.calls[x];
       var row := db.tables.approvals[b.approvalId];
       && row.status in {Claimed, Consumed} && row.claimedBy == Some(b.action.requesterId)
       && call.actionDigest == row.actionDigest == cfg.digest(b.action)
       && b.action.contentSha256 == Some(cfg.hash(b.content)) && b.action.contentLength == Some(|b.content|)
       && call.runId in db.tables.runs && db.tables.runs[call.runId].state in {Executing, Verifying}
       && Readable(g.dir, b.path) == Some(b.content)
  }

  predicate Succeeds(op: Op) { op.CallStep? && op.state.state == Succeeded }

  lemma CommitLast(cfg: Settings, db: Db, x: string, b: Binding, g: Glance)
    requires x in db.tables.calls
    ensures forall i :: 0 <= i < |CommitOps(cfg, db, x, b, g)| && Succeeds(CommitOps(cfg, db, x, b, g)[i]) ==>
              i == |CommitOps(cfg, db, x, b, g)| - 1
  {
    hide ExecAll, ArtifactMatches;
  }

  /** Recovery moves a call to SUCCEEDED only as the last write for that call, and only
      if the emergency stop was off, the approval was claimed or consumed by the
      action's own requester, all digest and length bindings agree, the run is active,
      and the observed bytes are exactly the approved ones.  It writes no file. */
  lemma NeverInventsSuccess(cfg: Settings, db: Db, x: string, emergency: bool, g: Glance, i: nat)
    requires x in db.tables.calls && i < |ScriptOne(cfg, db, x, emergency, g)|
    requires Succeeds(ScriptOne(cfg, db, x, emergency, g)[i])
    ensures !emergency && Earned(cfg, db, x, g) && i == |ScriptOne(cfg, db, x, emergency, g)| - 1
    ensures ScriptOne(cfg, db, x, emergency, g)[i].id == x
  {
    hide Bind, CommitOps, Readable;
    var mark := MarkOps(db, x, g);
    var why := Obstacle(cfg, db, x, emergency, g);
    if why.Some? {
      BlockNeverSucceeds(db, x, why.value, g);
    } else {
      BindFacts(cfg, db, x);
      CommitLast(cfg, db, x, Bind(cfg, db, x).value, g);
      ScriptShaped(cfg, db, x, emergency, g);
      assert Shaped(ScriptOne(cfg, db, x, emergency, g)[i], x, db.tables.calls[x].runId);
    }
  }

  lemma BlockNeverSucceeds(db: Db, x: string, why: string, g: Glance)
    requires x in db.tables.calls
    ensures forall i :: 0 <= i < |BlockOps(db, x, why, g)| ==> !Succeeds(BlockOps(db, x, why, g)[i])
  {
  }

  // ---------- recovery reaches a fixpoint ----------

  // SUCCEEDED, or blocked in the journal.
  ghost predicate Resolved(db: Db, x: string) {
    x in db.tables.calls && (db.tables.calls[x].state.state == Succeeded || BlockedIn(db.journal, x))
  }

  predicate Notes(op: Op, x: string, run: string) {
    op.Record? && op.draft.payload.RecoveryBlocked? && op.draft.payload.callId == x && op.draft.runId == run &&
    op.draft.actorId == ACTOR
  }

  lemma BlockNotes(db: Db, x: string, why: string, g: Glance)
    requires x in db.tables.calls
    ensures BlockOps(db, x, why, g) != [] && Notes(BlockOps(db, x, why, g)[0], x, CallRun(db, x))
  {
  }

  ghost predicate HasNote(ops: seq<Op>, x: string, run: string) { exists k :: 0 <= k < |ops| && Notes(ops[k], x, run) }

  lemma NoteIn(p: seq<Op>, q: seq<Op>, x: string, run: string)
    requires q != [] && Notes(q[0], x, run)
    ensures HasNote(p + q, x, run)
  {
    assert (p + q)[|p|] == q[0];
  }

  lemma CommitEnds(cfg: Settings, db: Db, x: string, b: Binding, g: Glance)
    requires x in db.tables.calls
    ensures var ops := CommitOps(cfg, db, x, b, g);
            HasNote(ops, x, CallRun(db, x)) || (ops != [] && Succeeds(ops[|ops| - 1]) && ops[|ops| - 1].id == x)
  {
    hide ExecAll, BlockOps, HasNote, ArtifactMatches;
    var run := db.tables.calls[x].runId;
    var spend, store, advance := SpendOps(db, b, g), StoreOps(cfg, db, x, b, g), AdvanceOps(cfg, db, run, g);
    AdvanceKeepsCalls(cfg, db, run, g);
    var moved := ExecAll(db, advance);
    BlockNotes(db, x, INVALID, g);
    BlockNotes(moved, x, INVALID, g);
    NoteIn(spend, BlockOps(db, x, INVALID, g), x, run);
    NoteIn(spend + store, BlockOps(db, x, INVALID, g), x, run);
    NoteIn(spend + store + advance, BlockOps(moved, x, INVALID, g), x, run);
  }

  lemma NoteAfter(p: seq<Op>, q: seq<Op>, x: string, run: string)
    requires HasNote(q, x, run)
    ensures HasNote(p + q, x, run)
  {
    var k :| 0 <= k < |q| && Notes(q[k], x, run);
    assert (p + q)[|p| + k] == q[k];
  }

  // Whatever path it takes, the script of a call blocks it or ends in its success.
  lemma ScriptEnds(cfg: Settings, db: Db, x: string, emergency: bool, g: Glance)
    requires x in db.tables.calls
    ensures var ops := ScriptOne(cfg, db, x, emergency, g);
            HasNote(ops, x, CallRun(db, x)) || (ops != [] && Succeeds(ops[|ops| - 1]) && ops[|ops| - 1].id == x)
  {
    hide Bind, CommitOps, BlockOps, HasNote, Obstacle;
    var why, mark, run := Obstacle(cfg, db, x, emergency, g), MarkOps(db, x, g), db.tables.calls[x].runId;
    if why.Some? {
      BlockNotes(db, x, why.value, g);
      NoteIn(mark, BlockOps(db, x, why.value, g), x, run);
    } else {
      BindSome(cfg, db, x, emergency, g);
      var b := Bind(cfg, db, x).value;
      CommitEnds(cfg, db, x, b, g);
      if HasNote(CommitOps(cfg, db, x, b, g), x, run) { NoteAfter(mark, CommitOps(cfg, db, x, b, g), x, run); }
    }
  }

  lemma {:induction false} NoteBlocks(db: Db, ops: seq<Op>, x: string, run: string, s: set<string>)
    requires AllTouchOnly(ops, s) && HasNote(ops, x, run) && run != ""
    ensures BlockedIn(ExecAll(db, ops).journal, x)
    decreases ops
  {
    hide TouchesOnly, Exec, BlockedIn;
    var k :| 0 <= k < |ops| && Notes(ops[k], x, run);
    assert AllTouchOnly(ops[1..], s);
    var next := Exec(db, ops[0]).0;
    if k == 0 {
      DoNote(db, ops[0].draft);
      BlockedAt(next.journal, x, |db.journal|);
      OpsUntouched(next, ops[1..], s);
      BlockedGrows(next.journal, ExecAll(db, ops).journal, x);
    } else {
      assert Notes(ops[1..][k - 1], x, run);
      NoteBlocks(next, ops[1..], x, run, s);
    }
  }

  lemma BlockedAt(j: seq<Event>, x: string, k: nat)
    requires k < |j| && j[k].payload.RecoveryBlocked? && j[k].payload.callId == x
    ensures BlockedIn(j, x)
  {
  }

  lemma LastSucceeds(db: Db, ops: seq<Op>, x: string)
    requires Good(db) && ops != [] && x in db.tables.calls && forall i :: 0 <= i < |ops| ==> CheckedOp(ops[i])
    requires Succeeds(ops[|ops| - 1]) && ops[|ops| - 1].id == x && ops[|ops| - 1].actor == ACTOR
    ensures x in ExecAll(db, ops).tables.calls && ExecAll(db, ops).tables.calls[x].state.state == Succeeded
  {
    hide Good, Kept, CheckedOp, Exec, ExecAll;
    var n := |ops| - 1;
    assert ops == ops[..n] + [ops[n]];
    ExecAllConcat(db, ops[..n], [ops[n]]);
    GoodExecAll(db, ops[..n]);
    var before := ExecAll(db, ops[..n]);
    CallNamed(db, before, x);
    ExecOne(before, ops[n]);
    var row := DoCall(before, ops[n]);
  }

  lemma ExecOne(db: Db, op: Op)
    ensures ExecAll(db, [op]) == Exec(db, op).0
  {
    assert [op][1..] == [];
  }

  lemma CallNamed(db: Db, db': Db, x: string)
    requires Good(db') && Kept(db, db') && x in db.tables.calls
    ensures x in db'.tables.calls && CallRun(db', x) != ""
  {
  }

  lemma ResolvesOne(cfg: Settings, db: Db, x: string, emergency: bool, g: Glance)
    requires Good(db) && x in db.tables.calls
    ensures Resolved(ExecAll(db, ScriptOne(cfg, db, x, emergency, g)), x)
  {
    hide Good, ScriptOne, ExecAll, SpendsOwn, Kept, HasNote, BlockedIn;
    var ops, run := ScriptOne(cfg, db, x, emergency, g), db.tables.calls[x].runId;
    ScriptEnds(cfg, db, x, emergency, g);
    ScriptShaped(cfg, db, x, emergency, g);
    ScriptOneGood(cfg, db, x, emergency, g);
    CallNamed(db, ExecAll(db, ops), x);
    NameKept(db, x);
    if HasNote(ops, x, run) {
      ShapedTouches(ops, x, run, {x});
      NoteBlocks(db, ops, x, run, {x});
    } else {
      ShapedChecked(ops, x, run);
      assert Shaped(ops[|ops| - 1], x, run);
      LastSucceeds(db, ops, x);
    }
  }

  lemma NameKept(db: Db, x: string)
    requires Good(db) && x in db.tables.calls
    ensures CallRun(db, x) != ""
  {
  }

  lemma ResolvedStays(db: Db, db': Db, x: string, s: set<string>)
    requires Resolved(db, x) && Untouched(db, db', s) && x !in s
    ensures Resolved(db', x)
  {
    if BlockedIn(db.journal, x) { BlockedGrows(db.journal, db'.journal, x); }
  }

  ghost predicate Listed(db: Db, calls: seq<string>) {
    && (forall i, j :: 0 <= i < j < |calls| ==> calls[i] != calls[j])
    && forall i :: 0 <= i < |calls| ==> calls[i] in db.tables.calls
  }

  lemma ListedTail(db: Db, db': Db, calls: seq<string>)
    requires calls != [] && Listed(db, calls) && Kept(db, db')
    ensures Listed(db', calls[1..]) && calls[0] !in calls[1..]
  {
    forall i | 0 <= i < |calls[1..]| ensures calls[1..][i] in db'.tables.calls { assert calls[1..][i] == calls[i + 1]; }
  }

  lemma {:induction false} ResolvesMany(cfg: Settings, db: Db, calls: seq<string>, emergency: bool, gs: string -> Glance)
    requires Good(db) && Listed(db, calls)
    ensures forall x :: x in calls ==> Resolved(ExecAll(db, ScriptMany(cfg, db, calls, emergency, gs)), x)
    decreases calls
  {
    hide Good, Kept, ScriptOne, ExecAll, Resolved, Untouched, AllTouchOnly;
    if calls != [] {
      assert calls[0] in db.tables.calls;
      var one, rest := ScriptOne(cfg, db, calls[0], emergency, gs(calls[0])), calls[1..];
      var db1 := ExecAll(db, one);
      ScriptOneGood(cfg, db, calls[0], emergency, gs(calls[0]));
      ListedTail(db, db1, calls);
      ResolvesOne(cfg, db, calls[0], emergency, gs(calls[0]));
      var tail := ScriptMany(cfg, db1, rest, emergency, gs);
      ResolvesMany(cfg, db1, rest, emergency, gs);
      ExecAllConcat(db, one, tail);
      var s := set x | x in rest;
      ManyTouch(cfg, db1, rest, emergency, gs, s);
      OpsUntouched(db1, tail, s);
      ResolvedStays(db1, ExecAll(db1, tail), calls[0], s);
    }
  }

  // ---------- nothing is due twice ----------

  ghost predicate NoneDue(t: Tables, at: Time) {
    forall a :: a in t.approvals && t.approvals[a].status in {Pending, Approved} ==> at < t.approvals[a].expiresAt
  }

  // The effect of the expiry: exactly the listed rows change, to Expired.
  lemma {:induction false} ExpiriesApply(db: Db, t: Tables, ids: seq<string>, at: Time)
    requires TextOrder.Ascending(ids)
    requires forall i :: 0 <= i < |ids| ==> ids[i] in t.approvals && t.approvals[ids[i]].runId != ""
    requires forall i :: 0 <= i < |ids| ==> HasStatus(db.tables.approvals, ids[i], {Pending, Approved})
    ensures var r := AppendAll(db, Expiries(t, ids, at));
            && r.Some? && r.value.tables.approvals.Keys == db.tables.approvals.Keys
            && forall a :: a in db.tables.approvals ==>
                 if a in ids then r.value.tables.approvals[a].status == Expired
                 else r.value.tables.approvals[a] == db.tables.approvals[a]
    decreases ids
  {
    if ids != [] {
      var rest := ids[1..];
      assert Expiries(t, ids, at)[1..] == Expiries(t, rest, at);
      var next := Append(db, Draft(t.approvals[ids[0]].runId, EXPIRY_ACTOR, at, ApprovalExpired(ids[0]))).value;
      assert next.tables.approvals.Keys == db.tables.approvals.Keys;
      forall i | 0 <= i < |rest| ensures HasStatus(next.tables.approvals, rest[i], {Pending, Approved}) && rest[i] != ids[0] {
        assert TextOrder.Less(ids[0], ids[i + 1]);
        assert HasStatus(db.tables.approvals, ids[i + 1], {Pending, Approved});
      }
      assert TextOrder.Ascending(rest);
      ExpiriesApply(next, t, rest, at);
    }
  }

  lemma DueAreLive(t: Tables, at: Time)
    requires Named(t)
    ensures var ids := DueIds(t, at);
            && TextOrder.Ascending(ids)
            && (forall i :: 0 <= i < |ids| ==> ids[i] in t.approvals && t.approvals[ids[i]].runId != "")
            && (forall i :: 0 <= i < |ids| ==> HasStatus(t.approvals, ids[i], {Pending, Approved}))
            && (forall a :: a in Due(t, at) ==> a in ids)
  {
    var ids := DueIds(t, at);
    forall i | 0 <= i < |ids| ensures HasStatus(t.approvals, ids[i], {Pending, Approved}) {
      assert ids[i] in Due(t, at);
    }
  }

  /** Expiry always commits and leaves nothing due: every overdue pending or approved row
      has expired, and no other row changed. */
  lemma ExpiryClears(db: Db, at: Time)
    requires Named(db.tables)
    ensures NoneDue(Exec(db, Expiry(at)).0.tables, at)
    ensures Exec(db, Expiry(at)).1 == Done
  {
    hide Named, AppendAll, Expiries, DueIds;
    DueAreLive(db.tables, at);
    ExpiriesApply(db, db.tables, DueIds(db.tables, at), at);
  }

  lemma StillNoneDue(db: Db, op: Op, s: set<string>, at: Time)
    requires TouchesOnly(op, s) && !op.Expiry? && NoneDue(db.tables, at)
    ensures NoneDue(Exec(db, op).0.tables, at)
  {
  }

  lemma {:induction false} OpsNoneDue(db: Db, ops: seq<Op>, s: set<string>, at: Time)
    requires AllTouchOnly(ops, s) && NoneDue(db.tables, at) && forall i :: 0 <= i < |ops| ==> !ops[i].Expiry?
    ensures NoneDue(ExecAll(db, ops).tables, at)
    decreases ops
  {
    hide TouchesOnly, Exec, NoneDue;
    if ops != [] {
      assert TouchesOnly(ops[0], s) && AllTouchOnly(ops[1..], s);
      StillNoneDue(db, ops[0], s, at);
      OpsNoneDue(Exec(db, ops[0]).0, ops[1..], s, at);
    }
  }

  lemma {:induction false} ManyNoExpiry(cfg: Settings, db: Db, calls: seq<string>, emergency: bool, gs: string -> Glance)
    ensures forall i :: 0 <= i < |ScriptMany(cfg, db, calls, emergency, gs)| ==>
              !ScriptMany(cfg, db, calls, emergency, gs)[i].Expiry?
    decreases calls
  {
    hide ScriptOne, ExecAll, SpendsOwn;
    if calls != [] && calls[0] in db.tables.calls {
      var one := ScriptOne(cfg, db, calls[0], emergency, gs(calls[0]));
      ScriptShaped(cfg, db, calls[0], emergency, gs(calls[0]));
      assert forall i :: 0 <= i < |one| ==> Shaped(one[i], calls[0], db.tables.calls[calls[0]].runId);
      ManyNoExpiry(cfg, ExecAll(db, one), calls[1..], emergency, gs);
    }
  }

  lemma NothingDueAgain(db: Db, at: Time)
    requires NoneDue(db.tables, at)
    ensures Exec(db, Expiry(at)).0 == db
  {
    assert Due(db.tables, at) == {};
    assert DueIds(db.tables, at) == [];
    assert Expiries(db.tables, [], at) == [];
  }

  lemma ListedCalls(db: Db)
    ensures Listed(db, UncertainCalls(db)) && forall x :: x in UncertainCalls(db) <==> x in Selection(db)
  {
    hide Selected;
    var q := UncertainCalls(db);
    forall i | 0 <= i < |q| ensures q[i] in db.tables.calls { assert q[i] in q; }
  }

  lemma ResolvedNotSelected(db: Db, x: string)
    requires Resolved(db, x)
    ensures x !in Selection(db)
  {
  }

  lemma AfterTheCalls(cfg: Settings, expired: Db, emergency: bool, gs: string -> Glance, at: Time)
    requires Good(expired) && NoneDue(expired.tables, at)
    ensures var end := ExecAll(expired, ScriptMany(cfg, expired, UncertainCalls(expired), emergency, gs));
            && Selection(end) == {} && NoneDue(end.tables, at)
            && forall x :: x in UncertainCalls(expired) ==> Resolved(end, x)
  {
    hide Good, Selected, ExecAll, ScriptMany, UncertainCalls, Selection, Listed, Resolved, NoneDue, AllTouchOnly, Untouched;
    var calls := UncertainCalls(expired);
    var ops := ScriptMany(cfg, expired, calls, emergency, gs);
    var end := ExecAll(expired, ops);
    ListedCalls(expired);
    ResolvesMany(cfg, expired, calls, emergency, gs);
    ManyTouch(cfg, expired, calls, emergency, gs, Selection(expired));
    ManyNoExpiry(cfg, expired, calls, emergency, gs);
    OpsNoneDue(expired, ops, Selection(expired), at);
    OpsUntouched(expired, ops, Selection(expired));
    SelectionShrinks(expired, end, Selection(expired));
    forall x | x in Selection(end) ensures false { ResolvedNotSelected(end, x); }
  }

  /** A fixpoint: when a recovery ends, each call it selected is SUCCEEDED or blocked in
      the journal, nothing is left to select, and another recovery at the same clock,
      whether or not the stop latch was reset meanwhile, appends no event at all. */
  lemma RecoveryIsAFixpoint(cfg: Settings, db: Db, emergency: bool, at: Time, gs: string -> Glance,
                            emergency': bool, gs': string -> Glance)
    requires Good(db)
    ensures var end := Recover(cfg, db, emergency, at, gs);
            && (forall x :: x in UncertainCalls(Exec(db, Expiry(at)).0) ==> Resolved(end, x))
            && UncertainCalls(Exec(end, Expiry(at)).0) == []
            && Recover(cfg, end, emergency', at, gs') == end
  {
    hide Good, Exec, ScriptMany, Resolved, NoneDue, Selected;
    var expired := Exec(db, Expiry(at)).0;
    var ops := ScriptMany(cfg, expired, UncertainCalls(expired), emergency, gs);
    GoodExec(db, Expiry(at));
    ExpiryClears(db, at) by { GoodNamed(db); }
    AfterTheCalls(cfg, expired, emergency, gs, at);
    ExecAllConcat(db, [Expiry(at)], ops);
    ExecOne(db, Expiry(at));
    var end := Recover(cfg, db, emergency, at, gs);
    NothingDueAgain(end, at);
    ListedCalls(end);
    assert UncertainCalls(end) == [] by { EmptyList(UncertainCalls(end)); }
    ExecOne(end, Expiry(at));
    NothingToDo(cfg, end, emergency', gs');
    assert Script(cfg, end, emergency', at, gs') == [Expiry(at)];
  }

  lemma GoodNamed(db: Db)
    requires Good(db)
    ensures Named(db.tables)
  {
  }

  lemma EmptyList(q: seq<string>)
    requires forall x :: x !in q
    ensures q == []
  {
    if q != [] { TextOrder.HasMember(q); }
  }

  lemma NothingToDo(cfg: Settings, db: Db, emergency: bool, gs: string -> Glance)
    ensures ScriptMany(cfg, db, [], emergency, gs) == []
  {
  }

  // ---------- what recovery leaves alone ----------

  // The run's row and its claimed or consumed approvals are exactly as they were.
  ghost predicate Aside(db: Db, db': Db, run: string) {
    && (run in db.tables.runs ==> run in db'.tables.runs && db'.tables.runs[run] == db.tables.runs[run])
    && forall id :: id in db.tables.approvals && db.tables.approvals[id].runId == run &&
                    db.tables.approvals[id].status in {Claimed, Consumed} ==>
         id in db'.tables.approvals && db'.tables.approvals[id] == db.tables.approvals[id]
  }

  lemma AsideTransitive(a: Db, b: Db, c: Db, run: string)
    requires Aside(a, b, run) && Aside(b, c, run)
    ensures Aside(a, c, run)
  {
    forall id | id in a.tables.approvals && a.tables.approvals[id].runId == run &&
                a.tables.approvals[id].status in {Claimed, Consumed}
      ensures id in c.tables.approvals && c.tables.approvals[id] == a.tables.approvals[id]
    {
      assert b.tables.approvals[id] == a.tables.approvals[id];
    }
  }

  predicate OtherRunsApproval(db: Db, id: string, run: string) {
    id in db.tables.approvals ==> db.tables.approvals[id].runId != run
  }

  lemma OpAside(db: Db, op: Op, x: string, runx: string, run: string)
    requires Shaped(op, x, runx) && runx != run && (op.Use? ==> OtherRunsApproval(db, op.id, run))
    ensures Aside(db, Exec(db, op).0, run)
  {
    hide Exec, Aside, CheckedOp, Completing, ArtifactId;
    match op
    case Use(_, _, _) => UseAside(db, op, run);
    case MoveRun(_, _, _, _, _, _, _, _) => MoveAside(db, op, run);
    case _ => OtherAside(db, op, run);
  }

  lemma MoveAside(db: Db, op: Op, run: string)
    requires op.MoveRun? && op.run != run
    ensures Aside(db, Exec(db, op).0, run)
  {
  }

  lemma OtherAside(db: Db, op: Op, run: string)
    requires op.CallStep? || (op.Record? && (op.draft.payload.RecoveryBlocked? || op.draft.payload.ArtifactRecorded?))
    ensures Aside(db, Exec(db, op).0, run)
  {
    hide CancelRun, Claim, Approve, RequestApproval, ExpireDue, Transition, Rebuild, Consume, Deny, CancelApproval,
         ApplyRun, ApplyApproval, ApplyBudget, ApplyWorkItem, ApplyMessage;
  }

  lemma UseAside(db: Db, op: Op, run: string)
    requires op.Use? && OtherRunsApproval(db, op.id, run)
    ensures Aside(db, Exec(db, op).0, run)
  {
  }

  lemma ApprovalRunFixed(db: Db, op: Op, id: string, run: string)
    requires Good(db) && CheckedOp(op) && id in db.tables.approvals && OtherRunsApproval(db, id, run)
    ensures OtherRunsApproval(Exec(db, op).0, id, run) && id in Exec(db, op).0.tables.approvals
  {
    hide Good, CheckedOp, Exec;
    GoodExec(db, op);
    assert SameBinding(db.tables.approvals[id], Exec(db, op).0.tables.approvals[id]);
  }

  lemma {:induction false} OpsAside(db: Db, ops: seq<Op>, x: string, runx: string, run: string, app: string)
    requires Good(db) && AllShaped(ops, x, runx) && runx != run
    requires forall i :: 0 <= i < |ops| && ops[i].Use? ==>
               ops[i].id == app && app in db.tables.approvals && OtherRunsApproval(db, app, run)
    ensures Aside(db, ExecAll(db, ops), run)
    decreases ops
  {
    hide Good, Shaped, Exec, Aside, OtherRunsApproval, CheckedOp, Completing;
    if ops == [] {
      AsideItself(db, run);
    } else {
      assert Shaped(ops[0], x, runx);
      ShapedIsChecked(ops[0], x, runx);
      OpAside(db, ops[0], x, runx, run);
      var next := Exec(db, ops[0]).0;
      GoodExec(db, ops[0]);
      if app in db.tables.approvals && OtherRunsApproval(db, app, run) { ApprovalRunFixed(db, ops[0], app, run); }
      OpsAside(next, ops[1..], x, runx, run, app);
      AsideTransitive(db, next, ExecAll(db, ops), run);
    }
  }

  lemma AsideItself(db: Db, run: string)
    ensures Aside(db, db, run)
  {
  }

  lemma ShapedIsChecked(op: Op, x: string, runx: string)
    requires Shaped(op, x, runx)
    ensures CheckedOp(op)
  {
  }

  lemma ScriptAside(cfg: Settings, db: Db, x: string, emergency: bool, g: Glance, run: string)
    requires Good(db) && x in db.tables.calls && CallRun(db, x) != run
    ensures Aside(db, ExecAll(db, ScriptOne(cfg, db, x, emergency, g)), run)
  {
    hide Good, Shaped, ScriptOne, Bind, ExecAll, Aside;
    var ops := ScriptOne(cfg, db, x, emergency, g);
    ScriptShaped(cfg, db, x, emergency, g);
    if Bind(cfg, db, x).Some? {
      BindFacts(cfg, db, x);
      OpsAside(db, ops, x, db.tables.calls[x].runId, run, Bind(cfg, db, x).value.approvalId);
    } else {
      OpsAside(db, ops, x, db.tables.calls[x].runId, run, "");
    }
  }

  ghost predicate NoneOfRun(db: Db, calls: seq<string>, run: string) {
    forall i :: 0 <= i < |calls| ==> calls[i] in db.tables.calls && db.tables.calls[calls[i]].runId != run
  }

  lemma NoneOfRunTail(db: Db, db': Db, calls: seq<string>, run: string)
    requires calls != [] && NoneOfRun(db, calls, run) && Kept(db, db')
    ensures NoneOfRun(db', calls[1..], run)
  {
    forall i | 0 <= i < |calls[1..]|
      ensures calls[1..][i] in db'.tables.calls && db'.tables.calls[calls[1..][i]].runId != run
    {
      assert calls[1..][i] == calls[i + 1];
      assert SameCall(db.tables.calls[calls[i + 1]], db'.tables.calls[calls[i + 1]]);
    }
  }

  lemma {:induction false} ManyAside(cfg: Settings, db: Db, calls: seq<string>, emergency: bool, gs: string -> Glance,
                                     run: string)
    requires Good(db) && NoneOfRun(db, calls, run)
    ensures Aside(db, ExecAll(db, ScriptMany(cfg, db, calls, emergency, gs)), run)
    decreases calls
  {
    hide Good, ScriptOne, Aside, Kept, ExecAll;
    if calls == [] {
      AsideItself(db, run);
      NoOps(db);
    } else {
      assert calls[0] in db.tables.calls && db.tables.calls[calls[0]].runId != run;
      var one := ScriptOne(cfg, db, calls[0], emergency, gs(calls[0]));
      var db1 := ExecAll(db, one);
      ScriptAside(cfg, db, calls[0], emergency, gs(calls[0]), run);
      ScriptOneGood(cfg, db, calls[0], emergency, gs(calls[0]));
      NoneOfRunTail(db, db1, calls, run);
      ManyAside(cfg, db1, calls[1..], emergency, gs, run);
      ExecAllConcat(db, one, ScriptMany(cfg, db1, calls[1..], emergency, gs));
      AsideTransitive(db, db1, ExecAll(db1, ScriptMany(cfg, db1, calls[1..], emergency, gs)), run);
    }
  }

  lemma NoOps(db: Db)
    ensures ExecAll(db, []) == db
  {
  }

  lemma {:induction false} ExpiriesAside(db: Db, drafts: seq<Draft>, run: string)
    requires AppendAll(db, drafts).Some? && forall i :: 0 <= i < |drafts| ==> drafts[i].payload.ApprovalExpired?
    ensures Aside(db, AppendAll(db, drafts).value, run)
    decreases drafts
  {
    hide Aside, Append;
    if drafts == [] {
      AsideItself(db, run);
    } else {
      var next := Append(db, drafts[0]).value;
      ExpiredAside(db, drafts[0], run);
      ExpiriesAside(next, drafts[1..], run);
      AsideTransitive(db, next, AppendAll(db, drafts).value, run);
    }
  }

  lemma ExpiredAside(db: Db, d: Draft, run: string)
    requires d.payload.ApprovalExpired? && Append(db, d).Some?
    ensures Aside(db, Append(db, d).value, run)
  {
    ExpiryNeedsLive(db, d);
  }

  lemma ExpiryIs(db: Db, at: Time)
    ensures Exec(db, Expiry(at)) == ExpireDue(db, at)
  {
  }

  lemma ExpiryAside(db: Db, at: Time, run: string)
    ensures Aside(db, Exec(db, Expiry(at)).0, run)
  {
    hide Aside, Exec, Append;
    ExpiryIs(db, at);
    var drafts := Expiries(db.tables, DueIds(db.tables, at), at);
    if AppendAll(db, drafts).Some? { ExpiriesAside(db, drafts, run); } else { AsideItself(db, run); }
  }

  /** Recovery acts only through interrupted calls: the row of a run with no selected
      call, and every claimed approval of it, are exactly as before.  So an approval left
      CLAIMED by a crash between the claim and RUNNING, or between SUCCEEDED and the
      consumption, is not resolved by recovery. */
  lemma RunLeftAlone(cfg: Settings, db: Db, emergency: bool, at: Time, gs: string -> Glance, run: string)
    requires Good(db)
    requires forall x :: x in Selection(db) ==> x in db.tables.calls && CallRun(db, x) != run
    ensures Aside(db, Recover(cfg, db, emergency, at, gs), run)
  {
    hide Good, ScriptMany, Aside, Kept, ExecAll, Exec, Selected, Untouched;
    var expired := Exec(db, Expiry(at)).0;
    var calls := UncertainCalls(expired);
    ExpiryAside(db, at, run);
    GoodExec(db, Expiry(at));
    OpUntouched(db, Expiry(at), {});
    SelectionShrinks(db, expired, {});
    ListedCalls(expired);
    StillNoneOfRun(db, expired, calls, run);
    ManyAside(cfg, expired, calls, emergency, gs, run);
    ExecAllConcat(db, [Expiry(at)], ScriptMany(cfg, expired, calls, emergency, gs));
    ExecOne(db, Expiry(at));
    AsideTransitive(db, expired, Recover(cfg, db, emergency, at, gs), run);
  }

  lemma StillNoneOfRun(db: Db, db': Db, calls: seq<string>, run: string)
    requires Kept(db, db') && forall x :: x in calls ==> x in db.tables.calls && CallRun(db, x) != run
    ensures NoneOfRun(db', calls, run)
  {
    forall i | 0 <= i < |calls| ensures calls[i] in db'.tables.calls && db'.tables.calls[calls[i]].runId != run {
      assert calls[i] in calls;
      assert SameCall(db.tables.calls[calls[i]], db'.tables.calls[calls[i]]);
    }
  }
}
