/** Crash-restart idempotence of recovery, and exactly when it holds: a call with all its
    authority and its exact file is reconciled, however a recovery is cut and run again,
    if and only if every other interrupted call of its run could be reconciled too. */
module Idempotence {
  import opened Domain
  import opened Projections
  import opened Repositories
  import opened Histories
  import opened Invariants
  import opened Growth
  import opened Actions
  import opened Files
  import opened Recovery
  import opened Restart

  function Other(aim: Aim, x: string): Aim { aim.(call := x) }

  // ---------- what reconciling another call does to this one ----------

  // Names nothing of the call, or consumes an approval, or takes the run from EXECUTING
  // to VERIFYING.
  predicate Mild(op: Op, c: string, run: string, app: string) {
    || Apart(op, c, run, app) || op.Use?
    || (op.MoveRun? && op.run == run && op.target == Verifying && op.expectedState == Some(Executing))
  }

  // As fine as before, with the same binding.
  ghost predicate AsFine(aim: Aim, db: Db, db': Db)
    requires Bound(aim, db)
  {
    && Bound(aim, db') && RunOf(aim, db') == RunOf(aim, db)
    && Bind(aim.cfg, db', aim.call) == Bind(aim.cfg, db, aim.call)
    && (OnItsWay(aim, db) ==> OnItsWay(aim, db')) && (Reconciled(aim, db) ==> Reconciled(aim, db'))
  }

  lemma UseKeeps(aim: Aim, db: Db, op: Op)
    requires Fine(aim, db) && op.Use? && Bound(aim, db) && op.id == Bind(aim.cfg, db, aim.call).value.approvalId
    ensures AsFine(aim, db, Exec(db, op).0)
  {
    hide Observed, HoldsAuthority, DurableBindingsAgree, RecoverableWrite, PostconditionBound, ArtifactMatches, BlockedIn;
    BindFacts(aim.cfg, db, aim.call);
    if Exec(db, op).0 != db {
      UseCommitted(db, op);
      var row := DoUse(db, op);
      SameBlocked(db, Exec(db, op).0, aim.call);
      SameBind(aim.cfg, db, Exec(db, op).0, aim.call);
    }
  }

  lemma UseCommitted(db: Db, op: Op)
    requires op.Use? && Exec(db, op).0 != db
    ensures op.id in db.tables.approvals && db.tables.approvals[op.id].runId != "" && op.claimedBy != ""
    ensures db.tables.approvals[op.id].status == Claimed && db.tables.approvals[op.id].claimedBy == Some(op.claimedBy)
  {
  }

  lemma MoveCommitted(db: Db, op: Op)
    requires op.MoveRun? && Exec(db, op).0 != db
    ensures op.run in db.tables.runs && op.run in Exec(db, op).0.tables.runs
    ensures op.expectedState.Some? ==> db.tables.runs[op.run].state == op.expectedState.value
    ensures var db' := Exec(db, op).0;
            && db'.tables == db.tables.(runs := db.tables.runs[op.run := db'.tables.runs[op.run]])
            && db'.tables.runs[op.run].state == op.target && db'.tables.runs[op.run].leaseExpiresAt == op.lease
            && |db'.journal| == |db.journal| + 1 && db.journal <= db'.journal
            && !db'.journal[|db.journal|].payload.RecoveryBlocked?
  {
  }

  lemma MoveKeeps(aim: Aim, db: Db, op: Op)
    requires Fine(aim, db) && Bound(aim, db) && op.MoveRun? && op.run == RunOf(aim, db)
    requires op.target == Verifying && op.expectedState == Some(Executing)
    ensures AsFine(aim, db, Exec(db, op).0)
  {
    hide Exec, Observed, HoldsAuthority, DurableBindingsAgree, RecoverableWrite, PostconditionBound, ArtifactMatches,
         BlockedIn;
    BindFacts(aim.cfg, db, aim.call);
    if Exec(db, op).0 != db {
      MoveCommitted(db, op);
      SameBlocked(db, Exec(db, op).0, aim.call);
      SameBind(aim.cfg, db, Exec(db, op).0, aim.call);
    }
  }

  lemma MildKeeps(aim: Aim, db: Db, op: Op)
    requires Fine(aim, db) && Bound(aim, db)
    requires Mild(op, aim.call, RunOf(aim, db), Bind(aim.cfg, db, aim.call).value.approvalId)
    ensures AsFine(aim, db, Exec(db, op).0)
  {
    hide Bind, SameView, Exec, OnItsWay, Reconciled;
    var run, app := RunOf(aim, db), Bind(aim.cfg, db, aim.call).value.approvalId;
    if op.Use? && op.id == app {
      UseKeeps(aim, db, op);
    } else if op.MoveRun? && op.run == run {
      MoveKeeps(aim, db, op);
    } else {
      ApartView(aim, db, op);
      ViewKeeps(aim, db, Exec(db, op).0);
    }
  }

  lemma {:induction false} MildAlong(aim: Aim, db: Db, ops: seq<Op>)
    requires Fine(aim, db) && Bound(aim, db)
    requires forall i :: 0 <= i < |ops| ==>
               Mild(ops[i], aim.call, RunOf(aim, db), Bind(aim.cfg, db, aim.call).value.approvalId)
    ensures Along(aim, db, ops) && AsFine(aim, db, ExecAll(db, ops))
    decreases ops
  {
    hide Bind, Mild, Exec, OnItsWay, Reconciled;
    if ops != [] {
      MildKeeps(aim, db, ops[0]);
      MildAlong(aim, Exec(db, ops[0]).0, ops[1..]);
    }
  }

  // The operations that reconcile a call on its way are mild for any other.
  lemma ReconcilingIsMild(aim: Aim, db: Db, x: string, g: Glance, run: string, app: string)
    requires x != aim.call && OnItsWay(Other(aim, x), db) && Clear(g, aim.dir)
    ensures var ops := ScriptOne(aim.cfg, db, x, false, g);
            forall i :: 0 <= i < |ops| ==> Mild(ops[i], aim.call, run, app)
  {
    hide Bind, Observed, ArtifactMatches, BlockedIn, CommitOps;
    ArtifactIdsDiffer(x, aim.call);
    OwnCommit(Other(aim, x), db, g);
  }

  lemma ForeignIsMild(aim: Aim, db: Db, x: string, g: Glance)
    requires Bound(aim, db) && x in db.tables.calls && x != aim.call && CallRun(db, x) != RunOf(aim, db)
    ensures var ops := ScriptOne(aim.cfg, db, x, false, g);
            forall i :: 0 <= i < |ops| ==>
              Mild(ops[i], aim.call, RunOf(aim, db), Bind(aim.cfg, db, aim.call).value.approvalId)
  {
    hide Bind, Apart, Shaped, ScriptOne;
    var ops, run, app := ScriptOne(aim.cfg, db, x, false, g), RunOf(aim, db), Bind(aim.cfg, db, aim.call).value.approvalId;
    ScriptShaped(aim.cfg, db, x, false, g);
    forall i | 0 <= i < |ops| ensures Mild(ops[i], aim.call, run, app) {
      if !ops[i].Use? { ShapedApart(ops[i], x, db.tables.calls[x].runId, aim.call, run, app); }
    }
  }

  // In another run, or on its way with nothing to stop it.
  ghost predicate Harmless(aim: Aim, db: Db, x: string, g: Glance)
    requires aim.call in db.tables.calls
  {
    x in db.tables.calls &&
    (db.tables.calls[x].runId == RunOf(aim, db) ==> OnItsWay(Other(aim, x), db) && Clear(g, aim.dir))
  }

  lemma OtherScript(aim: Aim, db: Db, x: string, g: Glance)
    requires Fine(aim, db) && Bound(aim, db) && x != aim.call && Harmless(aim, db, x, g)
    ensures var ops := ScriptOne(aim.cfg, db, x, false, g);
            Along(aim, db, ops) && AsFine(aim, db, ExecAll(db, ops))
  {
    hide Bind, Mild, ScriptOne, OnItsWay, Reconciled, ExecAll, Along, Clear;
    if db.tables.calls[x].runId == RunOf(aim, db) {
      ReconcilingIsMild(aim, db, x, g, RunOf(aim, db), Bind(aim.cfg, db, aim.call).value.approvalId);
    } else {
      ForeignIsMild(aim, db, x, g);
    }
    MildAlong(aim, db, ScriptOne(aim.cfg, db, x, false, g));
  }

  // ---------- a batch of calls ----------

  ghost predicate GoodCompany(aim: Aim, db: Db, calls: seq<string>, gs: string -> Glance)
    requires aim.call in db.tables.calls
  {
    && (forall i, j :: 0 <= i < j < |calls| ==> calls[i] != calls[j])
    && forall i :: 0 <= i < |calls| ==> Harmless(aim, db, calls[i], gs(calls[i]))
  }

  // A harmless call stays harmless while another harmless one is handled.
  lemma HarmlessStays(aim: Aim, db: Db, x: string, y: string, gs: string -> Glance)
    requires Good(db) && aim.call in db.tables.calls && x != y
    requires Harmless(aim, db, x, gs(x)) && Harmless(aim, db, y, gs(y))
    ensures var db' := ExecAll(db, ScriptOne(aim.cfg, db, y, false, gs(y)));
            aim.call in db'.tables.calls && Harmless(aim, db', x, gs(x))
  {
    hide Good, ScriptOne, OnItsWay, Reconciled, ExecAll, Along, Clear, SameBinding;
    ScriptOneGood(aim.cfg, db, y, false, gs(y));
    var db' := ExecAll(db, ScriptOne(aim.cfg, db, y, false, gs(y)));
    assert SameCall(db.tables.calls[aim.call], db'.tables.calls[aim.call]);
    assert SameCall(db.tables.calls[x], db'.tables.calls[x]);
    if db.tables.calls[x].runId == RunOf(aim, db) {
      FineBound(Other(aim, x), db);
      OtherScript(Other(aim, x), db, y, gs(y));
    }
  }

  lemma CompanyTail(aim: Aim, db: Db, calls: seq<string>, gs: string -> Glance)
    requires Good(db) && aim.call in db.tables.calls && calls != [] && calls[0] in db.tables.calls
    requires GoodCompany(aim, db, calls, gs)
    ensures var db' := ExecAll(db, ScriptOne(aim.cfg, db, calls[0], false, gs(calls[0])));
            aim.call in db'.tables.calls && GoodCompany(aim, db', calls[1..], gs)
  {
    hide Good, ScriptOne, Harmless, ExecAll;
    var db' := ExecAll(db, ScriptOne(aim.cfg, db, calls[0], false, gs(calls[0])));
    ScriptOneGood(aim.cfg, db, calls[0], false, gs(calls[0]));
    forall i | 0 <= i < |calls[1..]| ensures Harmless(aim, db', calls[1..][i], gs(calls[1..][i])) {
      assert calls[1..][i] == calls[i + 1] && Harmless(aim, db, calls[0], gs(calls[0]));
      HarmlessStays(aim, db, calls[i + 1], calls[0], gs);
    }
  }

  lemma IsCall(aim: Aim, db: Db, x: string, g: Glance)
    requires aim.call in db.tables.calls && Harmless(aim, db, x, g)
    ensures x in db.tables.calls
    ensures x == aim.call ==> OnItsWay(aim, db) && Clear(g, aim.dir)
  {
    hide OnItsWay, Clear;
    assert x == aim.call ==> Other(aim, x) == aim;
  }

  lemma Settled(aim: Aim, db: Db)
    requires Fine(aim, db)
    ensures Along(aim, db, []) && ExecAll(db, []) == db
  {
    hide Fine;
  }

  /** A batch of harmless calls keeps the call fine throughout, and leaves it reconciled
      if it was one of the batch or was reconciled before. */
  lemma {:induction false} ManyFine(aim: Aim, db: Db, calls: seq<string>, gs: string -> Glance)
    requires Good(db) && Fine(aim, db) && Bound(aim, db) && GoodCompany(aim, db, calls, gs)
    ensures var ops := ScriptMany(aim.cfg, db, calls, false, gs);
            Along(aim, db, ops) && (aim.call in calls || Reconciled(aim, db) ==> Reconciled(aim, ExecAll(db, ops)))
    decreases calls
  {
    hide Good, ScriptOne, Along, OnItsWay, Reconciled, Bind, Harmless, ExecAll, Clear;
    if calls == [] {
      Settled(aim, db);
    } else {
      var x := calls[0];
      assert Harmless(aim, db, x, gs(x));
      IsCall(aim, db, x, gs(x));
      var one := ScriptOne(aim.cfg, db, x, false, gs(x));
      var db1 := ExecAll(db, one);
      if x == aim.call { OwnScript(aim, db, gs(x)); } else { OtherScript(aim, db, x, gs(x)); }
      FineBound(aim, db);
      FineBound(aim, db1);
      ScriptOneGood(aim.cfg, db, x, false, gs(x));
      CompanyTail(aim, db, calls, gs);
      ManyFine(aim, db1, calls[1..], gs);
      Chain(aim, db, one, ScriptMany(aim.cfg, db1, calls[1..], false, gs));
    }
  }

  // ---------- a whole recovery, and one that is cut ----------

  /** Every interrupted call of the run could be reconciled. */
  ghost predicate Unhindered(aim: Aim, db: Db)
    requires aim.call in db.tables.calls
  {
    forall x :: x in Selection(db) && x in db.tables.calls && db.tables.calls[x].runId == RunOf(aim, db) ==>
      OnItsWay(Other(aim, x), db)
  }

  // The stop is clear and the sandbox as it is whenever a call of the run is handled.
  ghost predicate ClearRun(aim: Aim, db: Db, gs: string -> Glance)
    requires aim.call in db.tables.calls
  {
    forall x :: x in db.tables.calls && db.tables.calls[x].runId == RunOf(aim, db) ==> Clear(gs(x), aim.dir)
  }

  lemma ClearStays(aim: Aim, db: Db, db': Db, gs: string -> Glance)
    requires aim.call in db.tables.calls && ClearRun(aim, db, gs) && Kept(db, db')
    requires db'.tables.calls.Keys == db.tables.calls.Keys
    ensures aim.call in db'.tables.calls && ClearRun(aim, db', gs)
  {
    hide Clear;
    assert SameCall(db.tables.calls[aim.call], db'.tables.calls[aim.call]);
    forall x | x in db'.tables.calls && db'.tables.calls[x].runId == RunOf(aim, db') ensures Clear(gs(x), aim.dir) {
      assert x in db.tables.calls && SameCall(db.tables.calls[x], db'.tables.calls[x]);
    }
  }

  lemma WayIsSelected(aim: Aim, db: Db)
    requires Fine(aim, db)
    ensures OnItsWay(aim, db) <==> aim.call in UncertainCalls(db)
    ensures OnItsWay(aim, db) <==> aim.call in Selection(db)
  {
    hide Bind, Observed, ArtifactMatches, BlockedIn;
  }

  lemma ExpiryKeepsFine(aim: Aim, db: Db, at: Time)
    requires Fine(aim, db)
    ensures Bound(aim, db) && AsFine(aim, db, Exec(db, Expiry(at)).0)
  {
    hide OnItsWay, Reconciled, Exec, Bind, SameView;
    FineBound(aim, db);
    ExpiryView(aim, db, at);
    ViewKeeps(aim, db, Exec(db, Expiry(at)).0);
  }

  lemma ExpirySelects(db: Db, at: Time)
    requires Good(db)
    ensures var db' := Exec(db, Expiry(at)).0;
            && Good(db') && Kept(db, db') && db'.tables.calls == db.tables.calls && Selection(db') <= Selection(db)
  {
    hide Good, Kept, Exec, Selection;
    GoodExec(db, Expiry(at));
    OpUntouched(db, Expiry(at), {});
    SelectionShrinks(db, Exec(db, Expiry(at)).0, {});
  }

  lemma ExpiryUnhindered(aim: Aim, db: Db, at: Time)
    requires Good(db) && aim.call in db.tables.calls && Unhindered(aim, db)
    ensures var db' := Exec(db, Expiry(at)).0; aim.call in db'.tables.calls && Unhindered(aim, db')
  {
    hide Good, Kept, OnItsWay, Exec, Selection, Reconciled, Bind;
    ExpirySelects(db, at);
    var db' := Exec(db, Expiry(at)).0;
    forall x | x in Selection(db') && x in db'.tables.calls && db'.tables.calls[x].runId == RunOf(aim, db')
      ensures OnItsWay(Other(aim, x), db')
    {
      ExpiryKeepsFine(Other(aim, x), db, at);
    }
  }

  lemma UnhinderedCompany(aim: Aim, db: Db, gs: string -> Glance)
    requires aim.call in db.tables.calls && Unhindered(aim, db) && ClearRun(aim, db, gs)
    ensures GoodCompany(aim, db, UncertainCalls(db), gs)
  {
    hide OnItsWay, Clear, Selected, Selection;
    ListedCalls(db);
    var q := UncertainCalls(db);
    forall i | 0 <= i < |q| ensures Harmless(aim, db, q[i], gs(q[i])) { assert q[i] in q; }
  }

  /** One whole recovery: fine after every operation of it, reconciled at the end. */
  lemma RecoveryReconciles(aim: Aim, db: Db, at: Time, gs: string -> Glance)
    requires Good(db) && Fine(aim, db) && Bound(aim, db) && Unhindered(aim, db) && ClearRun(aim, db, gs)
    ensures Along(aim, db, Script(aim.cfg, db, false, at, gs))
    ensures Reconciled(aim, Recover(aim.cfg, db, false, at, gs))
  {
    hide Good, Kept, OnItsWay, Reconciled, Exec, ScriptMany, Along, UncertainCalls, Bind, Unhindered, ClearRun, GoodCompany;
    var expired := Exec(db, Expiry(at)).0;
    ExpirySelects(db, at);
    ExpiryKeepsFine(aim, db, at);
    ExpiryUnhindered(aim, db, at);
    OneAlong(aim, db, Expiry(at));
    ClearStays(aim, db, expired, gs);
    UnhinderedCompany(aim, expired, gs);
    WayIsSelected(aim, expired);
    ManyFine(aim, expired, UncertainCalls(expired), gs);
    Chain(aim, db, [Expiry(at)], ScriptMany(aim.cfg, expired, UncertainCalls(expired), false, gs));
  }

  // After any number of its operations the call is fine.
  lemma CutFine(aim: Aim, db: Db, at: Time, gs: string -> Glance, cut: nat)
    requires Good(db) && Fine(aim, db) && Bound(aim, db) && Unhindered(aim, db) && ClearRun(aim, db, gs)
    requires cut <= |Script(aim.cfg, db, false, at, gs)|
    ensures Fine(aim, ExecAll(db, Script(aim.cfg, db, false, at, gs)[..cut]))
  {
    hide Good, Fine, Exec, Along, Script, ExecAll, Unhindered, ClearRun, Bound;
    RecoveryReconciles(aim, db, at, gs);
    AlongEnd(aim, db, Script(aim.cfg, db, false, at, gs), cut);
  }

  lemma CutKeeps(cfg: Settings, db: Db, at: Time, gs: string -> Glance, cut: nat)
    requires Good(db) && cut <= |Script(cfg, db, false, at, gs)|
    ensures var d := ExecAll(db, Script(cfg, db, false, at, gs)[..cut]);
            Good(d) && Kept(db, d) && d.tables.calls.Keys == db.tables.calls.Keys && Selection(d) <= Selection(db)
  {
    hide Good, Kept, Exec, Script, ExecAll, Selection, TouchesOnly, Completing, CheckedOp;
    var ops := Script(cfg, db, false, at, gs);
    var expired := Exec(db, Expiry(at)).0;
    RecoverySubmitsClientSteps(cfg, db, false, at, gs);
    GoodExecAll(db, ops[..cut]);
    ExpirySelects(db, at);
    OpsUntouched(db, ops[..cut], Selection(expired));
    SelectionShrinks(db, ExecAll(db, ops[..cut]), Selection(expired));
  }

  // A cut leaves the calls of the run fine, so the next recovery is unhindered too.
  lemma CutState(aim: Aim, db: Db, at: Time, gs: string -> Glance, cut: nat)
    requires Good(db) && Fine(aim, db) && Bound(aim, db) && Unhindered(aim, db) && ClearRun(aim, db, gs)
    requires cut <= |Script(aim.cfg, db, false, at, gs)|
    ensures var d := ExecAll(db, Script(aim.cfg, db, false, at, gs)[..cut]);
            Good(d) && Kept(db, d) && Fine(aim, d) && Bound(aim, d) && Unhindered(aim, d)
            && d.tables.calls.Keys == db.tables.calls.Keys
  {
    hide Good, OnItsWay, Reconciled, Script, ExecAll, Selection, Clear, Bind, SameBinding;
    var d := ExecAll(db, Script(aim.cfg, db, false, at, gs)[..cut]);
    CutFine(aim, db, at, gs, cut);
    CutKeeps(aim.cfg, db, at, gs, cut);
    FineBound(aim, d);
    assert SameCall(db.tables.calls[aim.call], d.tables.calls[aim.call]);
    forall x | x in Selection(d) && x in d.tables.calls && d.tables.calls[x].runId == RunOf(aim, d)
      ensures OnItsWay(Other(aim, x), d)
    {
      assert SameCall(db.tables.calls[x], d.tables.calls[x]);
      FineBound(Other(aim, x), db);
      CutFine(Other(aim, x), db, at, gs, cut);
      WayIsSelected(Other(aim, x), d);
    }
  }

  // Consumed exactly once in the whole journal.
  lemma ConsumedOnce(aim: Aim, db: Db)
    requires Good(db) && Reconciled(aim, db)
    ensures Consumptions(db.journal, Bind(aim.cfg, db, aim.call).value.approvalId) == 1
    ensures Claims(db.journal, Bind(aim.cfg, db, aim.call).value.approvalId) == 1
  {
    hide Bind, Observed, ArtifactMatches, BlockedIn, Consumptions, Claims, NoRevival, Named;
    InvReplays(db);
    BindFacts(aim.cfg, db, aim.call);
  }

  lemma CutThenRecovered(aim: Aim, db: Db, at: Time, gs: string -> Glance, cut: nat, again: Time, gs': string -> Glance)
    requires Good(db) && OnItsWay(aim, db) && Unhindered(aim, db) && ClearRun(aim, db, gs) && ClearRun(aim, db, gs')
    requires cut <= |Script(aim.cfg, db, false, at, gs)|
    ensures var d := ExecAll(db, Script(aim.cfg, db, false, at, gs)[..cut]);
            var end := Recover(aim.cfg, d, false, again, gs');
            && Reconciled(aim, end)
            && Consumptions(end.journal, Bind(aim.cfg, end, aim.call).value.approvalId) == 1
  {
    hide Good, OnItsWay, Reconciled, Unhindered, ClearRun, Script, ExecAll, Kept, Bind, Recover;
    var d := ExecAll(db, Script(aim.cfg, db, false, at, gs)[..cut]);
    FineBound(aim, db);
    CutState(aim, db, at, gs, cut);
    ClearStays(aim, db, d, gs');
    RecoveryReconciles(aim, d, again, gs');
    RecoverGood(aim.cfg, d, false, again, gs');
    ConsumedOnce(aim, Recover(aim.cfg, d, false, again, gs'));
  }

  // ---------- a call that cannot be reconciled ----------

  // What the operations of a recovery leave alone: approvals neither gain nor lose a
  // binding, artifacts are only added, and a run stays as it is, is verified, or is taken
  // down.
  ghost predicate Steady(db: Db, db': Db) {
    && db'.tables.approvals.Keys == db.tables.approvals.Keys
    && (forall a :: a in db.tables.approvals ==> SameAuthority(db.tables.approvals[a], db'.tables.approvals[a]))
    && (forall a :: a in db.tables.artifacts ==>
          a in db'.tables.artifacts && db'.tables.artifacts[a] == db.tables.artifacts[a])
    && db'.tables.runs.Keys == db.tables.runs.Keys
    && forall r :: r in db.tables.runs ==> Goes(db.tables.runs[r], db'.tables.runs[r])
  }

  // The only ways recovery changes a run: BLOCKED for owner review from wherever that is
  // legal, FAILED from RECEIVED, and VERIFYING from EXECUTING.
  predicate Goes(row: RunRow, row': RunRow) {
    || row' == row
    || (row.state == Executing && row'.state == Verifying)
    || (row.state in {Triaged, Planning, AwaitingApproval, Executing, Verifying} && TakenDown(row', Blocked))
    || (row.state == Received && TakenDown(row', Failed))
  }

  predicate TakenDown(row: RunRow, state: RunState) { row.state == state && row.leaseExpiresAt == None }

  predicate Active(row: RunRow) { row.state in {Executing, Verifying} }

  predicate SameAuthority(row: ApprovalRow, row': ApprovalRow) {
    SameBinding(row, row') && row'.action == row.action &&
    (row'.status in {Claimed, Consumed} ==> row.status in {Claimed, Consumed})
  }

  lemma SteadyTransitive(a: Db, b: Db, c: Db)
    requires Steady(a, b) && Steady(b, c)
    ensures Steady(a, c)
  {
    forall id | id in a.tables.approvals ensures SameAuthority(a.tables.approvals[id], c.tables.approvals[id]) {
      assert SameAuthority(a.tables.approvals[id], b.tables.approvals[id]);
      assert SameAuthority(b.tables.approvals[id], c.tables.approvals[id]);
    }
  }

  lemma {:induction false} ExpiriesSteady(db: Db, drafts: seq<Draft>)
    requires AppendAll(db, drafts).Some?
    requires forall i :: 0 <= i < |drafts| ==> drafts[i].payload.ApprovalExpired?
    ensures Steady(db, AppendAll(db, drafts).value)
    decreases drafts
  {
    hide Steady;
    if drafts == [] {
      SteadyItself(db);
    } else {
      var next := Append(db, drafts[0]).value;
      ExpirySteady(db, drafts[0]);
      ExpiriesSteady(next, drafts[1..]);
      SteadyTransitive(db, next, AppendAll(db, drafts).value);
    }
  }

  lemma SteadyItself(db: Db)
    ensures Steady(db, db)
  {
  }

  lemma ExpirySteady(db: Db, d: Draft)
    requires d.payload.ApprovalExpired? && Append(db, d).Some?
    ensures Steady(db, Append(db, d).value)
  {
    ExpiryNeedsLive(db, d);
  }

  lemma UseSteady(db: Db, op: Op)
    requires op.Use? && Exec(db, op).0 != db
    ensures Steady(db, Exec(db, op).0)
  {
    hide Exec;
    UseCommitted(db, op);
    var row := DoUse(db, op);
  }

  lemma MoveSteady(db: Db, op: Op)
    requires op.MoveRun? && CheckedOp(op) && OwnMove(op) && Exec(db, op).0 != db
    ensures Steady(db, Exec(db, op).0)
  {
    hide Exec;
    MoveCommitted(db, op);
  }

  lemma CallSteady(db: Db, op: Op)
    requires op.CallStep?
    ensures Steady(db, Exec(db, op).0)
  {
    hide CancelRun, Claim, Approve, RequestApproval, ExpireDue, Transition, Rebuild, Consume, Deny, CancelApproval,
         ApplyRun, ApplyApproval, ApplyBudget, ApplyWorkItem, ApplyMessage;
  }

  lemma NoteSteady(db: Db, op: Op)
    requires op.Record? && (op.draft.payload.RecoveryBlocked? || op.draft.payload.ArtifactRecorded?)
    ensures Steady(db, Exec(db, op).0)
  {
    hide CancelRun, Claim, Approve, RequestApproval, ExpireDue, Transition, Rebuild, Consume, Deny, CancelApproval,
         ApplyRun, ApplyApproval, ApplyBudget, ApplyWorkItem, ApplyMessage;
  }

  lemma OpSteady(db: Db, op: Op, s: set<string>)
    requires TouchesOnly(op, s)
    ensures Steady(db, Exec(db, op).0)
  {
    if Exec(db, op).0 == db {
      SteadyItself(db);
    } else if op.Expiry? {
      var drafts := Expiries(db.tables, DueIds(db.tables, op.at), op.at);
      ExpiriesSteady(db, drafts) by { hide Steady; }
    } else if op.Use? {
      UseCommitted(db, op);
      UseSteady(db, op);
    } else if op.MoveRun? {
      MoveSteady(db, op);
    } else if op.CallStep? {
      CallSteady(db, op);
    } else {
      NoteSteady(db, op);
    }
  }

  lemma {:induction false} OpsSteady(db: Db, ops: seq<Op>, s: set<string>)
    requires AllTouchOnly(ops, s)
    ensures Steady(db, ExecAll(db, ops))
    decreases ops
  {
    hide TouchesOnly, Exec, Steady;
    if ops == [] {
      SteadyItself(db);
    } else {
      assert TouchesOnly(ops[0], s);
      OpSteady(db, ops[0], s);
      assert AllTouchOnly(ops[1..], s);
      OpsSteady(Exec(db, ops[0]).0, ops[1..], s);
      SteadyTransitive(db, Exec(db, ops[0]).0, ExecAll(db, ops));
    }
  }

  // Interrupted, and without an active run, its authority, its exact file or its own
  // artifact.
  ghost predicate Hopeless(aim: Aim, db: Db) {
    && aim.call in db.tables.calls && Interrupted(db.tables.calls[aim.call])
    && var b := Bind(aim.cfg, db, aim.call);
       RunOf(aim, db) !in db.tables.runs || !Active(db.tables.runs[RunOf(aim, db)]) ||
       b.None? || !Observed(aim.dir, b.value) ||
       (ArtifactId(aim.call) in db.tables.artifacts &&
        !ArtifactMatches(aim.cfg, db.tables.artifacts[ArtifactId(aim.call)], aim.call, RunOf(aim, db), b.value))
  }

  lemma SteadyBind(cfg: Settings, db: Db, db': Db, c: string)
    requires c in db.tables.calls && c in db'.tables.calls && db'.tables.calls[c] == db.tables.calls[c] && Steady(db, db')
    ensures Bind(cfg, db', c) == Bind(cfg, db, c)
  {
    hide ValidAction, RecoverableWrite, PostconditionBound;
    var id := db.tables.calls[c].approvalId;
    if id.Some? && id.value in db.tables.approvals {
      assert SameAuthority(db.tables.approvals[id.value], db'.tables.approvals[id.value]);
    }
  }

  lemma StillHopeless(aim: Aim, db: Db, db': Db)
    requires Hopeless(aim, db) && Steady(db, db')
    requires aim.call in db'.tables.calls && db'.tables.calls[aim.call] == db.tables.calls[aim.call]
    ensures Hopeless(aim, db')
  {
    hide Bind, Observed, ArtifactMatches;
    SteadyBind(aim.cfg, db, db', aim.call);
  }

  lemma StuckIsHopeless(aim: Aim, db: Db)
    requires Selected(db, aim.call) && !OnItsWay(aim, db)
    ensures Hopeless(aim, db)
  {
    hide Bind, Observed, ArtifactMatches, BlockedIn;
  }

  // ---------- ... takes its run down ----------

  lemma {:induction false} RunsKept(db: Db, ops: seq<Op>)
    requires forall i :: 0 <= i < |ops| ==> ops[i].CallStep? || ops[i].Use?
    ensures ExecAll(db, ops).tables.runs == db.tables.runs
    decreases ops
  {
    if ops != [] { RunsKept(Exec(db, ops[0]).0, ops[1..]); }
  }

  // The block that was planned on an earlier database, while the runs were the same.
  lemma BlockEnds(db0: Db, db: Db, x: string, why: string, g: Glance)
    requires x in db0.tables.calls && CallRun(db0, x) != "" && db.tables.runs == db0.tables.runs
    requires CallRun(db0, x) in db.tables.runs
    ensures var run, end := CallRun(db0, x), ExecAll(db, BlockOps(db0, x, why, g));
            run in end.tables.runs && end.tables.runs[run].state in TERMINAL
  {
    hide Exec;
    var run, block := db0.tables.calls[x].runId, BlockOps(db0, x, why, g);
    var noted := Exec(db, block[0]).0;
    DoNote(db, block[0].draft);
    if |block| == 2 {
      assert block[1..] == [block[1]];
      ExecOne(noted, block[1]);
      var row := DoMove(noted, run, BlockTarget(db.tables.runs[run].state), None, g.now(6));
    } else {
      assert block[1..] == [];
    }
  }

  // What precedes the block of a hopeless call changes no run.
  lemma HopelessBlocks(aim: Aim, db: Db, g: Glance) returns (before: seq<Op>, why: string)
    requires Hopeless(aim, db) && Clear(g, aim.dir)
    ensures ScriptOne(aim.cfg, db, aim.call, false, g) == before + BlockOps(db, aim.call, why, g)
    ensures forall i :: 0 <= i < |before| ==> before[i].CallStep? || before[i].Use?
  {
    hide Bind, BlockOps, ArtifactMatches, ExecAll;
    var mark, obstacle := MarkOps(db, aim.call, g), Obstacle(aim.cfg, db, aim.call, false, g);
    if obstacle.Some? {
      before, why := mark, obstacle.value;
    } else {
      before, why := mark + SpendOps(db, Bind(aim.cfg, db, aim.call).value, g), INVALID;
    }
  }

  lemma HopelessScript(aim: Aim, db: Db, g: Glance)
    requires Good(db) && Hopeless(aim, db) && Clear(g, aim.dir) && RunOf(aim, db) in db.tables.runs
    ensures var run, end := RunOf(aim, db), ExecAll(db, ScriptOne(aim.cfg, db, aim.call, false, g));
            run in end.tables.runs && end.tables.runs[run].state in TERMINAL
  {
    hide Good, Exec, Bind, BlockOps, ScriptOne, Clear, Observed, ArtifactMatches;
    var before, why := HopelessBlocks(aim, db, g);
    NameKept(db, aim.call);
    ExecAllConcat(db, before, BlockOps(db, aim.call, why, g));
    RunsKept(db, before);
    BlockEnds(db, ExecAll(db, before), aim.call, why, g);
  }

  lemma {:induction false} ManyHopeless(aim: Aim, db: Db, calls: seq<string>, gs: string -> Glance)
    requires Good(db) && Listed(db, calls) && aim.call in calls && Hopeless(aim, db) && Clear(gs(aim.call), aim.dir)
    requires RunOf(aim, db) in db.tables.runs
    ensures var run, end := RunOf(aim, db), ExecAll(db, ScriptMany(aim.cfg, db, calls, false, gs));
            run in end.tables.runs && end.tables.runs[run].state in TERMINAL
    decreases calls
  {
    hide Good, Kept, Bind, ScriptOne, Clear, Observed, ArtifactMatches, TouchesOnly, AllTouchOnly, ExecAll, Hopeless,
         Listed;
    assert calls != [] && calls[0] in db.tables.calls by { ListedHead(db, calls); }
    var x := calls[0];
    var one := ScriptOne(aim.cfg, db, x, false, gs(x));
    var db1, rest := ExecAll(db, one), calls[1..];
    var more := ScriptMany(aim.cfg, db1, rest, false, gs);
    ExecAllConcat(db, one, more);
    if x == aim.call {
      HopelessScript(aim, db, gs(x));
      ManyTouch(aim.cfg, db1, rest, false, gs, set y | y in rest);
      OpsSteady(db1, more, set y | y in rest);
    } else {
      ScriptOneGood(aim.cfg, db, x, false, gs(x));
      ScriptShaped(aim.cfg, db, x, false, gs(x)) by { hide AllShaped; }
      ShapedTouches(one, x, db.tables.calls[x].runId, {x});
      OpsUntouched(db, one, {x});
      OpsSteady(db, one, {x});
      HopelessCall(aim, db);
      StillHopeless(aim, db, db1);
      ListedTail(db, db1, calls);
      ManyHopeless(aim, db1, rest, gs);
    }
  }

  lemma HopelessCall(aim: Aim, db: Db)
    requires Hopeless(aim, db)
    ensures aim.call in db.tables.calls
  {
  }

  lemma ListedHead(db: Db, calls: seq<string>)
    requires Listed(db, calls) && calls != []
    ensures calls[0] in db.tables.calls
  {
  }

  // ---------- exactly when ----------

  lemma {:induction false} ExpiriesBlockNone(db: Db, drafts: seq<Draft>, x: string)
    requires AppendAll(db, drafts).Some?
    requires forall i :: 0 <= i < |drafts| ==> drafts[i].payload.ApprovalExpired?
    ensures BlockedIn(AppendAll(db, drafts).value.journal, x) ==> BlockedIn(db.journal, x)
    decreases drafts
  {
    hide BlockedIn;
    if drafts != [] {
      var next := Append(db, drafts[0]).value;
      BlockedSnoc(db.journal, NextEvent(db.journal, drafts[0]), x);
      ExpiriesBlockNone(next, drafts[1..], x);
    }
  }

  lemma StillSelected(db: Db, at: Time, x: string)
    requires Good(db) && Selected(db, x)
    ensures Selected(Exec(db, Expiry(at)).0, x)
  {
    hide Good, BlockedIn;
    ExpirySelects(db, at) by { hide Selection; }
    var drafts := Expiries(db.tables, DueIds(db.tables, at), at);
    if AppendAll(db, drafts).Some? { ExpiriesBlockNone(db, drafts, x); }
  }

  lemma RecoverIs(cfg: Settings, db: Db, at: Time, gs: string -> Glance)
    ensures var expired := Exec(db, Expiry(at)).0;
            Recover(cfg, db, false, at, gs) ==
            ExecAll(expired, ScriptMany(cfg, expired, UncertainCalls(expired), false, gs))
  {
    hide Exec, ScriptMany, UncertainCalls;
    var expired := Exec(db, Expiry(at)).0;
    ExecAllConcat(db, [Expiry(at)], ScriptMany(cfg, expired, UncertainCalls(expired), false, gs));
    ExecOne(db, Expiry(at));
  }

  lemma TerminalIsNotReconciled(aim: Aim, db: Db, db': Db)
    requires aim.call in db.tables.calls && Kept(db, db')
    requires RunOf(aim, db) in db'.tables.runs && db'.tables.runs[RunOf(aim, db)].state in TERMINAL
    ensures !Reconciled(aim, db')
  {
    hide Bind, BlockedIn, ArtifactMatches, SameBinding;
    assert SameCall(db.tables.calls[aim.call], db'.tables.calls[aim.call]);
  }

  // One whole recovery takes the run of a hopeless call down.
  lemma HopelessEnds(aim: Aim, db: Db, at: Time, gs: string -> Glance)
    requires Good(db) && Selected(db, aim.call) && !OnItsWay(aim, db) && Clear(gs(aim.call), aim.dir)
    requires RunOf(aim, db) in db.tables.runs
    ensures var run, end := RunOf(aim, db), Recover(aim.cfg, db, false, at, gs);
            run in end.tables.runs && end.tables.runs[run].state in TERMINAL
  {
    hide Good, OnItsWay, Bind, Exec, ExecAll, ScriptMany, Clear, Hopeless, UncertainCalls, SameBinding, BlockedIn,
         SameAuthority, Recover;
    var expired := Exec(db, Expiry(at)).0;
    StuckIsHopeless(aim, db);
    ExpirySelects(db, at);
    StillSelected(db, at, aim.call);
    OpSteady(db, Expiry(at), {});
    StillHopeless(aim, db, expired);
    ListedCalls(expired);
    ManyHopeless(aim, expired, UncertainCalls(expired), gs);
    RecoverIs(aim.cfg, db, at, gs);
  }

  lemma HinderedFails(aim: Aim, db: Db, x: string, at: Time, gs: string -> Glance)
    requires Good(db) && OnItsWay(aim, db) && ClearRun(aim, db, gs)
    requires x in Selection(db) && x in db.tables.calls && CallRun(db, x) == RunOf(aim, db)
    requires !OnItsWay(Other(aim, x), db)
    ensures !Reconciled(aim, Recover(aim.cfg, db, false, at, gs))
  {
    hide Good, Bind, Clear, Observed, ArtifactMatches, BlockedIn, Recover, SameBinding;
    HopelessEnds(Other(aim, x), db, at, gs);
    RecoverGood(aim.cfg, db, false, at, gs);
    TerminalIsNotReconciled(aim, db, Recover(aim.cfg, db, false, at, gs));
  }

  /** Crash-restart idempotence, exactly.  Take an interrupted call with all its authority
      and its exact file at link count one, while the stop is clear.  Recovery reconciles
      it if and only if every interrupted call of the same run could be reconciled too.
      In that case a recovery cut between any two of its journal appends and run again
      leaves what the uninterrupted one leaves: the call SUCCEEDED, its approval CONSUMED
      exactly once, its one recovery artifact, its run VERIFYING. */
  lemma CrashRestartIsIdempotent(aim: Aim, db: Db, at: Time, gs: string -> Glance, cut: nat,
                                 again: Time, gs': string -> Glance)
    requires Good(db) && OnItsWay(aim, db) && ClearRun(aim, db, gs) && ClearRun(aim, db, gs')
    requires cut <= |Script(aim.cfg, db, false, at, gs)|
    ensures Reconciled(aim, Recover(aim.cfg, db, false, at, gs)) <==> Unhindered(aim, db)
    ensures var d := ExecAll(db, Script(aim.cfg, db, false, at, gs)[..cut]);
            var end := Recover(aim.cfg, d, false, again, gs');
            Unhindered(aim, db) ==>
              && Reconciled(aim, end)
              && Consumptions(end.journal, Bind(aim.cfg, end, aim.call).value.approvalId) == 1
  {
    hide Good, OnItsWay, Reconciled, ClearRun, Script, ExecAll, Recover, Selection;
    FineBound(aim, db);
    if Unhindered(aim, db) {
      RecoveryReconciles(aim, db, at, gs);
      CutThenRecovered(aim, db, at, gs, cut, again, gs');
    } else {
      var x :| x in Selection(db) && x in db.tables.calls && db.tables.calls[x].runId == RunOf(aim, db) &&
               !OnItsWay(Other(aim, x), db);
      HinderedFails(aim, db, x, at, gs);
    }
  }
}
