/** The recovery service itself: a loop over the interrupted calls that reads and writes
    the store step by step, proved to submit exactly the operations of Recovery.Script. */
module RecoveryService {
  import opened Domain
  import opened Files
  import opened Projections
  import opened Repositories
  import opened Growth
  import opened Recovery
  import opened Restart
  import opened Store
  import Authority
  import Histories

  datatype Item = Item(callId: string, runId: string, reconciled: bool, reason: string)

  // The binding does not change while a call is marked uncertain.
  lemma MarkedBind(cfg: Settings, db: Db, db': Db, x: string)
    requires x in db.tables.calls && x in db'.tables.calls && SameCall(db.tables.calls[x], db'.tables.calls[x])
    requires db'.tables.approvals == db.tables.approvals
    ensures Bind(cfg, db', x) == Bind(cfg, db, x)
  {
    hide HoldsAuthority, DurableBindingsAgree, RecoverableWrite, PostconditionBound;
    SameDurableBindings(cfg, db.tables.calls[x], db'.tables.calls[x]);
  }

  lemma SameDurableBindings(cfg: Settings, call: CallRow, call': CallRow)
    requires SameCall(call, call')
    ensures forall row, a :: DurableBindingsAgree(cfg, call, row, a) <==> DurableBindingsAgree(cfg, call', row, a)
  {
  }

  // One event blocks the call with its reason; at most one more moves the run.
  predicate BlockNoted(j: seq<Event>, j': seq<Event>, x: string, why: string) {
    && j <= j' && |j| < |j'| <= |j| + 2 && j'[|j|].payload == RecoveryBlocked(x, why)
    && (|j'| == |j| + 2 ==> j'[|j| + 1].payload.RunStateChanged?)
  }

  // The run alone changed: for review where BLOCKED is legal, failed from RECEIVED.
  predicate RunSetAside(runs: map<string, RunRow>, runs': map<string, RunRow>, run: string) {
    && runs'.Keys == runs.Keys && (forall r :: r in runs && r != run ==> runs'[r] == runs[r])
    && (run in runs ==>
          var was, row := runs[run], runs'[run];
          && (was.state in {Triaged, Planning, AwaitingApproval, Executing, Verifying} ==>
                row.state == Blocked && row.leaseExpiresAt == None)
          && (was.state == Received ==> row.state == Failed && row.leaseExpiresAt == None)
          && (was.state in {Completed, Failed, Blocked, Cancelled} ==> row == was))
  }

  lemma TargetIs(s: RunState)
    requires s !in TERMINAL
    ensures BlockTarget(s) == if s == Received then Failed else Blocked
  {
  }

  lemma SetAside(runs: map<string, RunRow>, run: string, row: RunRow)
    requires run in runs && runs[run].state !in TERMINAL
    requires row.state == BlockTarget(runs[run].state) && row.leaseExpiresAt == None
    ensures RunSetAside(runs, runs[run := row], run)
  {
    TargetIs(runs[run].state);
  }

  lemma LeftAside(runs: map<string, RunRow>, run: string)
    requires run in runs ==> runs[run].state in TERMINAL
    ensures RunSetAside(runs, runs, run)
  {
  }

  lemma BlockMeans(db: Db, x: string, why: string, g: Glance)
    requires x in db.tables.calls && CallRun(db, x) != ""
    ensures var end := ExecAll(db, BlockOps(db, x, why, g));
            && BlockNoted(db.journal, end.journal, x, why) && end.tables == db.tables.(runs := end.tables.runs)
            && RunSetAside(db.tables.runs, end.tables.runs, CallRun(db, x))
  {
    hide Exec, BlockTarget, RunSetAside;
    var run, block := CallRun(db, x), BlockOps(db, x, why, g);
    var noted := Exec(db, block[0]).0;
    DoNote(db, block[0].draft);
    if |block| == 2 {
      assert block[1..] == [block[1]];
      ExecOne(noted, block[1]);
      var row := DoMove(noted, run, BlockTarget(db.tables.runs[run].state), None, g.now(6));
      SetAside(db.tables.runs, run, row);
    } else {
      assert block[1..] == [];
      LeftAside(db.tables.runs, run);
    }
  }

  // The approval is consumed, and nothing else changed; nothing at all if it was before.
  predicate Used(db: Db, db': Db, id: string) {
    && id in db.tables.approvals && id in db'.tables.approvals && db'.tables.approvals[id].status == Consumed
    && db'.tables == db.tables.(approvals := db.tables.approvals[id := db'.tables.approvals[id]])
    && (db.tables.approvals[id].status == Consumed ==> db' == db)
  }

  lemma SpendMeans(cfg: Settings, db: Db, x: string, b: Binding, g: Glance)
    requires x in db.tables.calls && Bind(cfg, db, x) == Some(b)
    ensures Used(db, ExecAll(db, SpendOps(db, b, g)), b.approvalId)
  {
    hide Exec, Bind;
    BindFacts(cfg, db, x);
    if db.tables.approvals[b.approvalId].status == Claimed {
      var op := SpendOps(db, b, g)[0];
      var row := DoUse(db, op);
      ExecOne(db, op);
    }
  }

  // What the reason given for a call says of the database and the sandbox: the stop was
  // set, the authority is whole but the run cannot go on, or it can and the file is not
  // there exactly as bound.
  predicate Because(cfg: Settings, db: Db, x: string, emergency: bool, g: Glance, reason: string)
    requires x in db.tables.calls
  {
    var b, runs, run := Bind(cfg, db, x), db.tables.runs, CallRun(db, x);
    var whole := !emergency && b.Some? && run in runs;
    && (reason == "emergency_stop_active" <==> emergency)
    && (reason == "run_not_recoverable" <==> whole && runs[run].state !in {Executing, Verifying})
    && (reason == "exact_postcondition_mismatch" <==>
          whole && runs[run].state in {Executing, Verifying} && !g.stopped(0) && !g.stopped(1) &&
          Readable(g.dir, b.value.path) != Some(b.value.content))
  }

  lemma ReasonsDiffer()
    ensures |"emergency_stop_active"| == 21 && |"run_not_recoverable"| == 19 && |"exact_postcondition_mismatch"| == 28
    ensures |INVALID| == 37 && |"exact_persisted_postcondition_observed"| == 38
  {
  }

  lemma BecauseOf(cfg: Settings, db: Db, x: string, emergency: bool, g: Glance)
    requires x in db.tables.calls
    ensures var why := Obstacle(cfg, db, x, emergency, g);
            && (why.Some? ==> Because(cfg, db, x, emergency, g, why.value))
            && (why.Some? ==> why.value != "exact_persisted_postcondition_observed")
            && (why.None? ==> Because(cfg, db, x, emergency, g, INVALID))
            && (why.None? ==> Because(cfg, db, x, emergency, g, "exact_persisted_postcondition_observed"))
  {
    hide Bind, Readable;
    ReasonsDiffer();
  }

  class Service {
    const cfg: Settings
    const store: Database

    constructor (c: Settings, s: Database)
      ensures cfg == c && store == s
    {
      cfg, store := c, s;
    }

    // A RUNNING call is made UNCERTAIN before anything is observed.
    method Mark(x: string, g: Glance)
      requires Good(store.Value()) && x in store.calls
      modifies store
      ensures store.Value() == ExecAll(old(store.Value()), MarkOps(old(store.Value()), x, g))
      ensures x in store.calls && SameCall(old(store.calls[x]), store.calls[x])
      ensures store.TablesNow() == old(store.TablesNow()).(calls := store.calls)
      ensures old(store.calls[x]).state.state != Running ==> store.Value() == old(store.Value())
      ensures old(store.calls[x]).state.state == Running ==>
                && store.calls == old(store.calls)[x := store.calls[x]]
                && store.calls[x].state == CallText(Uncertain, false) && store.calls[x].result == None
                && store.calls[x].error == Some("process ended before a durable tool result")
      ensures Good(store.Value())
    {
      ghost var db := store.Value();
      hide Good, Exec;
      if store.calls[x].state.state == Running {
        ghost var op := MarkOps(db, x, g)[0];
        NameKept(db, x);
        Authority.ChangeCallMeans(db, x, ACTOR, CallText(Uncertain, false), None, op.error, g.now(0)) by {
          hide ChangeCallState;
        }
        ghost var row := DoCall(db, op);
        ExecOne(db, op);
        GoodExec(db, op);
        var reply := store.ChangeCallStateNow(x, ACTOR, CallText(Uncertain, false), None,
                                              Some("process ended before a durable tool result"), g.now(0));
        assert (store.Value(), reply) == Exec(db, op) by { CallStepIs(db, op); }
      }
    }

    /** _block: one RecoveryBlocked event for the call and its reason, and then the run,
        without a lease: in BLOCKED for its owner to review from wherever that is legal, in
        FAILED from RECEIVED.  A run that is over stays as it is, and nothing else changes. */
    method Block(x: string, why: string, g: Glance)
      requires Good(store.Value()) && x in store.calls
      modifies store
      ensures store.Value() == ExecAll(old(store.Value()), BlockOps(old(store.Value()), x, why, g))
      ensures Good(store.Value()) && BlockedIn(store.journal, x) && store.calls == old(store.calls)
      ensures BlockNoted(old(store.journal), store.journal, x, why)
      ensures store.TablesNow() == old(store.TablesNow()).(runs := store.runs)
      ensures RunSetAside(old(store.runs), store.runs, CallRun(old(store.Value()), x))
    {
      ghost var db := store.Value();
      hide Good, Exec, BlockedIn, BlockNoted, RunSetAside;
      var run := store.calls[x].runId;
      NameKept(db, x);
      BlockMeans(db, x, why, g);
      var d := Draft(run, ACTOR, g.now(5), RecoveryBlocked(x, why));
      DoNote(db, d);
      GoodExec(db, Record(d));
      var reply := store.Submit(d);
      assert (store.Value(), reply) == Exec(db, Record(d)) by { RecordIs(db, d); }
      ghost var noted := store.Value();
      BlockedAt(noted.journal, x, |db.journal|);
      ExecOne(db, Record(d));
      if run in store.runs && store.runs[run].state !in TERMINAL {
        var row := store.runs[run];
        var target := if CanTransition(row.state, Blocked) then Blocked else Failed;
        ghost var op := MoveOp(noted, run, target, None, g.now(6));
        ghost var moved := DoMove(noted, run, target, None, g.now(6));
        MoveChecked(noted, op);
        GoodExec(noted, op);
        reply := store.TransitionRun(run, target, ACTOR, Some(row.state), Some(row.version), None, None, g.now(6));
        assert (store.Value(), reply) == Exec(noted, op) by { MoveIs(noted, op); }
        BlockedGrows(noted.journal, store.journal, x);
        ExecTwo(db, Record(d), op);
      }
    }

    // The approval is consumed unless an earlier recovery already did.
    method Spend(x: string, b: Binding, g: Glance)
      requires Good(store.Value()) && x in store.calls && Bind(cfg, store.Value(), x) == Some(b)
      modifies store
      ensures store.Value() == ExecAll(old(store.Value()), SpendOps(old(store.Value()), b, g))
      ensures store.TablesNow() == old(store.TablesNow()).(approvals := store.approvals)
      ensures Used(old(store.Value()), store.Value(), b.approvalId)
      ensures Good(store.Value())
    {
      ghost var db := store.Value();
      hide Good, Exec, Bind, Used;
      BindFacts(cfg, db, x);
      SpendMeans(cfg, db, x, b, g);
      if store.approvals[b.approvalId].status == Claimed {
        ghost var op := SpendOps(db, b, g)[0];
        ExecOne(db, op);
        GoodExec(db, op);
        var reply := store.ConsumeNow(b.approvalId, b.claimedBy, g.now(1));
        assert (store.Value(), reply) == Exec(db, op) by { UseIs(db, op); }
      }
    }

    // An unverified record of the bound file, for the call and its run.
    predicate Witnesses(row: ArtifactRow, x: string, run: string, b: Binding) {
      && row.runId == run && row.artifact.toolCallId == Some(x) && row.artifact.kind == "sandbox_text"
      && row.artifact.locator == "sandbox/" + b.path && row.artifact.digest == cfg.hash(b.content)
      && row.artifact.byteLength == |b.content| && row.artifact.verification == "UNVERIFIED"
    }

    // The artifact is recorded once; an existing one must be the same.
    method StoreArtifact(x: string, b: Binding, g: Glance) returns (ok: bool)
      requires Good(store.Value()) && x in store.calls
      modifies store
      ensures ok <==> !Conflicts(cfg, old(store.Value()), x, b)
      ensures !ok ==> store.Value() == old(store.Value())
      ensures ok ==> store.Value() == ExecAll(old(store.Value()), StoreOps(cfg, old(store.Value()), x, b, g))
      ensures store.TablesNow() == old(store.TablesNow()).(artifacts := store.artifacts)
      ensures ArtifactId(x) in old(store.artifacts) ==>
                && store.Value() == old(store.Value())
                && var row := old(store.artifacts)[ArtifactId(x)];
                   (ok <==> row.runId == old(store.calls[x]).runId && row.artifact.toolCallId == Some(x) &&
                            row.artifact.digest == cfg.hash(b.content) && row.artifact.byteLength == |b.content|)
      ensures ArtifactId(x) !in old(store.artifacts) ==>
                && ok && ArtifactId(x) in store.artifacts
                && store.artifacts == old(store.artifacts)[ArtifactId(x) := store.artifacts[ArtifactId(x)]]
                && Witnesses(store.artifacts[ArtifactId(x)], x, old(store.calls[x]).runId, b)
      ensures Good(store.Value())
    {
      ghost var db := store.Value();
      hide Good, Exec;
      var id, run := ArtifactId(x), store.calls[x].runId;
      NameKept(db, x);
      if id in store.artifacts {
        ok := ArtifactMatches(cfg, store.artifacts[id], x, run, b);
      } else {
        var d := Draft(run, ACTOR, g.now(2), ArtifactRecorded(id, ArtifactOf(cfg, x, b)));
        ghost var row := DoArtifact(db, d);
        ExecOne(db, Record(d));
        GoodExec(db, Record(d));
        var reply := store.Submit(d);
        assert (store.Value(), reply) == Exec(db, Record(d)) by { RecordIs(db, d); }
        ok := true;
      }
    }

    // EXECUTING goes to VERIFYING; the stop latch is read just before.
    method Advance(run: string, g: Glance) returns (ok: bool)
      requires Good(store.Value()) && run != "" && run in store.runs
      modifies store
      ensures ok <==> !(old(store.runs[run].state) == Executing && g.stopped(2))
      ensures !ok ==> store.Value() == old(store.Value())
      ensures ok ==> store.Value() == ExecAll(old(store.Value()), AdvanceOps(cfg, old(store.Value()), run, g))
      ensures store.TablesNow() == old(store.TablesNow()).(runs := store.runs)
      ensures ok ==> run in store.runs && SameAdvance(old(store.runs[run]), store.runs[run])
      ensures Good(store.Value())
    {
      ghost var db := store.Value();
      hide Good, Exec;
      ok := true;
      if store.runs[run].state == Executing {
        if g.stopped(2) { return false; }
        var row := store.runs[run];
        var lease := Some(g.now(7) + cfg.leaseTime);
        ghost var op := AdvanceOps(cfg, db, run, g)[0];
        ghost var moved := DoMove(db, run, Verifying, lease, g.now(3));
        ExecOne(db, op);
        GoodExec(db, op);
        var reply := store.TransitionRun(run, Verifying, ACTOR, Some(row.state), Some(row.version), None, lease, g.now(3));
        assert (store.Value(), reply) == Exec(db, op) by { MoveIs(db, op); }
      }
    }

    method SpendAndStore(x: string, b: Binding, g: Glance) returns (ok: bool)
      requires Good(store.Value()) && x in store.calls && Bind(cfg, store.Value(), x) == Some(b)
      modifies store
      ensures Good(store.Value())
      ensures ok <==> !Conflicts(cfg, old(store.Value()), x, b)
      ensures !ok ==> store.Value() == ExecAll(old(store.Value()), SpendOps(old(store.Value()), b, g))
      ensures ok ==> store.Value() == ExecAll(old(store.Value()), SpendOps(old(store.Value()), b, g) +
                                                                  StoreOps(cfg, old(store.Value()), x, b, g))
      ensures store.runs == old(store.runs) && store.calls == old(store.calls)
    {
      ghost var v0 := store.Value();
      hide Good, Exec, ExecAll, Bind, SpendOps, StoreOps, Conflicts;
      Spend(x, b, g);
      ghost var v1 := store.Value();
      SameStoreOps(cfg, v0, v1, x, b, g);
      SameConflict(cfg, v0, v1, x, b);
      ok := StoreArtifact(x, b, g);
      ExecAllConcat(v0, SpendOps(v0, b, g), StoreOps(cfg, v0, x, b, g));
    }

    // 0: raised before the run was moved, 1: raised after, 2: SUCCEEDED
    method AdvanceAndFinish(x: string, b: Binding, g: Glance) returns (stage: nat)
      requires Good(store.Value()) && x in store.calls
      requires store.calls[x].runId in store.runs && store.runs[store.calls[x].runId].state in {Executing, Verifying}
      modifies store
      ensures Good(store.Value()) && x in store.calls && stage <= 2
      ensures stage == 0 <==> StopsAdvance(old(store.Value()), x, g)
      ensures stage != 0 ==> (stage == 1 <==> g.stopped(3))
      ensures var v0 := old(store.Value()); var advance := AdvanceOps(cfg, v0, old(store.calls[x].runId), g);
              store.Value() == (if stage == 0 then v0 else if stage == 1 then ExecAll(v0, advance)
                                else ExecAll(v0, advance + FinishOps(cfg, x, b, g)))
      ensures stage == 2 ==> store.calls[x].state == CallText(Succeeded, false)
    {
      ghost var v0 := store.Value();
      hide Good, Exec, ExecAll, AdvanceOps, FinishOps;
      var run := store.calls[x].runId;
      NameKept(v0, x);
      var ok := Advance(run, g);
      if !ok { return 0; }
      if g.stopped(3) { return 1; }
      Finish(x, b, g);
      ExecAllConcat(v0, AdvanceOps(cfg, v0, run, g), FinishOps(cfg, x, b, g));
      return 2;
    }

    // The second half, from the database v2 that the first half left.
    method AdvanceOrRaise(x: string, b: Binding, g: Glance, ghost v0: Db) returns (ok: bool, ghost more: seq<Op>)
      requires Good(store.Value()) && x in store.calls
      requires store.calls[x].runId in store.runs && store.runs[store.calls[x].runId].state in {Executing, Verifying}
      requires v0.tables.calls == store.calls && v0.tables.runs == store.runs
      modifies store
      ensures Good(store.Value()) && x in store.calls
      ensures store.Value() == ExecAll(old(store.Value()), more)
      ensures more + (if ok then [] else BlockOps(store.Value(), x, INVALID, g)) == RunHalf(cfg, v0, x, b, g)
      ensures ok ==> store.calls[x].state == CallText(Succeeded, false)
    {
      ghost var v2, run := store.Value(), store.calls[x].runId;
      hide Good, Exec, ExecAll, AdvanceOps, FinishOps, BlockOps, StopsAdvance, SameAdvance;
      ghost var advance, finish := AdvanceOps(cfg, v0, run, g), FinishOps(cfg, x, b, g);
      NameKept(v2, x);
      NoOps(v2);
      SameBlockOps(v0, v2, x, INVALID, g);
      SameAdvanceOps(cfg, v0, v2, run, g);
      SameStop(v0, v2, x, g);
      AdvanceEffect(cfg, v0, run, g);
      AdvanceEffect(cfg, v2, run, g);
      AdvancedAlike(v0, ExecAll(v0, advance), v2, ExecAll(v2, advance), x, run, g);
      var stage := AdvanceAndFinish(x, b, g);
      if stage == 0 { return false, []; }
      if stage == 1 { return false, advance; }
      return true, advance + finish;
    }

    // _commit_reconciliation; done is what it submitted before returning or raising.
    method Commit(x: string, b: Binding, g: Glance) returns (ok: bool, ghost done: seq<Op>)
      requires Good(store.Value()) && x in store.calls && Bind(cfg, store.Value(), x) == Some(b)
      requires store.calls[x].runId in store.runs && store.runs[store.calls[x].runId].state in {Executing, Verifying}
      modifies store
      ensures Good(store.Value()) && x in store.calls
      ensures store.Value() == ExecAll(old(store.Value()), done)
      ensures done + (if ok then [] else BlockOps(store.Value(), x, INVALID, g)) ==
              CommitOps(cfg, old(store.Value()), x, b, g)
      ensures ok ==> store.calls[x].state == CallText(Succeeded, false)
    {
      ghost var v0 := store.Value();
      hide Good, Exec, ExecAll, Bind, SpendOps, StoreOps, BlockOps, CommitOps, Conflicts, RunHalf;
      ghost var spend, stored := SpendOps(v0, b, g), StoreOps(cfg, v0, x, b, g);
      NameKept(v0, x);
      CommitCases(cfg, v0, x, b, g);
      ok := SpendAndStore(x, b, g);
      SameBlockOps(v0, store.Value(), x, INVALID, g);
      done := spend;
      if ok {
        ghost var more;
        ok, more := AdvanceOrRaise(x, b, g, v0);
        ExecAllConcat(v0, spend + stored, more);
        done := spend + stored + more;
        Reassociate(spend + stored, more, if ok then [] else BlockOps(store.Value(), x, INVALID, g));
      }
    }

    // Everything between the mark and the verdict on one call.
    method Examine(x: string, emergency: bool, g: Glance) returns (why: Option<string>)
      requires x in store.calls
      ensures why == Obstacle(cfg, store.Value(), x, emergency, g)
    {
      hide Bind;
      if emergency { return Some("emergency_stop_active"); }
      var b, run := Bind(cfg, store.Value(), x), store.calls[x].runId;
      if b.None? || run !in store.runs { return Some(INVALID); }
      if store.runs[run].state !in {Executing, Verifying} { return Some("run_not_recoverable"); }
      if g.stopped(0) { return Some(INVALID); }
      var exact := Observed(g.dir, b.value);
      if g.stopped(1) { return Some(INVALID); }
      why := if exact then None else Some("exact_postcondition_mismatch");
    }

    // The commit, and the block in its exception handler.
    method CommitOrBlock(x: string, b: Binding, g: Glance) returns (ok: bool)
      requires Good(store.Value()) && x in store.calls && Bind(cfg, store.Value(), x) == Some(b)
      requires store.calls[x].runId in store.runs && store.runs[store.calls[x].runId].state in {Executing, Verifying}
      modifies store
      ensures Good(store.Value()) && x in store.calls
      ensures store.Value() == ExecAll(old(store.Value()), CommitOps(cfg, old(store.Value()), x, b, g))
      ensures ok ==> store.calls[x].state == CallText(Succeeded, false)
      ensures !ok ==> BlockedIn(store.journal, x)
    {
      ghost var v0 := store.Value();
      hide Good, Exec, ExecAll, Bind, BlockOps, CommitOps, BlockedIn;
      ghost var done;
      ok, done := Commit(x, b, g);
      if ok {
        assert done + [] == done;
      } else {
        ghost var block := BlockOps(store.Value(), x, INVALID, g);
        Block(x, INVALID, g);
        ExecAllConcat(v0, done, block);
      }
    }

    /** One call: marked, then blocked for the first obstacle or reconciled. */
    method RecoverOne(x: string, emergency: bool, g: Glance) returns (item: Item)
      requires Good(store.Value()) && x in store.calls
      modifies store
      ensures Good(store.Value()) && x in store.calls
      ensures store.Value() == ExecAll(old(store.Value()), ScriptOne(cfg, old(store.Value()), x, emergency, g))
      ensures item.callId == x && item.runId == old(store.calls[x].runId)
      ensures item.reconciled ==> store.calls[x].state == CallText(Succeeded, false)
      ensures !item.reconciled ==> BlockedIn(store.journal, x)
      ensures item.reconciled <==> item.reason == "exact_persisted_postcondition_observed"
      ensures Because(cfg, old(store.Value()), x, emergency, g, item.reason)
    {
      ghost var v0 := store.Value();
      hide Good, Exec, ExecAll, Bind, MarkOps, BlockOps, CommitOps, Obstacle, BlockedIn, Because;
      ReasonsDiffer();
      BecauseOf(cfg, v0, x, emergency, g);
      var run := store.calls[x].runId;
      Mark(x, g);
      ghost var v1 := store.Value();
      SameObstacle(cfg, v0, v1, x, emergency, g);
      var why := Examine(x, emergency, g);
      if why.Some? {
        SameBlocks(v0, v1, x, why.value, g);
        Block(x, why.value, g);
        ExecAllConcat(v0, MarkOps(v0, x, g), BlockOps(v0, x, why.value, g));
        item := Item(x, run, false, why.value);
      } else {
        RunIsActive(cfg, v1, x, emergency, g);
        var b := Bind(cfg, store.Value(), x).value;
        SameCommit(cfg, v0, v1, x, b, g);
        var ok := CommitOrBlock(x, b, g);
        ExecAllConcat(v0, MarkOps(v0, x, g), CommitOps(cfg, v0, x, b, g));
        item := Item(x, run, ok, if ok then "exact_persisted_postcondition_observed" else INVALID);
      }
    }

    // One turn of the loop.
    method RecoverNext(calls: seq<string>, i: nat, emergency: bool, gs: string -> Glance, ghost items: seq<Item>)
      returns (item: Item)
      requires Good(store.Value()) && Listed(store.Value(), calls) && i < |calls|
      requires |items| == i && Reported(store.Value(), items, calls)
      modifies store
      ensures Good(store.Value()) && Listed(store.Value(), calls) && Reported(store.Value(), items + [item], calls)
      ensures ExecAll(store.Value(), ScriptMany(cfg, store.Value(), calls[i + 1..], emergency, gs)) ==
              ExecAll(old(store.Value()), ScriptMany(cfg, old(store.Value()), calls[i..], emergency, gs))
    {
      hide Good, Exec, ExecAll, ScriptMany, ScriptOne, BlockedIn, Listed, Kept, Reported, Untouched, Because, Bind, CallRun;
      ghost var before := store.Value();
      var x := calls[i];
      ListedAt(before, calls, i);
      NextCall(cfg, before, calls[i..], emergency, gs);
      assert calls[i..][1..] == calls[i + 1..];
      ScriptOneGood(cfg, before, x, emergency, gs(x));
      OtherCallsStay(cfg, before, x, emergency, gs(x));
      item := RecoverOne(x, emergency, gs(x));
      ListedStays(before, store.Value(), calls);
      ReportGrows(before, store.Value(), items, item, calls);
    }

    // The loop over the selected calls.
    method RecoverCalls(calls: seq<string>, emergency: bool, gs: string -> Glance)
      returns (items: seq<Item>, reconciled: nat, blocked: nat)
      requires Good(store.Value()) && Listed(store.Value(), calls)
      modifies store
      ensures Good(store.Value())
      ensures store.Value() == ExecAll(old(store.Value()), ScriptMany(cfg, old(store.Value()), calls, emergency, gs))
      ensures Reported(store.Value(), items, calls) && |items| == |calls| == reconciled + blocked
      ensures reconciled == CountOf(items, true) && blocked == CountOf(items, false)
    {
      ghost var end := ExecAll(store.Value(), ScriptMany(cfg, store.Value(), calls, emergency, gs));
      hide *;
      items, reconciled, blocked := [], 0, 0;
      NothingReported(store.Value(), calls);
      NothingCounted();
      var i := 0;
      assert calls[0..] == calls;
      while i < |calls|
        invariant 0 <= i <= |calls| && |items| == i && reconciled + blocked == i
        invariant reconciled == CountOf(items, true) && blocked == CountOf(items, false)
        invariant Good(store.Value()) && Listed(store.Value(), calls)
        invariant ExecAll(store.Value(), ScriptMany(cfg, store.Value(), calls[i..], emergency, gs)) == end
        invariant Reported(store.Value(), items, calls)
      {
        var item := RecoverNext(calls, i, emergency, gs, items);
        CountSnoc(items, item);
        items := items + [item];
        if item.reconciled { reconciled := reconciled + 1; } else { blocked := blocked + 1; }
        i := i + 1;
      }
      NothingToDo(cfg, store.Value(), emergency, gs);
      NoOps(store.Value());
      assert calls[i..] == [];
    }

    /** recover, after the journal has been verified: expired authority goes first, then
        every interrupted call in order; the report has one truthful item per call. */
    method Recover(emergency: bool, at: Time, gs: string -> Glance)
      returns (items: seq<Item>, reconciled: nat, blocked: nat)
      requires Good(store.Value())
      modifies store
      ensures Good(store.Value())
      ensures store.Value() == Recovery.Recover(cfg, old(store.Value()), emergency, at, gs)
      ensures var calls := UncertainCalls(Exec(old(store.Value()), Expiry(at)).0);
              Reported(store.Value(), items, calls) && |items| == |calls| == reconciled + blocked
      ensures reconciled == CountOf(items, true) && blocked == CountOf(items, false)
    {
      ghost var v0 := store.Value();
      hide Good, Exec, ExecAll, ScriptMany, UncertainCalls, Listed, Reported;
      GoodExec(v0, Expiry(at));
      ExpiryIs(v0, at);
      var reply := store.ExpireDueNow(at);
      ghost var expired := store.Value();
      var calls := UncertainCalls(store.Value());
      ExecOne(v0, Expiry(at));
      ExecAllConcat(v0, [Expiry(at)], ScriptMany(cfg, expired, calls, emergency, gs));
      ListedCalls(expired);
      items, reconciled, blocked := RecoverCalls(calls, emergency, gs);
    }

    // SUCCEEDED, last.
    method Finish(x: string, b: Binding, g: Glance)
      requires Good(store.Value()) && x in store.calls
      modifies store
      ensures store.Value() == ExecAll(old(store.Value()), FinishOps(cfg, x, b, g))
      ensures x in store.calls && store.calls[x].state == CallText(Succeeded, false)
      ensures store.TablesNow() == old(store.TablesNow()).(calls := old(store.calls)[x := store.calls[x]])
      ensures store.calls[x].error == None && store.calls[x].result.Some? &&
              var result := store.calls[x].result.value;
              result.path == b.path && result.sha256 == cfg.hash(b.content) && result.byteLength == |b.content| &&
              result.status == "verified"
      ensures Good(store.Value())
    {
      ghost var db := store.Value();
      hide Good, Exec;
      ghost var op := FinishOps(cfg, x, b, g)[0];
      NameKept(db, x);
      Authority.ChangeCallMeans(db, x, ACTOR, CallText(Succeeded, false), op.result, None, g.now(4)) by {
        hide ChangeCallState;
      }
      ghost var row := DoCall(db, op);
      ExecOne(db, op);
      GoodExec(db, op);
      var reply := store.ChangeCallStateNow(x, ACTOR, CallText(Succeeded, false),
        Some(ToolResult(b.path, cfg.hash(b.content), |b.content|, "verified")), None, g.now(4));
      assert (store.Value(), reply) == Exec(db, op) by { CallStepIs(db, op); }
    }
  }

  // ---------- which later operations an earlier one leaves unchanged ----------

  lemma SameStoreOps(cfg: Settings, db: Db, db': Db, x: string, b: Binding, g: Glance)
    requires x in db.tables.calls && db'.tables.calls == db.tables.calls && db'.tables.artifacts == db.tables.artifacts
    ensures StoreOps(cfg, db', x, b, g) == StoreOps(cfg, db, x, b, g)
  {
  }

  lemma SameAdvanceOps(cfg: Settings, db: Db, db': Db, run: string, g: Glance)
    requires db'.tables.runs == db.tables.runs
    ensures AdvanceOps(cfg, db', run, g) == AdvanceOps(cfg, db, run, g)
  {
  }

  lemma SameBlockOps(db: Db, db': Db, x: string, why: string, g: Glance)
    requires x in db.tables.calls && x in db'.tables.calls && db'.tables.calls[x].runId == db.tables.calls[x].runId
    requires var run := db.tables.calls[x].runId;
             run in db.tables.runs && run in db'.tables.runs &&
             db'.tables.runs[run].state == db.tables.runs[run].state &&
             db'.tables.runs[run].version == db.tables.runs[run].version
    ensures BlockOps(db', x, why, g) == BlockOps(db, x, why, g)
  {
  }

  lemma AdvanceEffect(cfg: Settings, db: Db, run: string, g: Glance)
    requires run in db.tables.runs && run != ""
    ensures var db' := ExecAll(db, AdvanceOps(cfg, db, run, g));
            && db'.tables.calls == db.tables.calls && run in db'.tables.runs
            && SameAdvance(db.tables.runs[run], db'.tables.runs[run])
  {
    hide Exec;
    if db.tables.runs[run].state == Executing {
      var row := DoMove(db, run, Verifying, Some(g.now(7) + cfg.leaseTime), g.now(3));
      ExecOne(db, AdvanceOps(cfg, db, run, g)[0]);
    }
  }

  // A run that was EXECUTING has a new lease; nothing else changed, and otherwise nothing.
  predicate Leased(db: Db, db': Db, run: string, lease: Time) {
    && run in db.tables.runs && run in db'.tables.runs
    && db'.tables == db.tables.(runs := db.tables.runs[run := db'.tables.runs[run]])
    && (db.tables.runs[run].state == Executing ==> db'.tables.runs[run].leaseExpiresAt == Some(lease))
    && (db.tables.runs[run].state != Executing ==> db' == db)
  }

  lemma AdvanceMeans(cfg: Settings, db: Db, run: string, g: Glance)
    requires run in db.tables.runs && run != ""
    ensures var db' := ExecAll(db, AdvanceOps(cfg, db, run, g));
            && run in db'.tables.runs && SameAdvance(db.tables.runs[run], db'.tables.runs[run])
            && db'.tables == db.tables.(runs := db'.tables.runs)
            && Leased(db, db', run, g.now(7) + cfg.leaseTime)
  {
    hide Exec;
    if db.tables.runs[run].state == Executing {
      var row := DoMove(db, run, Verifying, Some(g.now(7) + cfg.leaseTime), g.now(3));
      ExecOne(db, AdvanceOps(cfg, db, run, g)[0]);
    }
  }

  // An artifact of the same id says something else.
  predicate Conflicts(cfg: Settings, db: Db, x: string, b: Binding)
    requires x in db.tables.calls
  {
    ArtifactId(x) in db.tables.artifacts &&
    !ArtifactMatches(cfg, db.tables.artifacts[ArtifactId(x)], x, db.tables.calls[x].runId, b)
  }

  lemma SameConflict(cfg: Settings, db: Db, db': Db, x: string, b: Binding)
    requires x in db.tables.calls && db'.tables.calls == db.tables.calls && db'.tables.artifacts == db.tables.artifacts
    ensures Conflicts(cfg, db', x, b) <==> Conflicts(cfg, db, x, b)
  {
  }

  predicate StopsAdvance(db: Db, x: string, g: Glance)
    requires x in db.tables.calls
  {
    var run := db.tables.calls[x].runId;
    run in db.tables.runs && db.tables.runs[run].state == Executing && g.stopped(2)
  }

  // The commit from the run on.
  function RunHalf(cfg: Settings, db: Db, x: string, b: Binding, g: Glance): seq<Op>
    requires x in db.tables.calls
  {
    var run := db.tables.calls[x].runId;
    var advance := AdvanceOps(cfg, db, run, g);
    var moved := ExecAll(db, advance);
    if StopsAdvance(db, x, g) then BlockOps(db, x, INVALID, g)
    else if g.stopped(3) then advance + BlockOps(moved, x, INVALID, g)
    else advance + FinishOps(cfg, x, b, g)
  }

  lemma CommitCases(cfg: Settings, db: Db, x: string, b: Binding, g: Glance)
    requires x in db.tables.calls
    ensures var spend, stored := SpendOps(db, b, g), StoreOps(cfg, db, x, b, g);
            CommitOps(cfg, db, x, b, g) ==
            if Conflicts(cfg, db, x, b) then spend + BlockOps(db, x, INVALID, g)
            else spend + stored + RunHalf(cfg, db, x, b, g)
  {
    hide ExecAll, SpendOps, StoreOps, AdvanceOps, FinishOps, BlockOps, ArtifactMatches;
  }

  lemma SameStop(db: Db, db': Db, x: string, g: Glance)
    requires x in db.tables.calls && db'.tables.calls == db.tables.calls && db'.tables.runs == db.tables.runs
    ensures StopsAdvance(db', x, g) <==> StopsAdvance(db, x, g)
  {
  }

  // Two advances of the same run row lead to the same block.
  lemma AdvancedAlike(a: Db, a': Db, b: Db, b': Db, x: string, run: string, g: Glance)
    requires x in a.tables.calls && a.tables.calls[x].runId == run && run in a.tables.runs
    requires b.tables.calls == a.tables.calls && b.tables.runs == a.tables.runs
    requires a'.tables.calls == a.tables.calls && b'.tables.calls == b.tables.calls
    requires run in a'.tables.runs && run in b'.tables.runs
    requires SameAdvance(a.tables.runs[run], a'.tables.runs[run]) && SameAdvance(b.tables.runs[run], b'.tables.runs[run])
    ensures BlockOps(b', x, INVALID, g) == BlockOps(a', x, INVALID, g)
  {
    SameBlockOps(a', b', x, INVALID, g) by { hide BlockOps; }
  }

  // Marking a call changes neither its obstacle nor the operations that follow.
  predicate OnlyMarked(db: Db, db': Db, x: string) {
    x in db.tables.calls && x in db'.tables.calls && SameCall(db.tables.calls[x], db'.tables.calls[x]) &&
    db'.tables == db.tables.(calls := db'.tables.calls)
  }

  lemma SameObstacle(cfg: Settings, db: Db, db': Db, x: string, emergency: bool, g: Glance)
    requires OnlyMarked(db, db', x)
    ensures Obstacle(cfg, db', x, emergency, g) == Obstacle(cfg, db, x, emergency, g)
    ensures Bind(cfg, db', x) == Bind(cfg, db, x)
  {
    hide Bind;
    MarkedBind(cfg, db, db', x);
  }

  lemma SameBlocks(db: Db, db': Db, x: string, why: string, g: Glance)
    requires OnlyMarked(db, db', x)
    ensures BlockOps(db', x, why, g) == BlockOps(db, x, why, g)
  {
  }

  lemma SameCommit(cfg: Settings, db: Db, db': Db, x: string, b: Binding, g: Glance)
    requires OnlyMarked(db, db', x) && db.tables.calls[x].runId in db.tables.runs && db.tables.calls[x].runId != ""
    ensures CommitOps(cfg, db', x, b, g) == CommitOps(cfg, db, x, b, g)
  {
    hide ExecAll, BlockOps, ArtifactMatches;
    var run := db.tables.calls[x].runId;
    SameBlocks(db, db', x, INVALID, g);
    AdvanceEffect(cfg, db, run, g);
    AdvanceEffect(cfg, db', run, g);
    var a, a' := ExecAll(db, AdvanceOps(cfg, db, run, g)), ExecAll(db', AdvanceOps(cfg, db', run, g));
    SameBlockOps(a, a', x, INVALID, g) by { hide BlockOps; }
  }

  lemma RunIsActive(cfg: Settings, db: Db, x: string, emergency: bool, g: Glance)
    requires x in db.tables.calls && Obstacle(cfg, db, x, emergency, g).None?
    ensures Bind(cfg, db, x).Some? && db.tables.calls[x].runId in db.tables.runs && db.tables.calls[x].runId != ""
    ensures db.tables.runs[db.tables.calls[x].runId].state in {Executing, Verifying}
  {
    BindSome(cfg, db, x, emergency, g);
    BindFacts(cfg, db, x);
    hide Bind;
  }

  // ---------- the loop ----------

  lemma NextCall(cfg: Settings, db: Db, calls: seq<string>, emergency: bool, gs: string -> Glance)
    requires calls != [] && calls[0] in db.tables.calls
    ensures var next := ExecAll(db, ScriptOne(cfg, db, calls[0], emergency, gs(calls[0])));
            ExecAll(db, ScriptMany(cfg, db, calls, emergency, gs)) ==
            ExecAll(next, ScriptMany(cfg, next, calls[1..], emergency, gs))
  {
    hide ScriptOne;
    var one := ScriptOne(cfg, db, calls[0], emergency, gs(calls[0]));
    ExecAllConcat(db, one, ScriptMany(cfg, ExecAll(db, one), calls[1..], emergency, gs));
  }

  lemma ListedAt(db: Db, calls: seq<string>, i: nat)
    requires Listed(db, calls) && i < |calls|
    ensures calls[i] in db.tables.calls && forall k :: 0 <= k < i ==> calls[k] != calls[i]
  {
  }

  lemma ListedStays(db: Db, db': Db, calls: seq<string>)
    requires Listed(db, calls) && Kept(db, db')
    ensures Listed(db', calls)
  {
  }

  lemma OtherCallsStay(cfg: Settings, db: Db, x: string, emergency: bool, g: Glance)
    requires x in db.tables.calls
    ensures Untouched(db, ExecAll(db, ScriptOne(cfg, db, x, emergency, g)), {x})
  {
    hide ScriptOne, ExecAll, AllShaped, SpendsOwn, Untouched, AllTouchOnly;
    ScriptShaped(cfg, db, x, emergency, g);
    ShapedTouches(ScriptOne(cfg, db, x, emergency, g), x, db.tables.calls[x].runId, {x});
    OpsUntouched(db, ScriptOne(cfg, db, x, emergency, g), {x});
  }

  // An item says truly what became of its call.
  ghost predicate Truthful(db: Db, item: Item) {
    item.callId in db.tables.calls &&
    if item.reconciled then db.tables.calls[item.callId].state == CallText(Succeeded, false)
    else BlockedIn(db.journal, item.callId)
  }

  function CountOf(items: seq<Item>, reconciled: bool): nat {
    if items == [] then 0
    else CountOf(items[..|items| - 1], reconciled) + if items[|items| - 1].reconciled == reconciled then 1 else 0
  }

  lemma NothingCounted()
    ensures CountOf([], true) == CountOf([], false) == 0
  {
  }

  lemma CountSnoc(items: seq<Item>, item: Item)
    ensures CountOf(items + [item], true) == CountOf(items, true) + if item.reconciled then 1 else 0
    ensures CountOf(items + [item], false) == CountOf(items, false) + if item.reconciled then 0 else 1
  {
    assert (items + [item])[..|items|] == items;
  }

  // One truthful item for each of the first calls.
  ghost predicate Reported(db: Db, items: seq<Item>, calls: seq<string>) {
    |items| <= |calls| && forall k :: 0 <= k < |items| ==> items[k].callId == calls[k] && Truthful(db, items[k])
  }

  lemma NothingReported(db: Db, calls: seq<string>)
    ensures Reported(db, [], calls)
  {
  }

  lemma ItemStays(db: Db, db': Db, item: Item, x: string)
    requires Untouched(db, db', {x}) && item.callId != x && Truthful(db, item)
    ensures Truthful(db', item)
  {
    if !item.reconciled { BlockedGrows(db.journal, db'.journal, item.callId); }
  }

  lemma ReportGrows(db: Db, db': Db, items: seq<Item>, item: Item, calls: seq<string>)
    requires Reported(db, items, calls) && |items| < |calls| && Untouched(db, db', {calls[|items|]})
    requires forall k :: 0 <= k < |items| ==> calls[k] != calls[|items|]
    requires item.callId == calls[|items|] && Truthful(db', item)
    ensures Reported(db', items + [item], calls)
  {
    hide Truthful, Untouched;
    forall k | 0 <= k < |items| ensures Truthful(db', items[k]) { ItemStays(db, db', items[k], calls[|items|]); }
  }

  // What an advance leaves of a run's row that a later block reads.
  predicate SameAdvance(row: RunRow, row': RunRow) {
    if row.state == Executing then row'.state == Verifying && row'.version == row.version + 1 else row' == row
  }

  lemma UseIs(db: Db, op: Op)
    requires op.Use?
    ensures Exec(db, op) == Consume(db, op.id, op.claimedBy, op.at)
  {
  }

  lemma Reassociate(p: seq<Op>, q: seq<Op>, r: seq<Op>)
    ensures p + q + r == p + (q + r)
  {
  }

  lemma ExecTwo(db: Db, p: Op, q: Op)
    ensures ExecAll(db, [p] + [q]) == Exec(Exec(db, p).0, q).0
  {
    ExecAllConcat(db, [p], [q]);
    ExecOne(db, p);
    ExecOne(Exec(db, p).0, q);
  }

  lemma CallStepIs(db: Db, op: Op)
    requires op.CallStep?
    ensures Exec(db, op) == ChangeCallState(db, op.id, op.actor, op.state, op.result, op.error, op.at)
  {
  }

  lemma RecordIs(db: Db, d: Draft)
    requires Recordable(d.payload)
    ensures Exec(db, Record(d)) == Commit(db, Append(db, d))
  {
  }

  lemma MoveIs(db: Db, op: Op)
    requires op.MoveRun?
    ensures Exec(db, op) ==
            Transition(db, op.run, op.target, op.actor, op.expectedState, op.expectedVersion, op.reason, op.lease, op.at)
  {
  }

  lemma MoveChecked(db: Db, op: Op)
    requires op.MoveRun? && op.run in db.tables.runs && db.tables.runs[op.run].state !in TERMINAL
    requires op == MoveOp(db, op.run, BlockTarget(db.tables.runs[op.run].state), op.lease, op.at)
    ensures Histories.CheckedOp(op)
  {
    var st := db.tables.runs[op.run].state;
    assert CanTransition(st, BlockTarget(st));
  }
}
