/** What later recoveries make of a run: exactly when they take it down, and so exactly
    when they make good a recovery that was cut between the event that blocks a call and
    the transition of its run. */
module Blocking {
  import opened Domain
  import opened Projections
  import opened Repositories
  import opened Growth
  import opened Files
  import opened Recovery
  import opened Restart
  import opened Idempotence

  // Some interrupted call of the run cannot be reconciled.
  ghost predicate Stuck(cfg: Settings, dir: Directory, db: Db, run: string) {
    exists x :: x in Selection(db) && OfRun(db, x, run) && !OnItsWay(Aim(cfg, dir, x), db)
  }

  predicate OfRun(db: Db, x: string, run: string) { x in db.tables.calls && db.tables.calls[x].runId == run }

  // No recovery has anything to do with the run.
  ghost predicate Idle(db: Db, run: string) { forall x :: x in Selection(db) ==> !OfRun(db, x, run) }

  // The stop is clear and the sandbox as it is whenever a call of the run is handled.
  ghost predicate ClearFor(dir: Directory, db: Db, run: string, gs: string -> Glance) {
    forall x :: OfRun(db, x, run) ==> Clear(gs(x), dir)
  }

  predicate Ended(db: Db, run: string) { run in db.tables.runs && db.tables.runs[run].state in TERMINAL }

  predicate UnderWay(db: Db, run: string) { run in db.tables.runs && db.tables.runs[run].state !in TERMINAL }

  // ---------- one recovery ----------

  lemma NothingLeft(cfg: Settings, db: Db, at: Time, gs: string -> Glance)
    requires Good(db)
    ensures Selection(Recover(cfg, db, false, at, gs)) == {}
  {
    hide Good, Exec, ScriptMany, Selection, NoneDue, Resolved, Recover;
    var expired := Exec(db, Expiry(at)).0;
    GoodExec(db, Expiry(at));
    ExpiryClears(db, at) by { GoodNamed(db); }
    AfterTheCalls(cfg, expired, false, gs, at);
    RecoverIs(cfg, db, at, gs);
  }

  lemma StuckEnds(cfg: Settings, dir: Directory, db: Db, run: string, at: Time, gs: string -> Glance)
    requires Good(db) && run in db.tables.runs && ClearFor(dir, db, run, gs) && Stuck(cfg, dir, db, run)
    ensures Ended(Recover(cfg, db, false, at, gs), run)
  {
    hide Good, Recover, OnItsWay, Clear, BlockedIn;
    var x :| x in Selection(db) && OfRun(db, x, run) && !OnItsWay(Aim(cfg, dir, x), db);
    HopelessEnds(Aim(cfg, dir, x), db, at, gs);
  }

  lemma FreeGoesOn(cfg: Settings, dir: Directory, db: Db, run: string, at: Time, gs: string -> Glance)
    requires Good(db) && UnderWay(db, run) && ClearFor(dir, db, run, gs) && !Stuck(cfg, dir, db, run)
    ensures UnderWay(Recover(cfg, db, false, at, gs), run)
    ensures Idle(db, run) ==> Recover(cfg, db, false, at, gs).tables.runs[run] == db.tables.runs[run]
  {
    hide Good, Recover, OnItsWay, Clear, Bind, BlockedIn, ArtifactMatches, SameBinding;
    if Idle(db, run) {
      RunLeftAlone(cfg, db, false, at, gs, run);
    } else {
      var x :| x in Selection(db) && OfRun(db, x, run);
      var aim := Aim(cfg, dir, x);
      assert OnItsWay(aim, db);
      FineBound(aim, db);
      assert forall y :: Idempotence.Other(aim, y) == Aim(cfg, dir, y);
      RecoveryReconciles(aim, db, at, gs);
      RecoverGood(cfg, db, false, at, gs);
      assert SameCall(db.tables.calls[x], Recover(cfg, db, false, at, gs).tables.calls[x]);
    }
  }

  // ---------- any number of recoveries ----------

  datatype Attempt = Attempt(at: Time, gs: string -> Glance)

  function RecoverAll(cfg: Settings, db: Db, rs: seq<Attempt>): Db
    decreases rs
  {
    if rs == [] then db else RecoverAll(cfg, Recover(cfg, db, false, rs[0].at, rs[0].gs), rs[1..])
  }

  ghost predicate AllClear(dir: Directory, db: Db, run: string, rs: seq<Attempt>) {
    forall i :: 0 <= i < |rs| ==> ClearFor(dir, db, run, rs[i].gs)
  }

  // What stays clear from one recovery to the next.
  lemma ClearNext(cfg: Settings, dir: Directory, db: Db, run: string, rs: seq<Attempt>)
    requires Good(db) && rs != [] && AllClear(dir, db, run, rs)
    ensures var next := Recover(cfg, db, false, rs[0].at, rs[0].gs);
            Good(next) && AllClear(dir, next, run, rs[1..])
  {
    hide Good, Clear, SameBinding, Script, ExecAll, TouchesOnly;
    var at, gs := rs[0].at, rs[0].gs;
    var next := Recover(cfg, db, false, at, gs);
    RecoverGood(cfg, db, false, at, gs);
    RecoverySubmitsClientSteps(cfg, db, false, at, gs);
    OpsUntouched(db, Script(cfg, db, false, at, gs), Selection(Exec(db, Expiry(at)).0)) by { hide Exec; }
    forall i, x | 0 <= i < |rs[1..]| && OfRun(next, x, run) ensures Clear(rs[1..][i].gs(x), dir) {
      assert SameCall(db.tables.calls[x], next.tables.calls[x]);
      assert ClearFor(dir, db, run, rs[i + 1].gs) && OfRun(db, x, run);
    }
  }

  lemma {:induction false} EndedStays(cfg: Settings, db: Db, run: string, rs: seq<Attempt>)
    requires Good(db) && Ended(db, run)
    ensures Ended(RecoverAll(cfg, db, rs), run)
    decreases rs
  {
    hide Good, Script, ExecAll, Exec, SameAuthority, Selection;
    if rs != [] {
      var at, gs := rs[0].at, rs[0].gs;
      RecoverGood(cfg, db, false, at, gs);
      RecoverySubmitsClientSteps(cfg, db, false, at, gs);
      OpsSteady(db, Script(cfg, db, false, at, gs), Selection(Exec(db, Expiry(at)).0));
      EndedStays(cfg, Recover(cfg, db, false, at, gs), run, rs[1..]);
    }
  }

  lemma {:induction false} AllSteady(cfg: Settings, db: Db, rs: seq<Attempt>)
    requires Good(db)
    ensures Steady(db, RecoverAll(cfg, db, rs))
    decreases rs
  {
    hide Good, Script, ExecAll, Exec, Steady, Selection;
    if rs == [] {
      SteadyItself(db);
    } else {
      var at, gs := rs[0].at, rs[0].gs;
      var next := Recover(cfg, db, false, at, gs);
      RecoverGood(cfg, db, false, at, gs);
      RecoverySubmitsClientSteps(cfg, db, false, at, gs);
      OpsSteady(db, Script(cfg, db, false, at, gs), Selection(Exec(db, Expiry(at)).0));
      AllSteady(cfg, next, rs[1..]);
      SteadyTransitive(db, next, RecoverAll(cfg, db, rs));
    }
  }

  // How recovery leaves a run that it takes down.
  predicate PutAside(row: RunRow, row': RunRow) { TakenDown(row', if row.state == Received then Failed else Blocked) }

  lemma EndedIsPutAside(db: Db, end: Db, run: string)
    requires Steady(db, end) && UnderWay(db, run) && Ended(end, run)
    ensures PutAside(db.tables.runs[run], end.tables.runs[run])
  {
  }

  /** Any number of recoveries, with the stop clear and the sandbox as it is, take a run
      down exactly when there was one and some interrupted call of the run could not be
      reconciled.  A run taken down is in BLOCKED, for its owner to review, unless it was
      still RECEIVED; a run without an interrupted call keeps its very row. */
  lemma {:induction false} RunEndsExactly(cfg: Settings, dir: Directory, db: Db, run: string, rs: seq<Attempt>)
    requires Good(db) && UnderWay(db, run) && AllClear(dir, db, run, rs)
    ensures var end := RecoverAll(cfg, db, rs);
            && run in end.tables.runs
            && (Ended(end, run) <==> rs != [] && Stuck(cfg, dir, db, run))
            && (Ended(end, run) ==> PutAside(db.tables.runs[run], end.tables.runs[run]))
            && (Idle(db, run) ==> end.tables.runs[run] == db.tables.runs[run])
    decreases rs
  {
    hide Good, Recover, OnItsWay, ClearFor, Selection, Steady, PutAside;
    AllSteady(cfg, db, rs);
    if Ended(RecoverAll(cfg, db, rs), run) { EndedIsPutAside(db, RecoverAll(cfg, db, rs), run); }
    if rs != [] {
      var at, gs := rs[0].at, rs[0].gs;
      var next := Recover(cfg, db, false, at, gs);
      ClearNext(cfg, dir, db, run, rs);
      NothingLeft(cfg, db, at, gs);
      assert ClearFor(dir, db, run, gs);
      if Stuck(cfg, dir, db, run) {
        StuckEnds(cfg, dir, db, run, at, gs);
        EndedStays(cfg, next, run, rs[1..]);
      } else {
        FreeGoesOn(cfg, dir, db, run, at, gs);
        RunEndsExactly(cfg, dir, next, run, rs[1..]);
      }
    }
  }

  // ---------- a recovery cut while it blocks a call ----------

  // The event alone: the tables are the same, and only the one call is blocked.
  lemma NoteOnly(db: Db, x: string, why: string, g: Glance) returns (noted: Db)
    requires Good(db) && x in db.tables.calls
    ensures noted == ExecAll(db, BlockOps(db, x, why, g)[..1])
    ensures Good(noted) && noted.tables == db.tables
    ensures forall y :: BlockedIn(noted.journal, y) <==> BlockedIn(db.journal, y) || y == x
  {
    hide Good, Exec, BlockedIn;
    var ops := BlockOps(db, x, why, g);
    NameKept(db, x);
    DoNote(db, ops[0].draft);
    ExecOne(db, ops[0]);
    assert ops[..1] == [ops[0]];
    noted := Exec(db, ops[0]).0;
    GoodExec(db, ops[0]);
    forall y ensures BlockedIn(noted.journal, y) <==> BlockedIn(db.journal, y) || y == x { SameBlocked(db, noted, y); }
  }

  lemma SameWay(aim: Aim, db: Db, db': Db)
    requires db'.tables == db.tables && (BlockedIn(db'.journal, aim.call) <==> BlockedIn(db.journal, aim.call))
    ensures OnItsWay(aim, db') <==> OnItsWay(aim, db)
  {
    hide BlockedIn, Observed, ArtifactMatches, HoldsAuthority, DurableBindingsAgree, RecoverableWrite, PostconditionBound;
  }

  // Some other interrupted call of the run cannot be reconciled.
  ghost predicate OtherStuck(cfg: Settings, dir: Directory, db: Db, run: string, x: string) {
    exists y :: y != x && y in Selection(db) && OfRun(db, y, run) && !OnItsWay(Aim(cfg, dir, y), db)
  }

  lemma StuckAfterNote(cfg: Settings, dir: Directory, db: Db, noted: Db, run: string, x: string)
    requires noted.tables == db.tables
    requires forall y :: BlockedIn(noted.journal, y) <==> BlockedIn(db.journal, y) || y == x
    ensures Stuck(cfg, dir, noted, run) <==> OtherStuck(cfg, dir, db, run, x)
    ensures forall y :: y in Selection(noted) <==> y in Selection(db) && y != x
  {
    hide BlockedIn, OnItsWay;
    forall y ensures y in Selection(noted) <==> y in Selection(db) && y != x {}
    forall y | y != x ensures OnItsWay(Aim(cfg, dir, y), noted) <==> OnItsWay(Aim(cfg, dir, y), db) {
      SameWay(Aim(cfg, dir, y), db, noted);
    }
  }

  /** Blocking a call takes its run down.  Cut after the event and before the transition,
      it is made good by later recoveries, however many, exactly when there is one and
      some other interrupted call of the run cannot be reconciled; when the run has no
      other interrupted call, all of them leave its row as it was. */
  lemma BlockCutIsLost(cfg: Settings, dir: Directory, db: Db, x: string, why: string, g: Glance, rs: seq<Attempt>)
    requires Good(db) && x in db.tables.calls && UnderWay(db, CallRun(db, x))
    requires AllClear(dir, db, CallRun(db, x), rs)
    ensures var run, ops := CallRun(db, x), BlockOps(db, x, why, g);
            var end := RecoverAll(cfg, ExecAll(db, ops[..1]), rs);
            && |ops| == 2 && Ended(ExecAll(db, ops), run) && run in end.tables.runs
            && (Ended(end, run) <==> rs != [] && OtherStuck(cfg, dir, db, run, x))
            && ((forall y :: y in Selection(db) && y != x ==> !OfRun(db, y, run)) ==>
                  end.tables.runs[run] == db.tables.runs[run])
  {
    hide Good, BlockedIn, Exec, OnItsWay, Clear, RecoverAll, Selection, ExecAll;
    var run := db.tables.calls[x].runId;
    NameKept(db, x);
    BlockEnds(db, db, x, why, g);
    var noted := NoteOnly(db, x, why, g);
    StuckAfterNote(cfg, dir, db, noted, run, x);
    RunEndsExactly(cfg, dir, noted, run, rs);
  }
}
