/** How long a run stays where it ended, and when its whole history respects the
    lifecycle graph: both are decided exactly by the cancellations. */
module Lifecycle {
  import opened Domain
  import opened Projections
  import opened Repositories
  import opened Histories
  import opened Invariants
  import opened Replay
  import TextOrder

  // ---------- cancellations in the journal ----------

  predicate Cancels(e: Event, run: string) { e.payload.RunCancelled? && e.runId == run }

  // No cancellation of the run in db' after the journal of db.
  ghost predicate NoCancelSince(db: Db, db': Db, run: string) {
    db.journal <= db'.journal &&
    forall k :: |db.journal| <= k < |db'.journal| ==> !Cancels(db'.journal[k], run)
  }

  // The state of a run that is over, given whether it was cancelled meanwhile.
  ghost predicate EndsAs(db: Db, db': Db, run: string)
    requires run in db.tables.runs
  {
    && db.journal <= db'.journal && run in db'.tables.runs
    && db'.tables.runs[run].state == (if NoCancelSince(db, db', run) then db.tables.runs[run].state else Cancelled)
  }

  ghost predicate Over(db: Db, run: string) { run in db.tables.runs && db.tables.runs[run].state in TERMINAL }

  lemma OverMicro(db: Db, m: Micro, run: string)
    requires Replays(db) && Over(db, run) && Guarded(db, m, true)
    ensures EndsAs(db, Do(db, m), run)
  {
    var db' := Do(db, m);
    match m
    case Add(d) =>
      if Append(db, d).Some? {
        assert db'.journal[|db.journal|] == NextEvent(db.journal, d);
        if TableOf(d.payload).RunsTable? { assert ApplyRun(db.tables.runs, NextEvent(db.journal, d)).Some?; }
      }
    case Open(d, _) =>
    case Refold =>
  }

  lemma EndsTransitive(a: Db, b: Db, c: Db, run: string)
    requires run in a.tables.runs && EndsAs(a, b, run) && EndsAs(b, c, run)
    ensures EndsAs(a, c, run)
  {
    if !NoCancelSince(a, b, run) {
      var k :| |a.journal| <= k < |b.journal| && Cancels(b.journal[k], run);
      assert Cancels(c.journal[k], run);
    }
    if !NoCancelSince(b, c, run) {
      var k :| |b.journal| <= k < |c.journal| && Cancels(c.journal[k], run);
      assert !NoCancelSince(a, c, run);
    }
  }

  lemma {:induction false} OverMicros(db: Db, ms: seq<Micro>, run: string)
    requires Inv(db) && Over(db, run) && AllGuarded(db, ms, true)
    ensures EndsAs(db, DoAll(db, ms), run)
    decreases ms
  {
    hide Inv, Do, Guarded;
    if ms != [] {
      OverMicro(db, ms[0], run) by { assert Replays(db) by { InvReplay(db); } }
      InvMicro(db, ms[0], true);
      OverMicros(Do(db, ms[0]), ms[1..], run);
      EndsTransitive(db, Do(db, ms[0]), DoAll(db, ms), run);
    }
  }

  lemma InvReplay(db: Db)
    requires Inv(db)
    ensures Replays(db)
  {
  }

  /** Where a run ended it stays, unless it is cancelled: in every later history whose
      transitions are checked, a run in COMPLETED, FAILED or BLOCKED is still there if and
      only if no cancellation of it was committed meanwhile; otherwise it is CANCELLED. */
  lemma {:induction false} EndedRunStays(db: Db, ops: seq<Op>, run: string)
    requires Inv(db) && Over(db, run) && forall i :: 0 <= i < |ops| ==> CheckedOp(ops[i])
    ensures EndsAs(db, ExecAll(db, ops), run)
    decreases ops
  {
    hide Inv, Exec, CheckedOp;
    if ops != [] {
      var next := Exec(db, ops[0]).0;
      ExecIsMicros(db, ops[0], true);
      OverMicros(db, Micros(db, ops[0]), run);
      InvExec(db, ops[0], true);
      EndedRunStays(next, ops[1..], run);
      EndsTransitive(db, next, ExecAll(db, ops), run);
    }
  }

  // ---------- the same, by the operations submitted ----------

  predicate Stops(op: Op, run: string) { op.StopRun? && op.run == run && op.actor != "" }

  predicate StopFree(ms: seq<Micro>, run: string) {
    forall i :: 0 <= i < |ms| ==> ms[i].Refold? || !(ms[i].draft.payload.RunCancelled? && ms[i].draft.runId == run)
  }

  lemma OtherStopsAreFree(db: Db, op: Op, run: string)
    requires op.StopRun? && !Stops(op, run)
    ensures StopFree(Micros(db, op), run)
  {
    hide TextOrder.Sorted;
  }

  lemma BatchIsFree(db: Db, op: Op, run: string)
    requires op.Expiry? || op.Ask? || op.RebuildTables?
    ensures StopFree(Micros(db, op), run)
  {
    hide Exec, Append;
  }

  lemma OneEventIsFree(db: Db, op: Op, d: Draft, run: string)
    requires !op.StopRun? && !op.Expiry? && !op.Ask? && !op.RebuildTables?
    requires Append(db, d).Some? && Exec(db, op).0 == Append(db, d).value && GuardedDraft(db, d, false)
    ensures !d.payload.RunCancelled?
  {
    var j := Exec(db, op).0.journal;
    assert j[|j| - 1] == NextEvent(db.journal, d);
  }

  lemma MicrosAreFree(db: Db, op: Op, run: string)
    requires !Stops(op, run)
    ensures StopFree(Micros(db, op), run)
  {
    hide Exec, Append;
    if op.StopRun? {
      OtherStopsAreFree(db, op, run);
    } else if op.Expiry? || op.Ask? || op.RebuildTables? {
      BatchIsFree(db, op, run);
    } else if Exec(db, op).0 != db {
      var d := OneEventOp(db, op, false);
      AppendLast(db, d);
      OneEventIsFree(db, op, d, run);
      assert Micros(db, op) == [Add(d)] by { MicroOf(db, op, d); }
    }
  }

  lemma MicroOf(db: Db, op: Op, d: Draft)
    requires !op.StopRun? && !op.Expiry? && !op.Ask? && !op.RebuildTables?
    requires Append(db, d).Some? && Exec(db, op).0 == Append(db, d).value && Exec(db, op).0 != db
    ensures Micros(db, op) == [Add(d)]
  {
    AppendLast(db, d);
    var j := Exec(db, op).0.journal;
    assert j[|j| - 1] == NextEvent(db.journal, d);
  }

  lemma FreeMicro(db: Db, m: Micro, run: string)
    requires Replays(db) && Guarded(db, m, true)
    requires m.Refold? || !(m.draft.payload.RunCancelled? && m.draft.runId == run)
    ensures NoCancelSince(db, Do(db, m), run)
  {
    if !m.Refold? && Append(db, m.draft).Some? {
      assert Append(db, m.draft).value.journal[|db.journal|] == NextEvent(db.journal, m.draft);
    }
  }

  lemma {:induction false} FreeMicros(db: Db, ms: seq<Micro>, run: string)
    requires Inv(db) && AllGuarded(db, ms, true) && StopFree(ms, run)
    ensures NoCancelSince(db, DoAll(db, ms), run)
    decreases ms
  {
    hide Inv, Do, Guarded;
    if ms != [] {
      FreeMicro(db, ms[0], run) by { assert Replays(db) by { InvReplay(db); } }
      InvMicro(db, ms[0], true);
      FreeMicros(Do(db, ms[0]), ms[1..], run);
    }
  }

  /** ... that is, if and only if nobody submitted a cancellation of it. */
  lemma {:induction false} EndedUnlessStopped(db: Db, ops: seq<Op>, run: string)
    requires Inv(db) && Over(db, run) && run != "" && forall i :: 0 <= i < |ops| ==> CheckedOp(ops[i])
    requires db.tables.runs[run].state != Cancelled
    ensures var end := ExecAll(db, ops);
            && run in end.tables.runs
            && (end.tables.runs[run].state == db.tables.runs[run].state <==>
                forall i :: 0 <= i < |ops| ==> !Stops(ops[i], run))
            && (end.tables.runs[run].state == db.tables.runs[run].state <==> NoCancelSince(db, end, run))
    decreases ops
  {
    hide Inv, Exec, CheckedOp;
    EndedRunStays(db, ops, run);
    if ops != [] {
      var next := Exec(db, ops[0]).0;
      InvExec(db, ops[0], true);
      if Stops(ops[0], run) {
        CancelCommits(db, ops[0], run);
        CancelledForever(next, ops[1..], run);
      } else {
        ExecIsMicros(db, ops[0], true);
        MicrosAreFree(db, ops[0], run);
        FreeMicros(db, Micros(db, ops[0]), run);
        EndedRunStays(db, [ops[0]], run) by { assert [ops[0]][1..] == []; }
        assert ExecAll(db, [ops[0]]) == next by { assert [ops[0]][1..] == []; }
        EndedUnlessStopped(next, ops[1..], run);
        assert forall i :: 0 <= i < |ops[1..]| ==> ops[1..][i] == ops[i + 1];
        assert (forall i :: 0 <= i < |ops| ==> !Stops(ops[i], run)) <==>
               (forall i :: 0 <= i < |ops[1..]| ==> !Stops(ops[1..][i], run)) by { TailStops(ops, run); }
      }
    }
  }

  lemma TailStops(ops: seq<Op>, run: string)
    requires ops != [] && !Stops(ops[0], run)
    ensures (forall i :: 0 <= i < |ops| ==> !Stops(ops[i], run)) <==>
            (forall i :: 0 <= i < |ops[1..]| ==> !Stops(ops[1..][i], run))
  {
    if exists i :: 0 <= i < |ops| && Stops(ops[i], run) {
      var i :| 0 <= i < |ops| && Stops(ops[i], run);
      assert ops[1..][i - 1] == ops[i];
    }
  }

  lemma CancelCommits(db: Db, op: Op, run: string)
    requires Stops(op, run) && run in db.tables.runs && run != ""
    ensures Exec(db, op).1 == Done && IsCancelled(Exec(db, op).0, run)
  {
    CancelRevokes(db, op.run, op.actor, op.why, op.at);
    hide CancelRun;
  }

  // ---------- cancellations along legal edges ----------

  // The cancellation at position k follows an edge of the lifecycle graph too.
  ghost predicate LegalCancelAt(journal: seq<Event>, k: nat)
    requires k < |journal|
  {
    journal[k].payload.RunCancelled? ==>
      Fold(journal[..k]).Some? && journal[k].runId in Fold(journal[..k]).value.runs &&
      CanTransition(Fold(journal[..k]).value.runs[journal[k].runId].state, Cancelled)
  }

  // Every event that moves a run, transition or cancellation, follows the graph.
  ghost predicate FullyLegal(journal: seq<Event>) {
    LegalHistory(journal) && forall k :: 0 <= k < |journal| ==> LegalCancelAt(journal, k)
  }

  // A cancellation this step commits finds its run still under way.
  predicate MicroInTime(db: Db, m: Micro) {
    m.Add? && m.draft.payload.RunCancelled? && Append(db, m.draft).Some? ==>
      m.draft.runId in db.tables.runs && db.tables.runs[m.draft.runId].state !in TERMINAL
  }

  lemma LegalMicroExactly(db: Db, m: Micro)
    requires Inv(db) && FullyLegal(db.journal) && Guarded(db, m, true)
    ensures FullyLegal(Do(db, m).journal) <==> MicroInTime(db, m)
  {
    hide Versioned, ApprovalsBacked, SingleUse, Numbered;
    var j, j' := db.journal, Do(db, m).journal;
    InvMicro(db, m, true) by { hide Replays; }
    if j' != j {
      assert j' == j + [NextEvent(j, m.draft)];
      forall k | 0 <= k < |j| ensures LegalCancelAt(j', k) {
        assert j'[..k] == j[..k];
        assert LegalCancelAt(j, k);
      }
      assert j'[..|j|] == j;
      if m.draft.payload.RunCancelled? {
        CommittedCancel(db, m);
        TerminalStates(db.tables.runs[m.draft.runId].state);
        assert LegalCancelAt(j', |j|) <==> MicroInTime(db, m);
      }
    }
  }

  lemma CommittedCancel(db: Db, m: Micro)
    requires !m.Refold? && m.draft.payload.RunCancelled? && Do(db, m).journal != db.journal
    ensures m.Add? && Append(db, m.draft).Some? && m.draft.runId in db.tables.runs
  {
    assert m.Add?;
    assert ApplyRun(db.tables.runs, NextEvent(db.journal, m.draft)).Some?;
  }

  lemma LegalPrefix(j: seq<Event>, j': seq<Event>)
    requires j <= j' && FullyLegal(j')
    ensures FullyLegal(j)
  {
    forall k | 0 <= k < |j| ensures LegalAt(j, k) && LegalCancelAt(j, k) {
      assert LegalAt(j', k) && LegalCancelAt(j', k) && j'[..k] == j[..k];
    }
  }

  predicate MicrosInTime(db: Db, ms: seq<Micro>)
    decreases ms
  {
    ms == [] || (MicroInTime(db, ms[0]) && MicrosInTime(Do(db, ms[0]), ms[1..]))
  }

  lemma DoGrows(db: Db, m: Micro)
    requires Replays(db) && Guarded(db, m, true)
    ensures db.journal <= Do(db, m).journal
  {
  }

  lemma {:induction false} DoAllGrows(db: Db, ms: seq<Micro>)
    requires Inv(db) && AllGuarded(db, ms, true)
    ensures db.journal <= DoAll(db, ms).journal
    decreases ms
  {
    hide Inv, Do, Guarded;
    if ms != [] {
      DoGrows(db, ms[0]) by { assert Replays(db) by { InvReplay(db); } }
      InvMicro(db, ms[0], true);
      DoAllGrows(Do(db, ms[0]), ms[1..]);
    }
  }

  lemma {:induction false} LegalMicrosExactly(db: Db, ms: seq<Micro>)
    requires Inv(db) && FullyLegal(db.journal) && AllGuarded(db, ms, true)
    ensures FullyLegal(DoAll(db, ms).journal) <==> MicrosInTime(db, ms)
    decreases ms
  {
    hide Inv, Do, Guarded, FullyLegal, MicroInTime;
    if ms != [] {
      LegalMicroExactly(db, ms[0]);
      InvMicro(db, ms[0], true);
      if MicroInTime(db, ms[0]) {
        LegalMicrosExactly(Do(db, ms[0]), ms[1..]);
      } else {
        DoAllGrows(Do(db, ms[0]), ms[1..]);
        if FullyLegal(DoAll(db, ms).journal) { LegalPrefix(Do(db, ms[0]).journal, DoAll(db, ms).journal); }
      }
    }
  }

  // The cancellation that this operation commits, if it is one, finds its run under way.
  predicate InTime(db: Db, op: Op) {
    op.StopRun? && Exec(db, op).1 == Done ==>
      op.run in db.tables.runs && db.tables.runs[op.run].state !in TERMINAL
  }

  lemma {:induction false} NoCancelsInTime(db: Db, ms: seq<Micro>)
    requires forall i :: 0 <= i < |ms| ==> ms[i].Refold? || !ms[i].draft.payload.RunCancelled?
    ensures MicrosInTime(db, ms)
    decreases ms
  {
    hide Do;
    if ms != [] { NoCancelsInTime(Do(db, ms[0]), ms[1..]); }
  }

  lemma StopInTime(db: Db, op: Op)
    requires op.StopRun?
    ensures MicrosInTime(db, Micros(db, op)) <==> InTime(db, op)
  {
    CancelRevokes(db, op.run, op.actor, op.why, op.at);
    var ms := Micros(db, op);
    if Exec(db, op).1 == Done {
      StopMicros(db, op);
      NoCancelsInTime(Do(db, ms[0]), ms[1..]) by { hide Do; }
    } else {
      assert ms == [];
    }
  }

  lemma StopMicros(db: Db, op: Op)
    requires op.StopRun? && Exec(db, op).1 == Done
    ensures var ms := Micros(db, op);
            && ms != [] && ms[0] == Add(Draft(op.run, op.actor, op.at, RunCancelled(op.why)))
            && Append(db, ms[0].draft).Some?
            && forall i :: 0 <= i < |ms[1..]| ==> ms[1..][i].Refold? || !ms[1..][i].draft.payload.RunCancelled?
  {
    hide TextOrder.Sorted, LiveApprovals;
    StopChanges(db, op);
  }

  lemma StopChanges(db: Db, op: Op)
    requires op.StopRun? && Exec(db, op).1 == Done
    ensures Exec(db, op).0 != db
  {
    hide TextOrder.Sorted, LiveApprovals, Append;
    var first := Append(db, Draft(op.run, op.actor, op.at, RunCancelled(op.why))).value;
    AppendGrows(db, Draft(op.run, op.actor, op.at, RunCancelled(op.why)));
    AppendAllGrows(first, Revocations(TextOrder.Sorted(LiveApprovals(first.tables, op.run)), op.run, op.actor, op.at));
  }

  lemma AppendGrows(db: Db, d: Draft)
    requires Append(db, d).Some?
    ensures |Append(db, d).value.journal| == |db.journal| + 1
  {
  }

  lemma {:induction false} AppendAllGrows(db: Db, drafts: seq<Draft>)
    requires AppendAll(db, drafts).Some?
    ensures |AppendAll(db, drafts).value.journal| == |db.journal| + |drafts|
    decreases drafts
  {
    hide Append;
    if drafts != [] {
      AppendGrows(db, drafts[0]);
      AppendAllGrows(Append(db, drafts[0]).value, drafts[1..]);
    }
  }

  lemma LegalOpExactly(db: Db, op: Op)
    requires Inv(db) && FullyLegal(db.journal) && CheckedOp(op)
    ensures FullyLegal(Exec(db, op).0.journal) <==> InTime(db, op)
  {
    hide Inv, FullyLegal, Exec, Micros, MicrosInTime;
    ExecIsMicros(db, op, true);
    LegalMicrosExactly(db, Micros(db, op));
    if op.StopRun? {
      StopInTime(db, op);
    } else {
      OthersCancelNothing(db, op);
      NoCancelsInTime(db, Micros(db, op));
    }
  }

  lemma OthersCancelNothing(db: Db, op: Op)
    requires !op.StopRun?
    ensures var ms := Micros(db, op);
            forall i :: 0 <= i < |ms| ==> ms[i].Refold? || !ms[i].draft.payload.RunCancelled?
  {
    hide Micros, Exec;
    var ms := Micros(db, op);
    forall i | 0 <= i < |ms| ensures ms[i].Refold? || !ms[i].draft.payload.RunCancelled? {
      if !ms[i].Refold? { MicrosAreFree(db, op, ms[i].draft.runId); }
    }
  }

  // Every cancellation that commits finds its run under way.
  predicate CancelledInTime(db: Db, ops: seq<Op>)
    decreases ops
  {
    ops == [] || (InTime(db, ops[0]) && CancelledInTime(Exec(db, ops[0]).0, ops[1..]))
  }

  /** Exactly when a whole run history respects the lifecycle graph, cancellations
      included: when every committed cancellation found its run not yet terminal. */
  lemma {:induction false} LegalIffCancelledInTime(db: Db, ops: seq<Op>)
    requires Inv(db) && FullyLegal(db.journal) && forall i :: 0 <= i < |ops| ==> CheckedOp(ops[i])
    ensures FullyLegal(ExecAll(db, ops).journal) <==> CancelledInTime(db, ops)
    decreases ops
  {
    hide Inv, FullyLegal, Exec, CheckedOp, InTime;
    if ops != [] {
      var next := Exec(db, ops[0]).0;
      LegalOpExactly(db, ops[0]);
      InvExec(db, ops[0], true);
      if InTime(db, ops[0]) {
        LegalIffCancelledInTime(next, ops[1..]);
      } else {
        ExecAllGrows(next, ops[1..]);
        if FullyLegal(ExecAll(db, ops).journal) { LegalPrefix(next.journal, ExecAll(db, ops).journal); }
      }
    }
  }

  lemma {:induction false} ExecAllGrows(db: Db, ops: seq<Op>)
    requires Inv(db) && forall i :: 0 <= i < |ops| ==> CheckedOp(ops[i])
    ensures db.journal <= ExecAll(db, ops).journal
    decreases ops
  {
    hide Inv, Exec, CheckedOp;
    if ops != [] {
      ExecIsMicros(db, ops[0], true);
      DoAllGrows(db, Micros(db, ops[0]));
      InvExec(db, ops[0], true);
      ExecAllGrows(Exec(db, ops[0]).0, ops[1..]);
    }
  }

  /** The cancel of the run repository checks no state: it commits on every existing run,
      and it keeps a legal history legal exactly when the run is not over yet. */
  lemma CancelEdge(db: Db, run: string, actor: string, why: string, at: Time)
    requires Inv(db) && FullyLegal(db.journal)
    requires run in db.tables.runs && run != "" && actor != ""
    ensures CancelRun(db, run, actor, why, at).1 == Done
    ensures FullyLegal(CancelRun(db, run, actor, why, at).0.journal) <==> db.tables.runs[run].state !in TERMINAL
  {
    hide Inv, FullyLegal;
    CancelRevokes(db, run, actor, why, at);
    LegalOpExactly(db, StopRun(run, actor, why, at));
  }
}
