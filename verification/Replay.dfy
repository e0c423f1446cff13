/** Theorems about whole histories of repository operations: replay equals live
    state, rebuilding removes executable authority, cancellation is final. */
module Replay {
  import opened Domain
  import opened Projections
  import opened Repositories
  import opened Histories
  import opened Invariants
  import TextOrder

  /** After any history of operations, including those that rolled back, the seven
      rebuildable tables equal the fold of the journal except for the private action
      columns; sequences have no gaps, versions count run-state events, and every
      approval was claimed and consumed at most once. */
  lemma ReplayEqualsLive(ops: seq<Op>)
    ensures var db := ExecAll(EMPTY_DB, ops);
            && Fold(db.journal).Some?
            && SameExceptActions(Fold(db.journal).value, db.tables)
            && Numbered(db.journal) && Versioned(db) && SingleUse(db) && ApprovalsBacked(db)
  {
    InvEmpty();
    InvExecAll(EMPTY_DB, ops, false);
  }

  // A row that comes from the journal alone never carries the exact action.
  lemma {:induction false} FoldIsMetadata(journal: seq<Event>)
    requires Fold(journal).Some?
    ensures forall id :: id in Fold(journal).value.approvals ==> Fold(journal).value.approvals[id].action.Metadata?
  {
    if journal != [] {
      var before, e := journal[..|journal| - 1], journal[|journal| - 1];
      FoldIsMetadata(before);
      var t := Fold(before).value;
      if TableOf(e.payload).ApprovalsTable? {
        assert ApplyApproval(t.approvals, e).Some?;
      }
    }
  }

  // ---------- authority that can never be exercised again ----------

  predicate Barred(db: Db, id: string) {
    id in db.tables.approvals &&
    (db.tables.approvals[id].action.Metadata? || db.tables.approvals[id].status !in {Pending, Approved})
  }

  predicate UsesAuthority(e: Event, id: string) {
    e.payload == ApprovalApproved(id) || (e.payload.ApprovalClaimed? && e.payload.approvalId == id)
  }

  lemma BarredAdd(db: Db, d: Draft, id: string)
    requires Barred(db, id) && GuardedDraft(db, d, false) && Append(db, d).Some?
    ensures Barred(Append(db, d).value, id) && !UsesAuthority(NextEvent(db.journal, d), id)
  {
    if TableOf(d.payload).ApprovalsTable? {
      assert ApplyApproval(db.tables.approvals, NextEvent(db.journal, d)).Some?;
    }
  }

  lemma BarredOpen(db: Db, d: Draft, id: string)
    requires Barred(db, id) && d.payload.ApprovalRequested? && Append(db, d).Some?
    ensures Barred(Append(db, d).value, id) && d.payload.approvalId != id
  {
    assert ApplyApproval(db.tables.approvals, NextEvent(db.journal, d)).Some?;
  }

  lemma BarredMicro(db: Db, m: Micro, id: string)
    requires Replays(db) && Barred(db, id) && Guarded(db, m, false)
    ensures Barred(Do(db, m), id)
    ensures db.journal <= Do(db, m).journal
    ensures forall k :: |db.journal| <= k < |Do(db, m).journal| ==> !UsesAuthority(Do(db, m).journal[k], id)
  {
    hide GuardedDraft, Apply;
    match m
    case Add(d) => if Append(db, d).Some? { BarredAdd(db, d, id); }
    case Open(d, _) => if Append(db, d).Some? { BarredOpen(db, d, id); }
    case Refold =>
      var t := Fold(db.journal).value;
      FoldIsMetadata(db.journal);
      assert id in t.approvals;
  }

  lemma {:induction false} BarredMicros(db: Db, ms: seq<Micro>, id: string)
    requires Inv(db) && Barred(db, id) && AllGuarded(db, ms, false)
    ensures Barred(DoAll(db, ms), id)
    ensures db.journal <= DoAll(db, ms).journal
    ensures forall k :: |db.journal| <= k < |DoAll(db, ms).journal| ==>
              !UsesAuthority(DoAll(db, ms).journal[k], id)
    decreases ms
  {
    if ms != [] {
      BarredMicro(db, ms[0], id);
      InvMicro(db, ms[0], false);
      BarredMicros(Do(db, ms[0]), ms[1..], id);
    }
  }

  /** A barred approval stays barred, and no later event approves or claims it. */
  lemma {:induction false} BarredForever(db: Db, ops: seq<Op>, id: string)
    requires Inv(db) && Barred(db, id)
    ensures Barred(ExecAll(db, ops), id)
    ensures db.journal <= ExecAll(db, ops).journal
    ensures forall k :: |db.journal| <= k < |ExecAll(db, ops).journal| ==>
              !UsesAuthority(ExecAll(db, ops).journal[k], id)
    decreases ops
  {
    if ops != [] {
      ExecIsMicros(db, ops[0], false);
      BarredMicros(db, Micros(db, ops[0]), id);
      InvExec(db, ops[0], false);
      BarredForever(Exec(db, ops[0]).0, ops[1..], id);
    }
  }

  // Neither approve nor claim succeeds on the approval, whoever calls it and when.
  ghost predicate Refused(db: Db, id: string) {
    && (forall owner, at :: Approve(db, id, owner, at).1 != Done)
    && (forall c: ClaimArgs :: c.approvalId == id ==> Claim(db, c).1 != Done)
  }

  lemma BarredIsRefused(db: Db, id: string)
    requires Barred(db, id)
    ensures Refused(db, id)
  {
  }

  lemma RebuildBars(live: Db, id: string)
    requires Inv(live) && id in live.tables.approvals
    ensures Rebuild(live).1 == Done && SameExceptActions(Rebuild(live).0.tables, live.tables)
    ensures Rebuild(live).0.journal == live.journal
    ensures Inv(Rebuild(live).0) && Barred(Rebuild(live).0, id)
  {
    FoldIsMetadata(live.journal);
    InvMicro(live, Refold, false);
  }

  /** Rebuilding after any history never raises, reproduces the live tables, and
      leaves every approval unavailable: whatever operations follow, none of those
      approvals is ever approved or claimed, and both are refused ever after. */
  lemma RebuildRemovesAuthority(before: seq<Op>, after: seq<Op>, id: string)
    requires id in ExecAll(EMPTY_DB, before).tables.approvals
    ensures var live := ExecAll(EMPTY_DB, before);
            var rebuilt := Rebuild(live);
            var later := ExecAll(rebuilt.0, after);
            && rebuilt.1 == Done && SameExceptActions(rebuilt.0.tables, live.tables)
            && Barred(later, id) && Refused(later, id) && rebuilt.0.journal == live.journal <= later.journal
            && forall k :: |live.journal| <= k < |later.journal| ==> !UsesAuthority(later.journal[k], id)
  {
    var live := ExecAll(EMPTY_DB, before);
    InvEmpty();
    InvExecAll(EMPTY_DB, before, false);
    RebuildBars(live, id);
    BarredForever(Rebuild(live).0, after, id);
    BarredIsRefused(ExecAll(Rebuild(live).0, after), id);
    hide Approve, Claim;
  }

  // ---------- cancellation ----------

  // Revoked at a moment; what the approval binds is as it was.
  predicate RevokedFrom(row: ApprovalRow, row': ApprovalRow, at: Time) {
    row' == row.(status := Revoked, decidedAt := Some(at), version := row.version + 1, lastSequence := row'.lastSequence)
  }

  // The effect of a list of revocations: exactly the listed rows change, to Revoked.
  lemma {:induction false} RevocationsApply(db: Db, ids: seq<string>, run: string, actor: string, at: Time)
    requires run != "" && actor != ""
    requires TextOrder.Ascending(ids)
    requires forall i :: 0 <= i < |ids| ==> HasStatus(db.tables.approvals, ids[i], {Pending, Approved})
    ensures var r := AppendAll(db, Revocations(ids, run, actor, at));
            && r.Some? && r.value.tables == db.tables.(approvals := r.value.tables.approvals)
            && |r.value.journal| == |db.journal| + |ids| && db.journal <= r.value.journal
            && r.value.tables.approvals.Keys == db.tables.approvals.Keys
            && forall a :: a in db.tables.approvals ==>
                 if a in ids then RevokedFrom(db.tables.approvals[a], r.value.tables.approvals[a], at)
                 else r.value.tables.approvals[a] == db.tables.approvals[a]
    decreases ids
  {
    if ids != [] {
      var rest := ids[1..];
      assert Revocations(ids, run, actor, at)[1..] == Revocations(rest, run, actor, at);
      var next := Append(db, Draft(run, actor, at, ApprovalCancelled(ids[0]))).value;
      assert next.tables.approvals.Keys == db.tables.approvals.Keys;
      forall i | 0 <= i < |rest| ensures HasStatus(next.tables.approvals, rest[i], {Pending, Approved}) {
        assert TextOrder.Less(ids[0], ids[i + 1]);
        assert HasStatus(db.tables.approvals, ids[i + 1], {Pending, Approved});
      }
      assert TextOrder.Ascending(rest);
      RevocationsApply(next, rest, run, actor, at);
      forall i | 0 <= i < |rest| ensures rest[i] != ids[0] {
        assert TextOrder.Less(ids[0], ids[i + 1]);
      }
    }
  }

  // Over for that reason, at that moment, and without a lease.
  predicate CancelledFrom(row: RunRow, row': RunRow, why: string, at: Time) {
    row' == row.(state := Cancelled, version := row.version + 1, updatedAt := at, cancelledAt := Some(at),
                 terminalReason := Some(why), leaseExpiresAt := None, lastSequence := row'.lastSequence)
  }

  /** What a committed cancellation leaves: the run row over for the given reason, each live
      approval of the run revoked as it was bound, one event for the run and one for each
      of them, and every other row as it was. */
  lemma CancelMeans(db: Db, run: string, actor: string, why: string, at: Time)
    ensures var r := CancelRun(db, run, actor, why, at);
            && (r.1 == Done <==> run in db.tables.runs && run != "" && actor != "")
            && (r.1 != Done ==> r.0 == db)
            && (r.1 == Done ==>
                  && run in r.0.tables.runs && r.0.tables.runs[run].state == Cancelled
                  && CancelledFrom(db.tables.runs[run], r.0.tables.runs[run], why, at)
                  && r.0.tables == db.tables.(runs := db.tables.runs[run := r.0.tables.runs[run]],
                                              approvals := r.0.tables.approvals)
                  && db.journal < r.0.journal && |r.0.journal| == |db.journal| + 1 + |LiveApprovals(db.tables, run)|
                  && r.0.journal[|db.journal|].payload == RunCancelled(why)
                  && r.0.tables.approvals.Keys == db.tables.approvals.Keys
                  && forall a :: a in db.tables.approvals ==>
                       if a in LiveApprovals(db.tables, run)
                       then RevokedFrom(db.tables.approvals[a], r.0.tables.approvals[a], at)
                       else r.0.tables.approvals[a] == db.tables.approvals[a])
  {
    var first := Append(db, Draft(run, actor, at, RunCancelled(why)));
    if first.Some? {
      var ids := TextOrder.Sorted(LiveApprovals(first.value.tables, run));
      assert first.value.tables.approvals == db.tables.approvals;
      forall i | 0 <= i < |ids| ensures HasStatus(first.value.tables.approvals, ids[i], {Pending, Approved}) {
        assert ids[i] in ids;
      }
      RevocationsApply(first.value, ids, run, actor, at);
    }
  }

  /** Cancelling a run succeeds exactly when the run exists (and names are not
      empty), leaves it CANCELLED, revokes every live approval of that run and
      changes no other approval. */
  lemma CancelRevokes(db: Db, run: string, actor: string, why: string, at: Time)
    ensures var r := CancelRun(db, run, actor, why, at);
            && (r.1 == Done <==> run in db.tables.runs && run != "" && actor != "")
            && (r.1 != Done ==> r.0 == db)
            && (r.1 == Done ==>
                  && run in r.0.tables.runs && r.0.tables.runs[run].state == Cancelled
                  && r.0.tables.approvals.Keys == db.tables.approvals.Keys
                  && forall a :: a in db.tables.approvals ==>
                       if a in LiveApprovals(db.tables, run) then r.0.tables.approvals[a].status == Revoked
                       else r.0.tables.approvals[a] == db.tables.approvals[a])
  {
    hide CancelRun;
    CancelMeans(db, run, actor, why, at);
  }

  predicate IsCancelled(db: Db, run: string) {
    run in db.tables.runs && db.tables.runs[run].state == Cancelled
  }

  lemma CancelledMicro(db: Db, m: Micro, run: string)
    requires Replays(db) && IsCancelled(db, run) && Guarded(db, m, true)
    ensures IsCancelled(Do(db, m), run)
    ensures db.journal <= Do(db, m).journal
    ensures forall k :: |db.journal| <= k < |Do(db, m).journal| ==>
              !(Do(db, m).journal[k].runId == run && Do(db, m).journal[k].payload.RunStateChanged?)
  {
    match m
    case Add(d) => if TableOf(d.payload).RunsTable? && Append(db, d).Some? {
        assert ApplyRun(db.tables.runs, NextEvent(db.journal, d)).Some?;
      }
    case Open(d, _) =>
    case Refold =>
  }

  lemma {:induction false} CancelledMicros(db: Db, ms: seq<Micro>, run: string)
    requires Inv(db) && IsCancelled(db, run) && AllGuarded(db, ms, true)
    ensures IsCancelled(DoAll(db, ms), run)
    ensures db.journal <= DoAll(db, ms).journal
    ensures forall k :: |db.journal| <= k < |DoAll(db, ms).journal| ==>
              !(DoAll(db, ms).journal[k].runId == run && DoAll(db, ms).journal[k].payload.RunStateChanged?)
    decreases ms
  {
    if ms != [] {
      CancelledMicro(db, ms[0], run);
      InvMicro(db, ms[0], true);
      CancelledMicros(Do(db, ms[0]), ms[1..], run);
    }
  }

  lemma {:induction false} CancelledForever(db: Db, ops: seq<Op>, run: string)
    requires Inv(db) && IsCancelled(db, run)
    requires forall i :: 0 <= i < |ops| ==> CheckedOp(ops[i])
    ensures IsCancelled(ExecAll(db, ops), run)
    ensures db.journal <= ExecAll(db, ops).journal
    ensures forall k :: |db.journal| <= k < |ExecAll(db, ops).journal| ==>
              !(ExecAll(db, ops).journal[k].runId == run && ExecAll(db, ops).journal[k].payload.RunStateChanged?)
    decreases ops
  {
    if ops != [] {
      ExecIsMicros(db, ops[0], true);
      CancelledMicros(db, Micros(db, ops[0]), run);
      InvExec(db, ops[0], true);
      CancelledForever(Exec(db, ops[0]).0, ops[1..], run);
    }
  }

  // No RunStateChanged of the run in db' after the journal of db.
  ghost predicate Quiet(db: Db, db': Db, run: string) {
    db.journal <= db'.journal &&
    forall k :: |db.journal| <= k < |db'.journal| ==>
      !(db'.journal[k].runId == run && db'.journal[k].payload.RunStateChanged?)
  }

  // Neither approved nor claimed in db' after the journal of db.
  ghost predicate Unused(db: Db, db': Db, id: string) {
    db.journal <= db'.journal &&
    forall k :: |db.journal| <= k < |db'.journal| ==> !UsesAuthority(db'.journal[k], id)
  }

  lemma CancelStep(live: Db, cancel: Op, id: string)
    requires Inv(live) && cancel.StopRun? && Exec(live, cancel).1 == Done
    ensures Inv(Exec(live, cancel).0) && IsCancelled(Exec(live, cancel).0, cancel.run)
    ensures var db := Exec(live, cancel).0;
            (id in db.tables.approvals && db.tables.approvals[id].runId == cancel.run) ==> Barred(db, id)
  {
    InvExec(live, cancel, false);
    CancelRevokes(live, cancel.run, cancel.actor, cancel.why, cancel.at);
  }

  /** Once a RunCancelled of an existing run commits, then in every later history in
      which run transitions are the checked ones (however stale the state they were
      checked on), no transition of that run commits, the run stays CANCELLED, and no
      approval of that run existing at the cancel is ever approved or claimed. */
  lemma CancellationIsFinal(before: seq<Op>, cancel: Op, after: seq<Op>, id: string)
    requires cancel.StopRun?
    requires forall i :: 0 <= i < |after| ==> CheckedOp(after[i])
    requires Exec(ExecAll(EMPTY_DB, before), cancel).1 == Done
    ensures var db := Exec(ExecAll(EMPTY_DB, before), cancel).0;
            && IsCancelled(ExecAll(db, after), cancel.run)
            && Quiet(db, ExecAll(db, after), cancel.run)
            && ((id in db.tables.approvals && db.tables.approvals[id].runId == cancel.run) ==>
                  Unused(db, ExecAll(db, after), id))
  {
    var live := ExecAll(EMPTY_DB, before);
    InvEmpty();
    InvExecAll(EMPTY_DB, before, false);
    CancelStep(live, cancel, id);
    var db := Exec(live, cancel).0;
    CancelledForever(db, after, cancel.run);
    if Barred(db, id) { BarredForever(db, after, id); }
  }

  // ---------- run histories ----------

  /** In every history whose transitions were checked, however stale the read they
      were checked on, each committed RunStateChanged follows a legal edge from the
      state at its commit. */
  lemma TransitionsAreLegal(ops: seq<Op>)
    requires forall i :: 0 <= i < |ops| ==> CheckedOp(ops[i])
    ensures LegalHistory(ExecAll(EMPTY_DB, ops).journal)
  {
    InvEmpty();
    InvExecAll(EMPTY_DB, ops, true);
  }

  /** A transition that expects a state and a version commits only if no run-state
      event of that run was committed since that version was read. */
  lemma NoLostUpdate(before: seq<Op>, between: seq<Op>, run: string, target: RunState, actor: string,
                     reason: Option<string>, lease: Option<Time>, at: Time)
    requires run in ExecAll(EMPTY_DB, before).tables.runs
    ensures var read := ExecAll(EMPTY_DB, before);
            var row := read.tables.runs[run];
            var now := ExecAll(read, between);
            Transition(now, run, target, actor, Some(row.state), Some(row.version), reason, lease, at).1 == Done
            ==> StateEvents(now.journal, run) == StateEvents(read.journal, run)
  {
    InvEmpty();
    InvExecAll(EMPTY_DB, before, false);
    InvExecAll(ExecAll(EMPTY_DB, before), between, false);
  }
}
