/** Startup recovery of interrupted writes: which operations it submits, as a function
    of the database, the sandbox it observes and the stop latch it reads. */
module Recovery {
  import opened Domain
  import opened Projections
  import opened Repositories
  import opened Actions
  import opened Files
  import Paths
  import Policy
  import TextOrder
  import Utf8

  const ACTOR := "system:recovery"

  // The configuration recovery runs under; digest is action_digest.
  datatype Settings = Settings(hash: Hash, fold: Paths.Fold, digest: ActionSpec -> string, sandbox: string,
                               maxReadBytes: nat, leaseTime: nat)

  // What one call's recovery reads from outside the database: the clock at each of its
  // writes, the stop latch at each of its tests, and the sandbox when it looks.
  datatype Glance = Glance(now: nat -> Time, stopped: nat -> bool, dir: Directory)

  // ---------- selection ----------

  predicate BlockedIn(journal: seq<Event>, call: string) {
    exists k :: 0 <= k < |journal| && journal[k].payload.RecoveryBlocked? && journal[k].payload.callId == call
  }

  // lower(state) IN ('running', 'uncertain')
  predicate Interrupted(row: CallRow) { row.state.state in {Running, Uncertain} }

  predicate Selected(db: Db, call: string) {
    call in db.tables.calls && Interrupted(db.tables.calls[call]) && !BlockedIn(db.journal, call)
  }

  function Selection(db: Db): set<string> { set c | c in db.tables.calls && Selected(db, c) }

  // ORDER BY last_sequence, call_id
  predicate Earlier(calls: map<string, CallRow>, a: string, b: string)
    requires a in calls && b in calls
  {
    || calls[a].lastSequence < calls[b].lastSequence
    || (calls[a].lastSequence == calls[b].lastSequence && TextOrder.Leq(a, b))
  }

  predicate IsFirst(calls: map<string, CallRow>, s: set<string>, a: string)
    requires s <= calls.Keys
  {
    a in s && forall b :: b in s ==> Earlier(calls, a, b)
  }

  lemma {:induction false} FirstExists(calls: map<string, CallRow>, s: set<string>) returns (a: string)
    requires s != {} && s <= calls.Keys
    ensures IsFirst(calls, s, a)
    decreases s
  {
    var x :| x in s;
    TextOrder.LeqTotal(x, x);
    if s == {x} {
      a := x;
    } else {
      var y := FirstExists(calls, s - {x});
      TextOrder.LeqTotal(x, y);
      if Earlier(calls, x, y) {
        a := x;
        forall z | z in s ensures Earlier(calls, x, z) {
          if z != x {
            assert z in s - {x};
            assert Earlier(calls, y, z);
            if calls[x].lastSequence == calls[z].lastSequence { TextOrder.LeqTransitive(x, y, z); }
          }
        }
      } else {
        a := y;
        forall z | z in s ensures Earlier(calls, y, z) {
          if z != x { assert z in s - {x}; }
        }
      }
    }
  }

  lemma FirstUnique(calls: map<string, CallRow>, s: set<string>)
    requires s != {} && s <= calls.Keys
    ensures exists a :: IsFirst(calls, s, a)
    ensures forall a, b :: IsFirst(calls, s, a) && IsFirst(calls, s, b) ==> a == b
  {
    var _ := FirstExists(calls, s);
    forall a, b | IsFirst(calls, s, a) && IsFirst(calls, s, b) ensures a == b {
      assert Earlier(calls, a, b) && Earlier(calls, b, a);
      TextOrder.LeqAntisymmetric(a, b);
    }
  }

  function First(calls: map<string, CallRow>, s: set<string>): (a: string)
    requires s != {} && s <= calls.Keys
    ensures IsFirst(calls, s, a)
  {
    FirstUnique(calls, s);
    var a :| IsFirst(calls, s, a);
    a
  }

  function InOrder(calls: map<string, CallRow>, s: set<string>): (q: seq<string>)
    requires s <= calls.Keys
    ensures forall x :: x in s <==> x in q
    ensures |q| == |s| && forall i, j :: 0 <= i < j < |q| ==> q[i] != q[j]
    decreases s
  {
    if s == {} then [] else
    var a := First(calls, s);
    [a] + InOrder(calls, s - {a})
  }

  /** The listing is oldest first: a call comes before another exactly when its last sequence
      is smaller, or the same and its id comes first in text order. */
  lemma {:induction false} ListedByAge(calls: map<string, CallRow>, s: set<string>, i: nat, j: nat)
    requires s <= calls.Keys && i < j < |s|
    ensures Older(calls, InOrder(calls, s)[i], InOrder(calls, s)[j])
    decreases s
  {
    hide Earlier, IsFirst, Older, InOrder, First;
    ListStep(calls, s);
    var q, a := InOrder(calls, s), First(calls, s);
    var rest := InOrder(calls, s - {a});
    assert q[j] == rest[j - 1];
    if i == 0 {
      assert q[j] in rest;
      FirstIsOlder(calls, s, a, q[j]);
    } else {
      assert q[i] == rest[i - 1];
      ListedByAge(calls, s - {a}, i - 1, j - 1);
    }
  }

  lemma ListStep(calls: map<string, CallRow>, s: set<string>)
    requires s <= calls.Keys && s != {}
    ensures InOrder(calls, s) == [First(calls, s)] + InOrder(calls, s - {First(calls, s)})
    ensures IsFirst(calls, s, First(calls, s))
  {
    hide Earlier, IsFirst, First;
  }

  // Last touched before the other, or by the same event and first in text order.
  predicate Older(calls: map<string, CallRow>, a: string, b: string) {
    a in calls && b in calls &&
    (calls[a].lastSequence < calls[b].lastSequence ||
     (calls[a].lastSequence == calls[b].lastSequence && TextOrder.Less(a, b)))
  }

  lemma FirstIsOlder(calls: map<string, CallRow>, s: set<string>, a: string, b: string)
    requires s <= calls.Keys && IsFirst(calls, s, a) && b in s && a != b
    ensures Older(calls, a, b)
  {
    assert Earlier(calls, a, b);
  }

  // _uncertain_calls
  function UncertainCalls(db: Db): seq<string> { InOrder(db.tables.calls, Selection(db)) }

  // ---------- the binding of one call ----------

  datatype Binding = Binding(action: ActionSpec, approvalId: string, claimedBy: string, path: string, content: Bytes)

  // The approval of a call that was claimed by its own requester and still holds the
  // exact action.
  predicate HoldsAuthority(cfg: Settings, row: ApprovalRow) {
    && row.action.Exact? && ValidAction(cfg.hash, row.action.action)
    && row.status in {Claimed, Consumed} && row.claimedBy == Some(row.action.action.requesterId)
  }

  predicate DurableBindingsAgree(cfg: Settings, call: CallRow, row: ApprovalRow, a: ActionSpec) {
    && call.runId == row.runId && call.runId == a.runId && call.toolName == a.toolName
    && call.actionDigest == row.actionDigest && call.actionDigest == cfg.digest(a)
    && row.policyVersion == a.policyVersion
  }

  predicate RecoverableWrite(cfg: Settings, a: ActionSpec) {
    && a.toolName == Policy.WRITE && a.toolSchemaVersion == "1" && a.riskClass == ReversibleWorkspaceWrite
    && a.root == cfg.sandbox && a.expectedPriorState == Absent && !a.overwrite
  }

  predicate PostconditionBound(cfg: Settings, a: ActionSpec) {
    DecodeWrite(a).Some? &&
    var w := DecodeWrite(a).value;
    var content := Utf8.Encode(w.content);
    && Paths.ValidateRelative(cfg.fold, w.path, false).Some?
    && a.target == Paths.TargetText(cfg.sandbox, w.path)
    && |content| <= cfg.maxReadBytes && a.contentLength == Some(|content|)
    && a.contentSha256 == Some(cfg.hash(content))
  }

  // The run of a call.
  function CallRun(db: Db, c: string): string { if c in db.tables.calls then db.tables.calls[c].runId else "" }

  // _binding, None where it raises
  function Bind(cfg: Settings, db: Db, c: string): Option<Binding> {
    if c !in db.tables.calls then None else
    var call := db.tables.calls[c];
    if call.approvalId.None? || call.approvalId.value !in db.tables.approvals then None else
    var row := db.tables.approvals[call.approvalId.value];
    if !HoldsAuthority(cfg, row) then None else
    var a := row.action.action;
    if !DurableBindingsAgree(cfg, call, row, a) || !RecoverableWrite(cfg, a) || !PostconditionBound(cfg, a) then None else
    var w := DecodeWrite(a).value;
    Some(Binding(a, call.approvalId.value, a.requesterId, w.path, Utf8.Encode(w.content)))
  }

  // _observe_exact_postcondition: one link, and the whole content
  predicate Observed(dir: Directory, b: Binding) { Readable(dir, b.path) == Some(b.content) }

  // ---------- the operations ----------

  function ArtifactId(c: string): string { "recovery:" + c }

  function ArtifactOf(cfg: Settings, c: string, b: Binding): Artifact {
    Artifact(Some(c), "sandbox_text", "sandbox/" + b.path, cfg.hash(b.content), |b.content|, "UNVERIFIED")
  }

  // The recorded artifact is the one this recovery would record.
  predicate ArtifactMatches(cfg: Settings, row: ArtifactRow, c: string, run: string, b: Binding) {
    row.runId == run && row.artifact.toolCallId == Some(c) && row.artifact.digest == cfg.hash(b.content) &&
    row.artifact.byteLength == |b.content|
  }

  function MarkOps(db: Db, c: string, g: Glance): seq<Op> {
    if c in db.tables.calls && db.tables.calls[c].state.state == Running then
      [CallStep(c, ACTOR, CallText(Uncertain, false), None,
                Some("process ended before a durable tool result"), g.now(0))]
    else []
  }

  function MoveOp(db: Db, run: string, target: RunState, lease: Option<Time>, at: Time): Op
    requires run in db.tables.runs
  {
    MoveRun(run, target, ACTOR, Some(db.tables.runs[run].state), Some(db.tables.runs[run].version), None, lease, at)
  }

  // _block: the event, then the run unless it is terminal
  function BlockOps(db: Db, c: string, why: string, g: Glance): seq<Op> {
    if c !in db.tables.calls then [] else
    var run := db.tables.calls[c].runId;
    [Record(Draft(run, ACTOR, g.now(5), RecoveryBlocked(c, why)))] +
    if run !in db.tables.runs || db.tables.runs[run].state in TERMINAL then [] else
    [MoveOp(db, run, BlockTarget(db.tables.runs[run].state), None, g.now(6))]
  }

  function BlockTarget(s: RunState): RunState { if CanTransition(s, Blocked) then Blocked else Failed }

  function SpendOps(db: Db, b: Binding, g: Glance): seq<Op> {
    if b.approvalId in db.tables.approvals && db.tables.approvals[b.approvalId].status == Claimed
    then [Use(b.approvalId, b.claimedBy, g.now(1))] else []
  }

  function StoreOps(cfg: Settings, db: Db, c: string, b: Binding, g: Glance): seq<Op> {
    if c !in db.tables.calls || ArtifactId(c) in db.tables.artifacts then [] else
    [Record(Draft(db.tables.calls[c].runId, ACTOR, g.now(2), ArtifactRecorded(ArtifactId(c), ArtifactOf(cfg, c, b))))]
  }

  function AdvanceOps(cfg: Settings, db: Db, run: string, g: Glance): seq<Op> {
    if run in db.tables.runs && db.tables.runs[run].state == Executing
    then [MoveOp(db, run, Verifying, Some(g.now(7) + cfg.leaseTime), g.now(3))] else []
  }

  function FinishOps(cfg: Settings, c: string, b: Binding, g: Glance): seq<Op> {
    [CallStep(c, ACTOR, CallText(Succeeded, false),
              Some(ToolResult(b.path, cfg.hash(b.content), |b.content|, "verified")), None, g.now(4))]
  }

  const INVALID := "persisted_authority_or_effect_invalid"

  // _commit_reconciliation, SUCCEEDED last; a raise inside it blocks what is left.  The
  // conditions are on the database as it is when the commit starts: none of the earlier
  // writes changes what a later test reads, except the run's version.
  function CommitOps(cfg: Settings, db: Db, c: string, b: Binding, g: Glance): seq<Op> {
    if c !in db.tables.calls then [] else
    var run := db.tables.calls[c].runId;
    var spend := SpendOps(db, b, g);
    var id := ArtifactId(c);
    if id in db.tables.artifacts && !ArtifactMatches(cfg, db.tables.artifacts[id], c, run, b) then
      spend + BlockOps(db, c, INVALID, g)
    else
      var stored := spend + StoreOps(cfg, db, c, b, g);
      if run in db.tables.runs && db.tables.runs[run].state == Executing && g.stopped(2) then
        stored + BlockOps(db, c, INVALID, g)
      else
        var advanced := stored + AdvanceOps(cfg, db, run, g);
        if g.stopped(3) then
          var moved := ExecAll(db, AdvanceOps(cfg, db, run, g));
          advanced + BlockOps(moved, c, INVALID, g)
        else advanced + FinishOps(cfg, c, b, g)
  }

  // Why the call cannot be reconciled; None when the commit is entered.
  function Obstacle(cfg: Settings, db: Db, c: string, emergency: bool, g: Glance): Option<string>
    requires c in db.tables.calls
  {
    var b, run := Bind(cfg, db, c), db.tables.calls[c].runId;
    if emergency then Some("emergency_stop_active")
    else if b.None? || run !in db.tables.runs then Some(INVALID)
    else if db.tables.runs[run].state !in {Executing, Verifying} then Some("run_not_recoverable")
    else if g.stopped(0) || g.stopped(1) then Some(INVALID)
    else if !Observed(g.dir, b.value) then Some("exact_postcondition_mismatch")
    else None
  }

  // The body of the loop for one call.
  function ScriptOne(cfg: Settings, db: Db, c: string, emergency: bool, g: Glance): seq<Op> {
    if c !in db.tables.calls then [] else
    var mark := MarkOps(db, c, g);
    var why := Obstacle(cfg, db, c, emergency, g);
    if why.Some? then mark + BlockOps(db, c, why.value, g)
    else mark + CommitOps(cfg, db, c, Bind(cfg, db, c).value, g)
  }

  function ScriptMany(cfg: Settings, db: Db, calls: seq<string>, emergency: bool, gs: string -> Glance): seq<Op>
    decreases calls
  {
    if calls == [] || calls[0] !in db.tables.calls then [] else
    var one := ScriptOne(cfg, db, calls[0], emergency, gs(calls[0]));
    one + ScriptMany(cfg, ExecAll(db, one), calls[1..], emergency, gs)
  }

  /** Everything one recovery submits: overdue approvals expire, then each selected call
      in order is reconciled or blocked. */
  function Script(cfg: Settings, db: Db, emergency: bool, at: Time, gs: string -> Glance): seq<Op> {
    var expired := Exec(db, Expiry(at)).0;
    [Expiry(at)] + ScriptMany(cfg, expired, UncertainCalls(expired), emergency, gs)
  }

  function Recover(cfg: Settings, db: Db, emergency: bool, at: Time, gs: string -> Glance): Db {
    ExecAll(db, Script(cfg, db, emergency, at, gs))
  }
}
