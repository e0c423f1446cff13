/** The closed-world policy decision on an already validated action. */
module Policy {
  import opened Domain
  import opened Actions
  import opened Paths
  import Json
  import Utf8

  datatype Reason =
    | StopRequested | BudgetExhausted | OwnerMismatch | UnknownActor | PolicyVersionMismatch | ActionExpired
    | UnknownTool | ToolSchemaMismatch | RiskMismatch | RootNotAllowed | TargetNotContained | SensitivePath
    | InvalidWriteBinding

  datatype Decision = Deny(reason: Reason) | Allow | RequireApproval

  datatype Context = Context(
    ownerId: string, requesters: set<string>, readRoots: seq<string>, sandboxRoot: string,
    policyVersion: string, now: Time, cancelled: bool, stopped: bool, budgetExhausted: bool)

  // The functions the model takes as given: the hash, str.casefold and the redactor.
  datatype Env = Env(hash: Hash, fold: Fold, redact: string -> string)

  const LIST := "fs.list"
  const READ := "fs.read"
  const WRITE := "sandbox.write_text"

  // SUPPORTED_TOOL_SCHEMAS
  predicate Supported(tool: string) { tool == LIST || tool == READ || tool == WRITE }

  // _common_checks
  function CommonChecks(a: ActionSpec, ctx: Context): Option<Reason> {
    if ctx.cancelled || ctx.stopped then Some(StopRequested)
    else if ctx.budgetExhausted || a.budget.maxToolCalls < 1 then Some(BudgetExhausted)
    else if a.ownerId != ctx.ownerId then Some(OwnerMismatch)
    else if a.requesterId !in ctx.requesters then Some(UnknownActor)
    else if a.policyVersion != ctx.policyVersion then Some(PolicyVersionMismatch)
    else if ctx.now < a.createdAt || ctx.now >= a.expiresAt then Some(ActionExpired)
    else if !Supported(a.toolName) then Some(UnknownTool)
    else if a.toolSchemaVersion != "1" then Some(ToolSchemaMismatch)
    else None
  }

  predicate Within(child: string, roots: seq<string>) {
    exists i :: 0 <= i < |roots| && RelativeTo(Parse(child), Parse(roots[i]))
  }

  // The argument "path" when it is a normalized relative text matching the target.
  function BoundPath(a: ActionSpec, ms: Members): Option<string> {
    var p := Get(ms, "path");
    if p.None? || !p.value.Str? || PolicyRelative(p.value.s).None? || TargetText(a.root, p.value.s) != a.target
    then None else Some(p.value.s)
  }

  // ms are the decoded arguments
  function EvaluateRead(env: Env, a: ActionSpec, ms: Members, ctx: Context): Decision {
    if a.riskClass != LocalRead then Deny(RiskMismatch)
    else if !Within(a.root, ctx.readRoots) then Deny(RootNotAllowed)
    else if KeySet(ms) != (if a.toolName == LIST then {"path"} else {"path", "max_bytes"}) then
      Deny(ToolSchemaMismatch)
    else if BoundPath(a, ms).None? then Deny(TargetNotContained)
    else if IsSensitive(env.fold, BoundPath(a, ms).value) then Deny(SensitivePath)
    else if a.toolName == READ && !WithinBytes(Get(ms, "max_bytes"), a.budget.maxBytes) then Deny(BudgetExhausted)
    else if a.expectedPriorState != NotApplicable || a.overwrite || a.contentSha256.Some? then Deny(RiskMismatch)
    else Allow
  }

  predicate WithinBytes(v: Option<Json.Json>, bound: nat) { v.Some? && v.value.Int? && 0 < v.value.i <= bound }

  function EvaluateWrite(env: Env, a: ActionSpec, ms: Members, ctx: Context): Decision {
    if a.riskClass != ReversibleWorkspaceWrite then Deny(RiskMismatch)
    else if a.root != ctx.sandboxRoot then Deny(RootNotAllowed)
    else if KeySet(ms) != {"path", "content"} then Deny(ToolSchemaMismatch)
    else if BoundPath(a, ms).None? then Deny(TargetNotContained)
    else if IsSensitive(env.fold, BoundPath(a, ms).value) then Deny(SensitivePath)
    else
      var c := Get(ms, "content");
      if c.None? || !c.value.Str? then Deny(InvalidWriteBinding)
      else if env.redact(c.value.s) != c.value.s then Deny(InvalidWriteBinding)
      else
        var payload := Utf8.Encode(c.value.s);
        if a.expectedPriorState != Absent || a.overwrite || a.contentSha256 != Some(env.hash(payload))
           || a.contentLength != Some(|payload|) || |payload| > a.budget.maxBytes
        then Deny(InvalidWriteBinding)
        else RequireApproval
  }

  // evaluate_action
  function Evaluate(env: Env, a: ActionSpec, ctx: Context): Decision
    requires ValidAction(env.hash, a)
  {
    var common := CommonChecks(a, ctx);
    if common.Some? then Deny(common.value)
    else if a.toolName == WRITE then EvaluateWrite(env, a, Arguments(a).value, ctx)
    else EvaluateRead(env, a, Arguments(a).value, ctx)
  }

  // ---------- what a decision means ----------

  // The action binds a relative path that the file layer will accept, below its root.
  ghost predicate BindsContained(env: Env, a: ActionSpec, relative: string) {
    && PolicyRelative(relative).Some? && !IsSensitive(env.fold, relative)
    && ValidateRelative(env.fold, relative, true) == Some((relative, Parse(relative).parts))
    && a.target == TargetText(a.root, relative)
    && Parse(a.target).root == Parse(a.root).root
    && Parse(a.target).parts == Parse(a.root).parts + Parse(relative).parts
    && ['.', '.'] !in Parse(a.target).parts
  }

  /** Nothing passes the policy unless its target is the root followed by a relative,
      non-sensitive path without parent steps, one that the file layer accepts too. */
  lemma DecisionContained(env: Env, a: ActionSpec, ctx: Context)
    requires ValidAction(env.hash, a) && !Evaluate(env, a, ctx).Deny?
    ensures BoundPath(a, Arguments(a).value).Some?
    ensures BindsContained(env, a, BoundPath(a, Arguments(a).value).value)
  {
    hide CommonChecks, Arguments, Parse, TargetText, IsSensitive, ValidateRelative, Get, KeySet, Within, WithinBytes, Utf8.Encode;
    var relative := BoundPath(a, Arguments(a).value).value;
    ValidatorsAgree(env.fold, relative);
    TargetContained(a.root, relative);
  }

  // What the decision asks of every action: nothing stops it, and owner, requester,
  // version, life time and tool are those of the context.
  predicate InForce(a: ActionSpec, ctx: Context) {
    && !ctx.cancelled && !ctx.stopped && !ctx.budgetExhausted && a.budget.maxToolCalls >= 1
    && a.ownerId == ctx.ownerId && a.requesterId in ctx.requesters && a.policyVersion == ctx.policyVersion
    && a.createdAt <= ctx.now < a.expiresAt
    && a.toolName in {"fs.list", "fs.read", "sandbox.write_text"} && a.toolSchemaVersion == "1"
  }

  lemma CommonChecksExact(a: ActionSpec, ctx: Context)
    ensures CommonChecks(a, ctx).None? <==> InForce(a, ctx)
  {
  }

  // The components of one of the roots begin those of the path.
  predicate BelowOne(path: string, roots: seq<string>) {
    exists i :: 0 <= i < |roots| && Parse(roots[i]).root == Parse(path).root && Parse(roots[i]).parts <= Parse(path).parts
  }

  // A read whose every argument is the one its target determines.
  ghost predicate ExactRead(env: Env, a: ActionSpec, ms: Members, roots: seq<string>, path: string) {
    && a.toolName in {"fs.list", "fs.read"} && a.riskClass == LocalRead && BelowOne(a.root, roots)
    && KeySet(ms) == (if a.toolName == "fs.list" then {"path"} else {"path", "max_bytes"})
    && Get(ms, "path") == Some(Json.Str(path)) && PolicyRelative(path).Some? && !IsSensitive(env.fold, path)
    && a.target == TargetText(a.root, path)
    && (a.toolName == "fs.read" ==>
          exists n :: 0 < n <= a.budget.maxBytes && Get(ms, "max_bytes") == Some(Json.Int(n)))
    && a.expectedPriorState == NotApplicable && !a.overwrite && a.contentSha256.None?
  }

  lemma ToolNames()
    ensures LIST == "fs.list" && READ == "fs.read" && WRITE == "sandbox.write_text"
    ensures LIST != READ && LIST != WRITE && READ != WRITE
  {
    assert LIST[3] != READ[3] && |LIST| == 7 && |READ| == 7 && |WRITE| == 18;
  }

  lemma ReadExactly(env: Env, a: ActionSpec, ms: Members, ctx: Context)
    requires a.toolName in {LIST, READ}
    ensures EvaluateRead(env, a, ms, ctx).Allow? <==> exists path :: ExactRead(env, a, ms, ctx.readRoots, path)
  {
    hide Parse, PolicyRelative, IsSensitive, TargetText, KeySet, Get;
    ToolNames();
    assert Within(a.root, ctx.readRoots) <==> BelowOne(a.root, ctx.readRoots);
    if EvaluateRead(env, a, ms, ctx).Allow? {
      var path := BoundPath(a, ms).value;
      assert a.toolName == READ ==> Get(ms, "max_bytes") == Some(Json.Int(Get(ms, "max_bytes").value.i));
      assert ExactRead(env, a, ms, ctx.readRoots, path);
    }
  }

  /** A call is allowed outright exactly when it is a local read in force, on a root below
      a delegated one, with just the arguments of its tool, bound to a normal and
      insensitive path, within its byte budget and without any field of a write. */
  lemma AllowedExactlyForBoundReads(env: Env, a: ActionSpec, ctx: Context)
    requires ValidAction(env.hash, a)
    ensures Evaluate(env, a, ctx).Allow? <==>
            InForce(a, ctx) && exists path :: ExactRead(env, a, Arguments(a).value, ctx.readRoots, path)
  {
    hide CommonChecks, EvaluateRead, EvaluateWrite, Arguments, ExactWrite, BelowOne, Parse, TargetText, PolicyRelative,
         IsSensitive, KeySet, Get, CanonicalAbsolute;
    var ms := Arguments(a).value;
    ToolNames();
    CommonChecksExact(a, ctx);
    if a.toolName == WRITE {
      WriteNeverAllowed(env, a, ms, ctx);
    } else if InForce(a, ctx) {
      ReadExactly(env, a, ms, ctx);
    }
  }

  lemma WriteNeverAllowed(env: Env, a: ActionSpec, ms: Members, ctx: Context)
    ensures !EvaluateWrite(env, a, ms, ctx).Allow?
  {
  }

  /** So whatever is allowed outright stays below a delegated root. */
  lemma AllowedStaysBelow(env: Env, a: ActionSpec, ctx: Context)
    requires ValidAction(env.hash, a) && Evaluate(env, a, ctx).Allow?
    ensures BelowOne(a.target, ctx.readRoots)
  {
    hide CommonChecks, Evaluate, Arguments, Parse, TargetText, IsSensitive, PolicyRelative, Get, KeySet;
    AllowedExactlyForBoundReads(env, a, ctx);
    var path :| ExactRead(env, a, Arguments(a).value, ctx.readRoots, path);
    TargetContained(a.root, path);
  }

  // What is wrong with an action that is denied for a reason.
  ghost predicate Faulty(env: Env, a: ActionSpec, ms: Members, ctx: Context, reason: Reason) {
    match reason
    case StopRequested => ctx.cancelled || ctx.stopped
    case BudgetExhausted =>
      ctx.budgetExhausted || a.budget.maxToolCalls < 1 ||
      (a.toolName == "fs.read" && forall n :: Get(ms, "max_bytes") == Some(Json.Int(n)) ==> n <= 0 || n > a.budget.maxBytes)
    case OwnerMismatch => a.ownerId != ctx.ownerId
    case UnknownActor => a.requesterId !in ctx.requesters
    case PolicyVersionMismatch => a.policyVersion != ctx.policyVersion
    case ActionExpired => ctx.now < a.createdAt || a.expiresAt <= ctx.now
    case UnknownTool => a.toolName !in {"fs.list", "fs.read", "sandbox.write_text"}
    case ToolSchemaMismatch =>
      a.toolSchemaVersion != "1" ||
      KeySet(ms) != (if a.toolName == "fs.list" then {"path"} else if a.toolName == "fs.read" then {"path", "max_bytes"}
                     else {"path", "content"})
    case RiskMismatch =>
      if a.toolName == "sandbox.write_text" then a.riskClass != ReversibleWorkspaceWrite
      else a.riskClass != LocalRead || a.expectedPriorState != NotApplicable || a.overwrite || a.contentSha256.Some?
    case RootNotAllowed =>
      if a.toolName == "sandbox.write_text" then a.root != ctx.sandboxRoot else !BelowOne(a.root, ctx.readRoots)
    case TargetNotContained =>
      forall path :: Get(ms, "path") == Some(Json.Str(path)) && PolicyRelative(path).Some? ==> a.target != TargetText(a.root, path)
    case SensitivePath => exists path :: Get(ms, "path") == Some(Json.Str(path)) && IsSensitive(env.fold, path)
    case InvalidWriteBinding => a.toolName == "sandbox.write_text" && !ExactWrite(env, a, ms, ctx.sandboxRoot)
  }

  /** Every denial names a fault the action really has. */
  lemma DenialNamesAFault(env: Env, a: ActionSpec, ctx: Context)
    requires ValidAction(env.hash, a) && Evaluate(env, a, ctx).Deny?
    ensures Faulty(env, a, Arguments(a).value, ctx, Evaluate(env, a, ctx).reason)
  {
    hide Parse, PolicyRelative, IsSensitive, TargetText, KeySet, Get, Arguments, CanonicalAbsolute, Utf8.Encode;
    var ms := Arguments(a).value;
    ToolNames();
    assert Within(a.root, ctx.readRoots) <==> BelowOne(a.root, ctx.readRoots);
    if CommonChecks(a, ctx).None? && BoundPath(a, ms).Some? {
      assert Get(ms, "path") == Some(Json.Str(BoundPath(a, ms).value));
    }
  }

  // A write whose every binding is the one its arguments determine.
  ghost predicate ExactWrite(env: Env, a: ActionSpec, ms: Members, root: string) {
    && a.toolName == WRITE && a.toolSchemaVersion == "1" && a.riskClass == ReversibleWorkspaceWrite
    && a.root == root && a.expectedPriorState == Absent && !a.overwrite
    && WriteOf(ms).Some?
    && var w := WriteOf(ms).value;
       && PolicyRelative(w.path).Some? && !IsSensitive(env.fold, w.path)
       && a.target == TargetText(a.root, w.path)
       && env.redact(w.content) == w.content
       && a.contentSha256 == Some(env.hash(Utf8.Encode(w.content)))
       && a.contentLength == Some(|Utf8.Encode(w.content)|) && |Utf8.Encode(w.content)| <= a.budget.maxBytes
  }

  lemma PathAndContent(ms: Members)
    requires KeySet(ms) == {"path", "content"}
    ensures Get(ms, "path").Some? && Get(ms, "content").Some?
  {
    GetSome(ms, "path");
    GetSome(ms, "content");
  }

  lemma {:induction false} GetSome(ms: Members, key: string)
    ensures Get(ms, key).Some? <==> key in KeySet(ms)
  {
    if ms != [] {
      GetSome(ms[1..], key);
      if ms[0].0 == key {
        assert key in KeySet(ms);
      } else {
        if key in KeySet(ms) {
          var i :| 0 <= i < |ms| && ms[i].0 == key;
          assert ms[1..][i - 1].0 == key;
        }
        if key in KeySet(ms[1..]) {
          var i :| 0 <= i < |ms[1..]| && ms[1..][i].0 == key;
          assert ms[i + 1].0 == key;
        }
      }
    }
  }

  lemma WriteApproval(env: Env, a: ActionSpec, ms: Members, ctx: Context)
    requires a.toolName == WRITE && a.toolSchemaVersion == "1"
    ensures EvaluateWrite(env, a, ms, ctx).RequireApproval? <==> ExactWrite(env, a, ms, ctx.sandboxRoot)
    ensures !EvaluateWrite(env, a, ms, ctx).Allow?
  {
    if KeySet(ms) == {"path", "content"} { PathAndContent(ms); }
  }

  lemma ReadNeverAsks(env: Env, a: ActionSpec, ms: Members, ctx: Context)
    ensures !EvaluateRead(env, a, ms, ctx).RequireApproval?
    ensures EvaluateRead(env, a, ms, ctx).Allow? ==> a.riskClass == LocalRead
  {
  }

  /** The policy asks for approval exactly for a fully bound write in the sandbox that
      passes the common checks; a write is never simply allowed. */
  lemma ApprovalExactlyForBoundWrites(env: Env, a: ActionSpec, ctx: Context)
    requires ValidAction(env.hash, a)
    ensures Evaluate(env, a, ctx).RequireApproval? <==>
            InForce(a, ctx) && ExactWrite(env, a, Arguments(a).value, ctx.sandboxRoot)
    ensures Evaluate(env, a, ctx).Allow? ==> a.toolName != WRITE && a.riskClass == LocalRead
  {
    var ms := Arguments(a).value;
    CommonChecksExact(a, ctx);
    ReadNeverAsks(env, a, ms, ctx);
    if CommonChecks(a, ctx).None? && a.toolName == WRITE { WriteApproval(env, a, ms, ctx); }
  }
}
