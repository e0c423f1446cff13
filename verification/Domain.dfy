/** Closed vocabularies and immutable values shared by every component, and the
    run lifecycle graph. */
module Domain {
  datatype Option<+T> = None | Some(value: T)

  // Instants are microseconds on the UTC time line.  Module TimeText proves that
  // comparing the stored timestamp texts is the same as comparing these numbers.
  type Time = int

  newtype Byte = x: int | 0 <= x < 256
  type Bytes = seq<Byte>

  datatype RunState =
    | Received | Triaged | Planning | AwaitingApproval | Executing | Verifying
    | Completed | Failed | Blocked | Cancelled

  datatype ApprovalStatus =
    | Pending | Approved | Claimed | Consumed | Denied | Expired | Revoked

  datatype CallState =
    | Proposed | PolicyEvaluated | AwaitingOwner | Authorized | Running
    | Succeeded | CallFailed | TimedOut | Uncertain | CallDenied

  // The broker writes call states in upper case, recovery in lower case.
  datatype CallText = CallText(state: CallState, upper: bool)

  datatype RiskClass =
    | LocalRead | ReversibleWorkspaceWrite | ProcessExecution | NetworkAccess | SecretAccess
    | ExternalCommunication | FinancialAction | DestructiveAction | PolicyConfigurationChange

  datatype PriorState = Absent | RegularFile | NotApplicable

  datatype BudgetLimits = BudgetLimits(
    maxProviderCalls: nat, maxTokens: nat, maxBytes: nat, maxRetries: nat, maxRounds: nat,
    maxRecursionDepth: nat, maxConcurrency: nat, maxWallTimeMs: nat, maxLeaseMs: nat,
    maxToolCalls: nat)

  // Everything whose change must invalidate an approval.
  datatype ActionSpec = ActionSpec(
    toolName: string, toolSchemaVersion: string, policyVersion: string,
    requesterId: string, ownerId: string, runId: string, workItemId: Option<string>,
    riskClass: RiskClass, root: string, target: string,
    argumentsJson: string, argumentsSha256: string,
    expectedPriorState: PriorState, overwrite: bool,
    contentSha256: Option<string>, contentLength: Option<nat>,
    budget: BudgetLimits, createdAt: Time, expiresAt: Time, nonce: string)

  const TERMINAL: set<RunState> := {Completed, Failed, Blocked, Cancelled}

  function LegalTransitions(s: RunState): set<RunState> {
    match s
    case Received => {Triaged, Failed, Cancelled}
    case Triaged => {Planning, Blocked, Failed, Cancelled}
    case Planning => {AwaitingApproval, Verifying, Blocked, Failed, Cancelled}
    case AwaitingApproval => {Executing, Blocked, Cancelled}
    case Executing => {Verifying, Blocked, Failed, Cancelled}
    case Verifying => {Completed, Blocked, Failed, Cancelled}
    case Completed => {}
    case Failed => {}
    case Blocked => {}
    case Cancelled => {}
  }

  predicate CanTransition(current: RunState, target: RunState) {
    target in LegalTransitions(current)
  }

  // Distance travelled from RECEIVED; used to bound the length of a lifecycle.
  function Stage(s: RunState): nat {
    match s
    case Received => 0
    case Triaged => 1
    case Planning => 2
    case AwaitingApproval => 3
    case Executing => 4
    case Verifying => 5
    case _ => 6
  }

  /** Every chain of legal edges strictly advances, so it has at most six edges. */
  lemma {:induction false} LifecycleIsBounded(path: seq<RunState>)
    requires path != []
    requires forall i :: 0 <= i < |path| - 1 ==> CanTransition(path[i], path[i + 1])
    ensures |path| - 1 <= Stage(path[|path| - 1]) - Stage(path[0])
    ensures |path| <= 7
  {
    if |path| == 1 {
    } else {
      LifecycleIsBounded(path[..|path| - 1]);
      assert CanTransition(path[|path| - 2], path[|path| - 1]);
    }
  }

  /** Cancellation is legal from exactly the states that are not terminal, and the
      terminal states are exactly those without a legal successor. */
  lemma TerminalStates(s: RunState)
    ensures s in TERMINAL <==> LegalTransitions(s) == {}
    ensures s in TERMINAL <==> !CanTransition(s, Cancelled)
  {
    if s !in TERMINAL {
      assert Cancelled in LegalTransitions(s);
    }
  }

  /** Where each state is entered from: nothing leads back to RECEIVED, effects start only
      from an approval, a run completes only after verification, a failure never ends a
      wait for approval, and a run is blocked at any time but the very start. */
  lemma EnteredFrom(s: RunState, t: RunState)
    ensures CanTransition(s, t) <==>
            match t
            case Received => false
            case Triaged => s == Received
            case Planning => s == Triaged
            case AwaitingApproval => s == Planning
            case Executing => s == AwaitingApproval
            case Verifying => s == Planning || s == Executing
            case Completed => s == Verifying
            case Failed => s !in TERMINAL && s != AwaitingApproval
            case Blocked => s !in TERMINAL && s != Received
            case Cancelled => s !in TERMINAL
  {
  }

  /** On the way to completion a run was verified, and on the way to an effect it waited
      for an approval. */
  lemma {:induction false} CompletionPassesVerification(path: seq<RunState>, i: nat)
    requires i < |path| && path[0] == Received
    requires forall k :: 0 <= k < |path| - 1 ==> CanTransition(path[k], path[k + 1])
    ensures path[i] == Completed ==> i > 0 && path[i - 1] == Verifying
    ensures path[i] == Executing ==> AwaitingApproval in path[..i] && Planning in path[..i] && Triaged in path[..i]
    ensures path[i] == AwaitingApproval ==> Planning in path[..i] && Triaged in path[..i]
    ensures path[i] in {Planning, Verifying} ==> Triaged in path[..i]
  {
    if i > 0 {
      CompletionPassesVerification(path, i - 1);
      assert CanTransition(path[i - 1], path[i]);
      assert path[..i] == path[..i - 1] + [path[i - 1]];
    }
  }
}
