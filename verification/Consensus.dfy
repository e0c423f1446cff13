/** Bounded advisory deliberation: the retry loop around one provider call, the round
    loop, the adjudication of each round, and the accounting of calls and retries. */
module Consensus {
  import opened Domain

  datatype Outcome = Pass | Revise | Escalate

  datatype Role = Steward | Strategist | Skeptic | Synthesizer | LocalCommander | Executor | Verifier

  datatype Proposal = Proposal(objective: string, steps: seq<string>, verification: seq<string>)

  datatype Critique = Critique(concerns: seq<string>, recommendedRevision: Option<string>, material: bool)

  datatype Dissent = Dissent(sourceRole: Role, summary: string, material: bool, resolved: bool)

  datatype Synthesis = Synthesis(outcome: Outcome, recommendation: string, rationale: string,
                                 confidence: nat, accepted: seq<string>, dissent: seq<Dissent>)

  predicate Unresolved(dissent: seq<Dissent>) {
    exists i :: 0 <= i < |dissent| && dissent[i].material && !dissent[i].resolved
  }

  // The validator of Synthesis: a PASS cannot conceal unresolved material dissent.
  predicate ValidSynthesis(s: Synthesis) { s.outcome == Pass ==> !Unresolved(s.dissent) }

  // ---------- adjudication ----------

  datatype Limits = Limits(maxRounds: nat, maxRevisions: nat)

  predicate CanRevise(limits: Limits, round: nat, revisions: nat) {
    round < limits.maxRounds && revisions < limits.maxRevisions
  }

  // enforce_consensus_limits
  function Enforce(requested: Outcome, limits: Limits, round: nat, revisions: nat, disagreement: bool,
                   remediable: bool, veto: bool): Outcome
  {
    if round < 1 || round > limits.maxRounds then Escalate
    else if revisions > limits.maxRevisions then Escalate
    else if veto then Escalate
    else if disagreement then
      (if remediable && CanRevise(limits, round, revisions) then Revise else Escalate)
    else if requested == Revise && !CanRevise(limits, round, revisions) then Escalate
    else requested
  }

  /** adjudicate_consensus.  A PASS survives only when it was asked for and nothing stands
      against it; a revision is granted only within the limits and never under a veto. */
  function Adjudicate(s: Synthesis, c: Critique, limits: Limits, round: nat, revisions: nat, veto: bool): (o: Outcome)
    ensures o == Pass <==> s.outcome == Pass && !veto && !c.material && !Unresolved(s.dissent) &&
                           1 <= round <= limits.maxRounds && revisions <= limits.maxRevisions
    ensures o == Revise <==> !veto && 1 <= round && CanRevise(limits, round, revisions) &&
                             (if c.material || Unresolved(s.dissent) then c.recommendedRevision.Some?
                              else s.outcome == Revise)
    ensures round == limits.maxRounds || revisions == limits.maxRevisions ==> o != Revise
  {
    Enforce(s.outcome, limits, round, revisions, c.material || Unresolved(s.dissent), c.recommendedRevision.Some?, veto)
  }

  // _replace_outcome
  function ReplaceOutcome(s: Synthesis, outcome: Outcome): Synthesis {
    if s.outcome == outcome then s else
    s.(outcome := outcome, recommendation := if outcome == Escalate then ESCALATING else REVISING,
       rationale := s.rationale + ChangeNote(outcome))
  }

  const ESCALATING: string := "Escalate to the owner without executing."
  const REVISING: string := "Perform one bounded revision."

  function ChangeNote(o: Outcome): string {
    " Deterministic consensus limits or policy changed the advisory outcome to " + OutcomeText(o) + "."
  }

  function OutcomeText(o: Outcome): string {
    match o
    case Pass => "pass"
    case Revise => "revise"
    case Escalate => "escalate_to_owner"
  }

  // What adjudication may change of a provider's synthesis: a synthesis that is not the
  // provider's own never passes, gives the advice of its outcome and keeps the provider's
  // reasons in front of its own.
  predicate Derived(s: Synthesis, t: Synthesis) {
    && t.dissent == s.dissent && t.confidence == s.confidence && t.accepted == s.accepted
    && (t == s || (t.outcome != Pass && s.rationale <= t.rationale &&
                   t.recommendation == if t.outcome == Escalate then ESCALATING else REVISING))
  }

  // ---------- retained dissent ----------

  // Appending what is not yet there, in order.
  function Retain(kept: seq<Dissent>, more: seq<Dissent>): seq<Dissent>
    decreases more
  {
    if more == [] then kept
    else Retain(if more[0] in kept then kept else kept + [more[0]], more[1..])
  }

  function RetainedOf(rounds: seq<Synthesis>): seq<Dissent> {
    if rounds == [] then [] else Retain(RetainedOf(rounds[..|rounds| - 1]), rounds[|rounds| - 1].dissent)
  }

  function AllDissent(rounds: seq<Synthesis>): seq<Dissent> {
    if rounds == [] then [] else AllDissent(rounds[..|rounds| - 1]) + rounds[|rounds| - 1].dissent
  }

  predicate NoDuplicates(s: seq<Dissent>) { forall i, j :: 0 <= i < j < |s| ==> s[i] != s[j] }

  // The position of the first appearance.
  function FirstAt(s: seq<Dissent>, d: Dissent): nat
    requires d in s
  {
    if s[0] == d then 0 else 1 + FirstAt(s[1..], d)
  }

  ghost predicate InFirstOrder(kept: seq<Dissent>, all: seq<Dissent>) {
    && (forall d :: d in kept <==> d in all)
    && NoDuplicates(kept)
    && forall i, j :: 0 <= i < j < |kept| ==> kept[i] in all && kept[j] in all && FirstAt(all, kept[i]) < FirstAt(all, kept[j])
  }

  lemma {:induction false} FirstAtBound(s: seq<Dissent>, d: Dissent)
    requires d in s
    ensures FirstAt(s, d) < |s| && s[FirstAt(s, d)] == d
  {
    if s[0] != d { FirstAtBound(s[1..], d); }
  }

  lemma {:induction false} FirstAtAppend(s: seq<Dissent>, t: seq<Dissent>, d: Dissent)
    requires d in s || (d !in s && d in t)
    ensures d in s + t
    ensures d in s ==> FirstAt(s + t, d) == FirstAt(s, d)
    ensures d !in s ==> FirstAt(s + t, d) == |s| + FirstAt(t, d)
    decreases s
  {
    if s == [] {
      assert s + t == t;
    } else {
      assert (s + t)[1..] == s[1..] + t;
      if s[0] != d { FirstAtAppend(s[1..], t, d); }
    }
  }

  lemma RetainOne(kept: seq<Dissent>, all: seq<Dissent>, d: Dissent)
    requires InFirstOrder(kept, all)
    ensures InFirstOrder(if d in kept then kept else kept + [d], all + [d])
  {
    var kept' := if d in kept then kept else kept + [d];
    forall i | 0 <= i < |kept| ensures FirstAt(all + [d], kept[i]) == FirstAt(all, kept[i]) < |all| {
      assert kept[i] in kept;
      FirstAtAppend(all, [d], kept[i]);
      FirstAtBound(all, kept[i]);
    }
    if d !in kept {
      FirstAtAppend(all, [d], d);
    }
  }

  lemma {:induction false} RetainKeepsOrder(kept: seq<Dissent>, all: seq<Dissent>, more: seq<Dissent>)
    requires InFirstOrder(kept, all)
    ensures InFirstOrder(Retain(kept, more), all + more)
    decreases more
  {
    hide InFirstOrder;
    if more == [] {
      assert all + more == all;
    } else {
      RetainOne(kept, all, more[0]);
      RetainKeepsOrder(if more[0] in kept then kept else kept + [more[0]], all + [more[0]], more[1..]);
      assert all + [more[0]] + more[1..] == all + more;
    }
  }

  /** The retained dissent is every round's dissent, each once, in the order of first
      appearance. */
  lemma {:induction false} RetainedDissent(rounds: seq<Synthesis>)
    ensures InFirstOrder(RetainedOf(rounds), AllDissent(rounds))
  {
    if rounds != [] {
      RetainedDissent(rounds[..|rounds| - 1]);
      RetainKeepsOrder(RetainedOf(rounds[..|rounds| - 1]), AllDissent(rounds[..|rounds| - 1]), rounds[|rounds| - 1].dissent);
    }
  }

  lemma ReplacedIsDerived(s: Synthesis, o: Outcome)
    requires o == Pass ==> s.outcome == Pass
    ensures Derived(s, ReplaceOutcome(s, o)) && ReplaceOutcome(s, o).outcome == o
    ensures s.outcome == o ==> ReplaceOutcome(s, o) == s
    ensures o != Pass ==> ValidSynthesis(ReplaceOutcome(s, o))
  {
    hide ChangeNote, Unresolved;
  }

  // Replacing what was replaced already.
  lemma DerivedTwice(s: Synthesis, t: Synthesis, u: Synthesis)
    requires Derived(s, t) && Derived(t, u)
    ensures Derived(s, u)
  {
  }

  // ---------- the provider ----------

  datatype Status = Answered | RetryableFailure | MalformedResponse | CallTimedOut

  datatype Record = Record(role: Role, tokens: nat, status: Status)

  // Any provider: what attempt number k, made for a role, does.  None is an error that is
  // raised before anything is logged.
  datatype Provider = Provider(status: (nat, Role) -> Option<Status>, tokens: (nat, Role) -> nat,
                               proposal: nat -> Proposal, critique: nat -> Critique, synthesis: nat -> Synthesis)

  ghost predicate Validating(p: Provider) { forall k :: ValidSynthesis(p.synthesis(k)) }

  function Tokens(ledger: seq<Record>): nat {
    if ledger == [] then 0 else Tokens(ledger[..|ledger| - 1]) + ledger[|ledger| - 1].tokens
  }

  // ---------- when a call returns ----------

  // What decides the fate of a call besides the ledger: the provider, the limits, the
  // check at the boundary, and where the call state started to count.
  datatype Terms = Terms(provider: Provider, budget: BudgetLimits, boundary: seq<Record> -> bool,
                         startCalls: nat, startTokens: int)

  // Attempt number k as the ledger shows it.
  function Logged(p: Provider, k: nat, role: Role): Record {
    Record(role, p.tokens(k, role), if p.status(k, role).Some? then p.status(k, role).value else CallTimedOut)
  }

  // The ledger after m more attempts for a role.
  function After(p: Provider, ledger: seq<Record>, role: Role, m: nat): (r: seq<Record>)
    ensures |r| == |ledger| + m && ledger <= r
  {
    if m == 0 then ledger else After(p, ledger, role, m - 1) + [Logged(p, |ledger| + m - 1, role)]
  }

  // Another attempt may be made: a call and a token are left, and the boundary agrees.
  predicate MayCall(t: Terms, ledger: seq<Record>) {
    t.boundary(ledger) && |ledger| - t.startCalls < t.budget.maxProviderCalls &&
    Tokens(ledger) - t.startTokens < t.budget.maxTokens
  }

  // What was used is within the limits.
  predicate InBudget(t: Terms, ledger: seq<Record>) {
    |ledger| - t.startCalls <= t.budget.maxProviderCalls && Tokens(ledger) - t.startTokens <= t.budget.maxTokens
  }

  // The attempt after m others is made, with this result, and stays within the limits.
  predicate Attempted(t: Terms, ledger: seq<Record>, role: Role, m: nat, status: Status) {
    && MayCall(t, After(t.provider, ledger, role, m)) && t.provider.status(|ledger| + m, role) == Some(status)
    && InBudget(t, After(t.provider, ledger, role, m + 1))
  }

  // The first m attempts are transient failures, for which retries were left.
  predicate Retried(t: Terms, ledger: seq<Record>, left: nat, role: Role, m: nat) {
    m <= left && forall j :: 0 <= j < m ==> Attempted(t, ledger, role, j, RetryableFailure)
  }

  // The call returns with its m-th retry.
  predicate Returns(t: Terms, ledger: seq<Record>, left: nat, role: Role, m: nat) {
    Retried(t, ledger, left, role, m) && Attempted(t, ledger, role, m, Answered)
  }

  // It raises instead: before attempt m, at it, or for want of a retry.
  predicate Raises(t: Terms, ledger: seq<Record>, left: nat, role: Role, m: nat, ledger': seq<Record>) {
    && Retried(t, ledger, left, role, m)
    && var now, next := After(t.provider, ledger, role, m), After(t.provider, ledger, role, m + 1);
       var status := t.provider.status(|ledger| + m, role);
       if !MayCall(t, now) || status.None? then ledger' == now
       else ledger' == next && (!InBudget(t, next) || status.value in {MalformedResponse, CallTimedOut} ||
                                (status.value == RetryableFailure && m == left))
  }

  lemma OneStatus(t: Terms, ledger: seq<Record>, role: Role, m: nat, a: Status, b: Status)
    requires Attempted(t, ledger, role, m, a) && Attempted(t, ledger, role, m, b)
    ensures a == b
  {
  }

  lemma ReturnsOnce(t: Terms, ledger: seq<Record>, left: nat, role: Role, m: nat, n: nat)
    requires Returns(t, ledger, left, role, m) && Returns(t, ledger, left, role, n)
    ensures m == n
  {
    hide Attempted;
    if m < n { OneStatus(t, ledger, role, m, Answered, RetryableFailure); }
    if n < m { OneStatus(t, ledger, role, n, Answered, RetryableFailure); }
  }

  lemma ReturnsOnly(t: Terms, ledger: seq<Record>, left: nat, role: Role, m: nat)
    requires Returns(t, ledger, left, role, m)
    ensures forall n: nat :: Returns(t, ledger, left, role, n) ==> n == m
  {
    forall n: nat | Returns(t, ledger, left, role, n) ensures n == m { ReturnsOnce(t, ledger, left, role, n, m); }
  }

  // What raises is not an attempt that ends in this way.
  lemma NotSo(t: Terms, ledger: seq<Record>, left: nat, role: Role, m: nat, ledger': seq<Record>, status: Status)
    requires Raises(t, ledger, left, role, m, ledger') && status in {Answered, RetryableFailure}
    ensures Attempted(t, ledger, role, m, status) ==> status == RetryableFailure && m == left
  {
  }

  lemma RaisesOnly(t: Terms, ledger: seq<Record>, left: nat, role: Role, m: nat, ledger': seq<Record>)
    requires Raises(t, ledger, left, role, m, ledger')
    ensures forall n: nat :: !Returns(t, ledger, left, role, n)
  {
    hide Attempted;
    NotSo(t, ledger, left, role, m, ledger', Answered);
    NotSo(t, ledger, left, role, m, ledger', RetryableFailure);
    forall n: nat ensures !Returns(t, ledger, left, role, n) {
      if n < m && Attempted(t, ledger, role, n, Answered) { OneStatus(t, ledger, role, n, Answered, RetryableFailure); }
    }
  }

  // One more attempt, as the loop makes it.
  lemma OneMore(t: Terms, ledger: seq<Record>, role: Role, m: nat, now: seq<Record>, next: seq<Record>, status: Status)
    requires now == After(t.provider, ledger, role, m) && t.provider.status(|now|, role) == Some(status)
    requires next == now + [Record(role, t.provider.tokens(|now|, role), status)]
    ensures next == After(t.provider, ledger, role, m + 1)
    ensures MayCall(t, now) && InBudget(t, next) <==> Attempted(t, ledger, role, m, status)
  {
    hide MayCall, InBudget;
  }

  lemma ReturnsNow(t: Terms, ledger: seq<Record>, left: nat, role: Role, m: nat)
    requires Retried(t, ledger, left, role, m) && Attempted(t, ledger, role, m, Answered)
    ensures Returns(t, ledger, left, role, m)
  {
  }

  lemma NoneYet(t: Terms, ledger: seq<Record>, left: nat, role: Role)
    ensures After(t.provider, ledger, role, 0) == ledger && Retried(t, ledger, left, role, 0)
  {
  }

  lemma RetriedOnce(t: Terms, ledger: seq<Record>, left: nat, role: Role, m: nat)
    requires Retried(t, ledger, left, role, m) && Attempted(t, ledger, role, m, RetryableFailure) && m < left
    ensures Retried(t, ledger, left, role, m + 1)
  {
    hide Attempted;
  }

  // ---------- when calls in a row return ----------

  // The retry with which the call returns, if it does.
  ghost function Answer(t: Terms, ledger: seq<Record>, left: nat, role: Role): (r: Option<nat>)
    ensures r.Some? ==> r.value <= left
  {
    if m: nat :| Returns(t, ledger, left, role, m) then Some(m) else None
  }

  // Where calls that all return lead: the ledger, the retries left, and their records.
  datatype Row = Row(ledger: seq<Record>, left: nat, at: seq<nat>)

  // Calls for these roles, one after the other; None when one of them raises.
  ghost function Calls(t: Terms, ledger: seq<Record>, left: nat, roles: seq<Role>): (r: Option<Row>)
    ensures r.Some? ==> |r.value.at| == |roles|
  {
    if roles == [] then Some(Row(ledger, left, []))
    else
      var before, role := Calls(t, ledger, left, roles[..|roles| - 1]), roles[|roles| - 1];
      if before.None? then None else OneCall(t, before.value, role)
  }

  ghost function OneCall(t: Terms, row: Row, role: Role): (r: Option<Row>)
    ensures r.Some? ==> |r.value.at| == |row.at| + 1
  {
    var m := Answer(t, row.ledger, row.left, role);
    if m.None? then None
    else Some(Row(After(t.provider, row.ledger, role, m.value + 1), row.left - m.value, row.at + [|row.ledger| + m.value]))
  }

  const ROUND: seq<Role> := [Steward, Strategist, Skeptic, Synthesizer]
  const PLAN: seq<Role> := [LocalCommander, Executor, Verifier]

  lemma NoCalls(t: Terms, ledger: seq<Record>, left: nat)
    ensures Calls(t, ledger, left, []) == Some(Row(ledger, left, []))
  {
  }

  lemma AnswerIs(t: Terms, ledger: seq<Record>, left: nat, role: Role, m: nat)
    requires Returns(t, ledger, left, role, m)
    ensures Answer(t, ledger, left, role) == Some(m)
  {
    hide Returns;
    ReturnsOnly(t, ledger, left, role, m);
  }

  // What one call did, as its own contract says, is the call in the row.
  lemma CallMade(t: Terms, ledger: seq<Record>, left: nat, roles: seq<Role>, row: Row, role: Role, k: nat)
    requires Calls(t, ledger, left, roles) == Some(row) && |row.ledger| <= k
    requires Returns(t, row.ledger, row.left, role, k - |row.ledger|)
    ensures Calls(t, ledger, left, roles + [role]) ==
            Some(Row(After(t.provider, row.ledger, role, k - |row.ledger| + 1), row.left - (k - |row.ledger|), row.at + [k]))
  {
    hide Returns;
    AnswerIs(t, row.ledger, row.left, role, k - |row.ledger|);
    assert (roles + [role])[..|roles|] == roles;
  }

  lemma CallRaised(t: Terms, ledger: seq<Record>, left: nat, roles: seq<Role>, row: Row, role: Role)
    requires Calls(t, ledger, left, roles) == Some(row)
    requires forall m: nat :: !Returns(t, row.ledger, row.left, role, m)
    ensures Calls(t, ledger, left, roles + [role]).None?
  {
    hide Returns;
    assert (roles + [role])[..|roles|] == roles;
  }

  lemma {:induction false} RaisedForGood(t: Terms, ledger: seq<Record>, left: nat, roles: seq<Role>, more: seq<Role>)
    requires Calls(t, ledger, left, roles).None? && roles <= more
    ensures Calls(t, ledger, left, more).None?
  {
    if roles != more { RaisedForGood(t, ledger, left, roles, more[..|more| - 1]); }
  }

  // ---------- when a deliberation returns ----------

  // What adjudicating the answers of a round gives.
  function Judged(p: Provider, at: seq<nat>, limits: Limits, round: nat, veto: bool): Outcome
    requires |at| == 4
  {
    Adjudicate(p.synthesis(at[3]), p.critique(at[2]), limits, round + 1, round, veto)
  }

  // The answers of round number i, among those of all rounds, are judged so.
  predicate JudgedAt(p: Provider, at: seq<nat>, limits: Limits, i: int, veto: bool, o: Outcome) {
    0 <= i && 4 * i + 4 <= |at| && Judged(p, at[4 * i..4 * i + 4], limits, i, veto) == o
  }

  // Where a deliberation leads, and whether it passes.
  datatype End = End(row: Row, passed: bool)

  // Every call of every round returns; a round that needs a revision is followed by
  // another while there are rounds left.
  ghost function Deliberated(t: Terms, limits: Limits, veto: bool, ledger: seq<Record>, left: nat, round: nat,
                             rounds: nat): Option<End>
    decreases rounds - round
  {
    var row := Calls(t, ledger, left, ROUND);
    if row.None? then None
    else if Judged(t.provider, row.value.at, limits, round, veto) == Revise && round + 1 < rounds then
      Deliberated(t, limits, veto, row.value.ledger, row.value.left, round + 1, rounds)
    else Some(End(row.value, Judged(t.provider, row.value.at, limits, round, veto) == Pass))
  }

  // A passing deliberation is followed by three more calls.
  ghost predicate PipelineReturns(t: Terms, limits: Limits, veto: bool, ledger: seq<Record>, left: nat, rounds: nat) {
    var end := Deliberated(t, limits, veto, ledger, left, 0, rounds);
    end.Some? && (end.value.passed ==> Calls(t, end.value.row.ledger, end.value.row.left, PLAN).Some?)
  }

  // ---------- transcripts ----------

  // The answers of one round are the provider's, at four increasing ledger positions.
  ghost predicate RoundOf(p: Provider, ledger: seq<Record>, i: nat, at: seq<nat>, t: Transcript)
    requires 4 * i + 4 <= |at| && 2 * i + 2 <= |t.proposals| && i < |t.critiques| && i < |t.syntheses|
  {
    && at[4 * i] < at[4 * i + 1] < at[4 * i + 2] < at[4 * i + 3] < |ledger|
    && ledger[at[4 * i]].role == Steward && ledger[at[4 * i + 1]].role == Strategist
    && ledger[at[4 * i + 2]].role == Skeptic && ledger[at[4 * i + 3]].role == Synthesizer
    && t.proposals[2 * i] == p.proposal(at[4 * i]) && t.proposals[2 * i + 1] == p.proposal(at[4 * i + 1])
    && t.critiques[i] == p.critique(at[4 * i + 2]) && Derived(p.synthesis(at[4 * i + 3]), t.syntheses[i])
  }

  datatype Transcript = Transcript(proposals: seq<Proposal>, critiques: seq<Critique>, syntheses: seq<Synthesis>)

  ghost predicate RoundsOf(p: Provider, ledger: seq<Record>, n: nat, at: seq<nat>, t: Transcript) {
    && |at| == 4 * n && |t.proposals| == 2 * n && |t.critiques| == n && |t.syntheses| == n
    && forall i :: 0 <= i < n ==> RoundOf(p, ledger, i, at, t)
  }

  function Extend(t: Transcript, a: Proposal, b: Proposal, c: Critique, s: Synthesis): Transcript {
    Transcript(t.proposals + [a, b], t.critiques + [c], t.syntheses + [s])
  }

  lemma RoundsGrow(p: Provider, ledger: seq<Record>, ledger': seq<Record>, n: nat, at: seq<nat>, t: Transcript,
                   more: seq<nat>, t': Transcript)
    requires RoundsOf(p, ledger, n, at, t) && ledger <= ledger' && |more| == 4
    requires |t'.proposals| == 2 * n + 2 && |t'.critiques| == n + 1 && |t'.syntheses| == n + 1
    requires t.proposals <= t'.proposals && t.critiques <= t'.critiques && t.syntheses <= t'.syntheses
    requires RoundOf(p, ledger', n, at + more, t')
    ensures RoundsOf(p, ledger', n + 1, at + more, t')
  {
    forall i | 0 <= i < n ensures RoundOf(p, ledger', i, at + more, t') {
      assert RoundOf(p, ledger, i, at, t);
    }
  }

  lemma NothingYet(p: Provider, ledger: seq<Record>)
    ensures RoundsOf(p, ledger, 0, [], Transcript([], [], [])) && RetainedOf([]) == []
  {
  }

  // The four answers of a round, at their ledger positions.
  ghost predicate Answers(p: Provider, ledger: seq<Record>, more: seq<nat>, a: Proposal, b: Proposal, c: Critique,
                          s: Synthesis)
  {
    && |more| == 4 && more[0] < more[1] < more[2] < more[3] < |ledger|
    && ledger[more[0]].role == Steward && ledger[more[1]].role == Strategist && ledger[more[2]].role == Skeptic
    && ledger[more[3]].role == Synthesizer
    && a == p.proposal(more[0]) && b == p.proposal(more[1]) && c == p.critique(more[2]) && s == p.synthesis(more[3])
  }

  lemma RoundsExtended(p: Provider, ledger: seq<Record>, ledger': seq<Record>, n: nat, at: seq<nat>, t: Transcript,
                       more: seq<nat>, a: Proposal, b: Proposal, c: Critique, s: Synthesis, s': Synthesis)
    requires RoundsOf(p, ledger, n, at, t) && ledger <= ledger' && Answers(p, ledger', more, a, b, c, s) && Derived(s, s')
    ensures RoundsOf(p, ledger', n + 1, at + more, Extend(t, a, b, c, s'))
    ensures RetainedOf(Extend(t, a, b, c, s').syntheses) == Retain(RetainedOf(t.syntheses), s'.dissent)
  {
    var t' := Extend(t, a, b, c, s');
    assert t'.syntheses[..n] == t.syntheses;
    assert RoundOf(p, ledger', n, at + more, t');
    RoundsGrow(p, ledger, ledger', n, at, t, more, t');
  }

  // What a round's calls and its judgement say about the deliberation.
  lemma RoundDecides(t: Terms, limits: Limits, veto: bool, ledger: seq<Record>, left: nat, round: nat, rounds: nat, row: Row)
    requires Calls(t, ledger, left, ROUND).None? || Calls(t, ledger, left, ROUND) == Some(row)
    ensures Calls(t, ledger, left, ROUND).None? ==> Deliberated(t, limits, veto, ledger, left, round, rounds) == None
    ensures Calls(t, ledger, left, ROUND).Some? ==>
              |row.at| == 4 &&
              Deliberated(t, limits, veto, ledger, left, round, rounds) ==
              if Judged(t.provider, row.at, limits, round, veto) == Revise && round + 1 < rounds
              then Deliberated(t, limits, veto, row.ledger, row.left, round + 1, rounds)
              else Some(End(row, Judged(t.provider, row.at, limits, round, veto) == Pass))
  {
    hide Calls, Judged;
  }

  lemma JudgedSo(p: Provider, ledger: seq<Record>, at: seq<nat>, more: seq<nat>, limits: Limits, round: nat, veto: bool,
                 a: Proposal, b: Proposal, c: Critique, s: Synthesis)
    requires Answers(p, ledger, more, a, b, c, s) && |at| == 4 * round
    ensures |more| == 4 && Judged(p, more, limits, round, veto) == Adjudicate(s, c, limits, round + 1, round, veto)
    ensures JudgedAt(p, at + more, limits, round, veto, Judged(p, more, limits, round, veto))
    ensures forall i: int, o: Outcome :: JudgedAt(p, at, limits, i, veto, o) ==> JudgedAt(p, at + more, limits, i, veto, o)
  {
    hide Adjudicate;
    assert (at + more)[4 * round..4 * round + 4] == more;
    forall i: int, o: Outcome | JudgedAt(p, at, limits, i, veto, o) ensures JudgedAt(p, at + more, limits, i, veto, o) {
      assert (at + more)[4 * i..4 * i + 4] == at[4 * i..4 * i + 4];
    }
  }

  // Replacing the outcome of the last synthesis.
  lemma RoundsReplaced(p: Provider, ledger: seq<Record>, n: nat, at: seq<nat>, t: Transcript, s: Synthesis)
    requires RoundsOf(p, ledger, n, at, t) && n > 0 && Derived(t.syntheses[n - 1], s) && s.outcome != Pass
    ensures RoundsOf(p, ledger, n, at, t.(syntheses := t.syntheses[..n - 1] + [s]))
    ensures RetainedOf(t.syntheses[..n - 1] + [s]) == RetainedOf(t.syntheses)
  {
    var t' := t.(syntheses := t.syntheses[..n - 1] + [s]);
    forall i | 0 <= i < n ensures RoundOf(p, ledger, i, at, t') {
      assert RoundOf(p, ledger, i, at, t);
      if i == n - 1 { DerivedTwice(p.synthesis(at[4 * i + 3]), t.syntheses[i], s); }
    }
    assert t'.syntheses[..n - 1] == t.syntheses[..n - 1];
  }

  datatype Result = Result(
    outcome: Outcome, rounds: nat, revisions: nat, transcript: Transcript, final: Synthesis, retained: seq<Dissent>,
    calls: nat, tokens: int, retries: nat)

  // The counters of one call state.
  class CallState {
    const startCalls: nat
    const startTokens: nat
    var retries: nat

    constructor (ledger: seq<Record>)
      ensures startCalls == |ledger| && startTokens == Tokens(ledger) && retries == 0
    {
      startCalls, startTokens, retries := |ledger|, Tokens(ledger), 0;
    }
  }

  class Coordinator {
    const provider: Provider
    const limits: Limits
    const budget: BudgetLimits
    const boundary: seq<Record> -> bool
    var ledger: seq<Record>

    constructor (p: Provider, l: Limits, b: BudgetLimits, check: seq<Record> -> bool)
      requires 1 <= l.maxRounds <= 2 && l.maxRevisions <= 1 && b.maxRounds >= 1
      ensures provider == p && limits == l && budget == b && boundary == check && ledger == []
    {
      provider, limits, budget, boundary, ledger := p, l, b, check, [];
    }

    // Within the budget of one call state.
    ghost predicate Within(state: CallState)
      reads this, state
    {
      state.startCalls <= |ledger| <= state.startCalls + budget.maxProviderCalls && state.retries <= budget.maxRetries
    }

    // The retries a call state has left.
    function Left(state: CallState): nat
      reads state
    {
      if state.retries <= budget.maxRetries then budget.maxRetries - state.retries else 0
    }

    // The terms of the calls of one call state.
    function TermsOf(state: CallState): Terms {
      Terms(provider, budget, boundary, state.startCalls, state.startTokens)
    }

    // _check_before_call
    method CheckBefore(state: CallState) returns (ok: bool)
      requires Within(state)
      ensures ok <==> MayCall(TermsOf(state), ledger)
      ensures ok ==> |ledger| < state.startCalls + budget.maxProviderCalls
    {
      hide Tokens;
      ok := boundary(ledger) && |ledger| - state.startCalls < budget.maxProviderCalls &&
            Tokens(ledger) - state.startTokens < budget.maxTokens;
    }

    // _check_after_call
    method CheckAfter(state: CallState) returns (ok: bool)
      ensures ok <==> InBudget(TermsOf(state), ledger)
    {
      hide Tokens;
      ok := |ledger| - state.startCalls <= budget.maxProviderCalls && Tokens(ledger) - state.startTokens <= budget.maxTokens;
    }

    /** _complete: retries transient failures while retries are left.  It returns exactly
        when some attempt is answered before which there were only transient failures, no
        more of them than retries left, and every attempt on the way passed the boundary
        and the limits; the retries spent are those failures.  Otherwise it raises, at the
        first attempt that stands in the way.  Every attempt is one ledger record. */
    method Complete(role: Role, state: CallState) returns (r: Option<nat>)
      requires Within(state)
      modifies this`ledger, state`retries
      ensures Within(state) && old(ledger) <= ledger && old(state.retries) <= state.retries
      ensures forall m :: Returns(TermsOf(state), old(ledger), old(Left(state)), role, m) ==> r == Some(|old(ledger)| + m)
      ensures r.Some? ==>
                && r.value == |ledger| - 1 && |old(ledger)| <= r.value
                && Returns(TermsOf(state), old(ledger), old(Left(state)), role, r.value - |old(ledger)|)
                && ledger == After(provider, old(ledger), role, r.value - |old(ledger)| + 1)
                && state.retries == old(state.retries) + (r.value - |old(ledger)|)
                && ledger[r.value].status == Answered && ledger[r.value].role == role
      ensures r.None? ==>
                Raises(TermsOf(state), old(ledger), old(Left(state)), role, state.retries - old(state.retries), ledger)
    {
      hide Tokens, After, Attempted, Retried, MayCall, InBudget, Returns;
      ghost var base, t, left, m := ledger, TermsOf(state), Left(state), 0;
      NoneYet(t, base, left, role);
      while true
        invariant Within(state) && base <= ledger && state.retries == old(state.retries) + m
        invariant ledger == After(provider, base, role, m) && Retried(t, base, left, role, m)
        decreases budget.maxRetries - state.retries
      {
        var open := CheckBefore(state);
        if !open {
          RaisesOnly(t, base, left, role, m, ledger);
          return None;
        }
        var k := |ledger|;
        var status := provider.status(k, role);
        if status.None? {
          RaisesOnly(t, base, left, role, m, ledger);
          return None;
        }
        ghost var now := ledger;
        ledger := ledger + [Record(role, provider.tokens(k, role), status.value)];
        OneMore(t, base, role, m, now, ledger, status.value);
        var within := CheckAfter(state);
        if !within {
          RaisesOnly(t, base, left, role, m, ledger);
          return None;
        }
        match status.value
        case Answered =>
          ReturnsNow(t, base, left, role, m);
          ReturnsOnly(t, base, left, role, m);
          return Some(k);
        case CallTimedOut =>
          RaisesOnly(t, base, left, role, m, ledger);
          return None;
        case MalformedResponse =>
          RaisesOnly(t, base, left, role, m, ledger);
          return None;
        case RetryableFailure =>
          if state.retries >= budget.maxRetries {
            RaisesOnly(t, base, left, role, m, ledger);
            return None;
          }
          RetriedOnce(t, base, left, role, m);
          state.retries := state.retries + 1;
          m := m + 1;
      }
    }

    // The calls of the row were made from a ledger, with that many retries left.
    ghost predicate Made(state: CallState, from: seq<Record>, left: nat, roles: seq<Role>, row: Row)
      reads this, state
    {
      Calls(TermsOf(state), from, left, roles) == Some(row) && row.ledger == ledger && row.left == Left(state)
    }

    // The next call in a row.
    method Following(role: Role, state: CallState, ghost from: seq<Record>, ghost left: nat, ghost roles: seq<Role>,
                     ghost row: Row)
      returns (r: Option<nat>, ghost after: Row)
      requires Within(state) && Made(state, from, left, roles, row)
      modifies this`ledger, state`retries
      ensures Within(state) && old(ledger) <= ledger && old(state.retries) <= state.retries
      ensures r.Some? ==>
                && r.value == |ledger| - 1 && |old(ledger)| <= r.value && ledger[r.value].role == role
                && state.retries == old(state.retries) + (r.value - |old(ledger)|)
                && Made(state, from, left, roles + [role], after) && after.at == row.at + [r.value]
      ensures r.None? ==> Calls(TermsOf(state), from, left, roles + [role]).None?
    {
      hide Calls, Returns, Raises, After, MayCall, InBudget, Attempted, Retried, Tokens;
      ghost var t := TermsOf(state);
      r := Complete(role, state);
      after := row;
      if r.Some? {
        after := Row(ledger, Left(state), row.at + [r.value]);
        CallMade(t, from, left, roles, row, role, r.value);
      } else {
        CallRaised(t, from, left, roles, row, role);
      }
    }

    // The four calls of a round; None, exactly when one of them raises.
    method Round(state: CallState) returns (r: Option<(Proposal, Proposal, Critique, Synthesis)>, ghost row: Row)
      requires Within(state) && Validating(provider)
      modifies this`ledger, state`retries
      ensures Within(state) && old(ledger) <= ledger && old(state.retries) <= state.retries
      ensures r.None? ==> Calls(TermsOf(state), old(ledger), old(Left(state)), ROUND).None?
      ensures r.Some? ==>
                && Made(state, old(ledger), old(Left(state)), ROUND, row)
                && |ledger| == |old(ledger)| + 4 + (state.retries - old(state.retries))
                && Answers(provider, ledger, row.at, r.value.0, r.value.1, r.value.2, r.value.3)
                && ValidSynthesis(r.value.3)
    {
      hide Calls, ValidSynthesis, Judged, Within;
      ghost var from, left := ledger, Left(state);
      ghost var t := TermsOf(state);
      NoCalls(t, from, left);
      row := Row(ledger, left, []);
      var steward, strategist, skeptic, synthesizer;
      steward, row := Following(Steward, state, from, left, [], row);
      assert [] + [Steward] == ROUND[..1];
      if steward.None? { RaisedForGood(t, from, left, ROUND[..1], ROUND); return None, row; }
      strategist, row := Following(Strategist, state, from, left, ROUND[..1], row);
      assert ROUND[..1] + [Strategist] == ROUND[..2];
      if strategist.None? { RaisedForGood(t, from, left, ROUND[..2], ROUND); return None, row; }
      skeptic, row := Following(Skeptic, state, from, left, ROUND[..2], row);
      assert ROUND[..2] + [Skeptic] == ROUND[..3];
      if skeptic.None? { RaisedForGood(t, from, left, ROUND[..3], ROUND); return None, row; }
      synthesizer, row := Following(Synthesizer, state, from, left, ROUND[..3], row);
      assert ROUND[..3] + [Synthesizer] == ROUND;
      if synthesizer.None? { return None, row; }
      r := Some((provider.proposal(steward.value), provider.proposal(strategist.value),
                 provider.critique(skeptic.value), provider.synthesis(synthesizer.value)));
    }

    // The rounds there may be.
    function Rounds(): nat {
      if limits.maxRounds < budget.maxRounds then limits.maxRounds else budget.maxRounds
    }

    // What every returned deliberation satisfies: every round but the last was judged to
    // need a revision, and so was the last only when no round was left, which escalates.
    ghost predicate Sound(r: Result, at: seq<nat>, veto: bool)
      reads this
    {
      && (forall i :: 0 <= i < r.rounds - 1 ==> JudgedAt(provider, at, limits, i, veto, Revise))
      && (JudgedAt(provider, at, limits, r.rounds - 1, veto, r.outcome) ||
          (r.outcome == Escalate && r.rounds == Rounds() && JudgedAt(provider, at, limits, r.rounds - 1, veto, Revise)))
      && r.outcome in {Pass, Escalate} && 1 <= r.rounds <= 2
      && RoundsOf(provider, ledger, r.rounds, at, r.transcript)
      && r.final == r.transcript.syntheses[r.rounds - 1] && r.final.outcome == r.outcome && ValidSynthesis(r.final)
      && r.retained == RetainedOf(r.transcript.syntheses)
      && (forall i :: 0 <= i < r.rounds - 1 ==> r.transcript.syntheses[i].outcome == Revise)
      && (r.outcome == Pass ==> !veto && !r.transcript.critiques[r.rounds - 1].material && !Unresolved(r.final.dissent))
      && (r.revisions == r.rounds - 1 || (r.revisions == r.rounds && budget.maxRounds < limits.maxRounds))
      && r.revisions <= limits.maxRevisions
    }

    /** _deliberate: for every provider, budget and boundary check, a normal return is a
        PASS or an escalation, never a revision; its transcript has two proposals, one
        critique and one synthesis a round, all of them the provider's own; its dissent is
        everything dissented; and its calls are four a round plus the retries. */
    method Deliberate(veto: bool, state: CallState) returns (r: Option<Result>, ghost at: seq<nat>)
      requires Within(state) && Validating(provider) && state.retries == 0 && state.startCalls == |ledger|
      requires 1 <= limits.maxRounds <= 2 && limits.maxRevisions <= 1 && budget.maxRounds >= 1
      modifies this`ledger, state`retries
      ensures Within(state) && old(ledger) <= ledger
      ensures var end := Deliberated(TermsOf(state), limits, veto, old(ledger), old(Left(state)), 0, Rounds());
              (r.Some? <==> end.Some?) &&
              (r.Some? ==> end.value.row.ledger == ledger && end.value.row.left == Left(state) &&
                           (end.value.passed <==> r.value.outcome == Pass))
      ensures r.Some? ==>
                && Sound(r.value, at, veto)
                && r.value.calls == 4 * r.value.rounds + r.value.retries && r.value.retries == state.retries
                && r.value.calls == |ledger| - |old(ledger)| && r.value.tokens == Tokens(ledger) - state.startTokens
                && r.value.calls <= budget.maxProviderCalls && r.value.retries <= budget.maxRetries
    {
      hide RoundsOf, Answers, RetainedOf, Retain, Unresolved, Adjudicate, ReplaceOutcome, Derived, Tokens, Calls,
        Deliberated, Judged, JudgedAt, ValidSynthesis;
      var t, retained := Transcript([], [], []), [];
      var revisions, round := 0, 0;
      var effective := Rounds();
      at := [];
      NothingYet(provider, ledger);
      ghost var terms, base, left, last := TermsOf(state), ledger, Left(state), [];
      while round < effective
        invariant 0 <= round == revisions <= effective && round <= limits.maxRevisions && |t.syntheses| == round
        invariant Within(state) && old(ledger) <= ledger && |ledger| == |old(ledger)| + 4 * round + state.retries
        invariant RoundsOf(provider, ledger, round, at, t) && retained == RetainedOf(t.syntheses)
        invariant forall i :: 0 <= i < round ==> t.syntheses[i].outcome == Revise
        invariant forall i :: 0 <= i < round ==> JudgedAt(provider, at, limits, i, veto, Revise)
        invariant round > 0 ==> round < limits.maxRounds
        invariant round < effective ==> Deliberated(terms, limits, veto, base, left, 0, effective) ==
                                        Deliberated(terms, limits, veto, ledger, Left(state), round, effective)
        invariant round == effective ==> Deliberated(terms, limits, veto, base, left, 0, effective) ==
                                         Some(End(Row(ledger, Left(state), last), false))
      {
        ghost var before, spare := ledger, Left(state);
        var answers;
        ghost var row;
        answers, row := Round(state);
        RoundDecides(terms, limits, veto, before, spare, round, effective, row);
        last := row.at;
        if answers.None? { return None, at; }
        var (steward, strategist, critique, answer) := answers.value;
        var outcome := Adjudicate(answer, critique, limits, round + 1, revisions, veto);
        var synthesis := ReplaceOutcome(answer, outcome);
        ReplacedIsDerived(answer, outcome);
        RoundsExtended(provider, before, ledger, round, at, t, row.at, steward, strategist, critique, answer, synthesis);
        JudgedSo(provider, ledger, at, row.at, limits, round, veto, steward, strategist, critique, answer);
        t := Extend(t, steward, strategist, critique, synthesis);
        retained := Retain(retained, synthesis.dissent);
        at := at + row.at;
        if outcome != Revise {
          r := Some(Result(outcome, round + 1, revisions, t, synthesis, retained, |ledger| - state.startCalls,
                           Tokens(ledger) - state.startTokens, state.retries));
          return;
        }
        revisions := revisions + 1;
        round := round + 1;
      }
      var final := ReplaceOutcome(t.syntheses[round - 1], Escalate);
      ReplacedIsDerived(t.syntheses[round - 1], Escalate);
      RoundsReplaced(provider, ledger, round, at, t, final);
      t := t.(syntheses := t.syntheses[..round - 1] + [final]);
      r := Some(Result(Escalate, effective, revisions, t, final, retained, |ledger| - state.startCalls,
                       Tokens(ledger) - state.startTokens, state.retries));
    }

    /** run_pipeline: a deliberation that does not pass is returned as it is; a passing one
        is followed by exactly three more answered calls on the same counters.  It returns
        exactly when all these calls do. */
    method RunPipeline(veto: bool) returns (r: Option<Result>, planned: bool)
      requires Validating(provider)
      requires 1 <= limits.maxRounds <= 2 && limits.maxRevisions <= 1 && budget.maxRounds >= 1
      modifies this`ledger
      ensures old(ledger) <= ledger && |ledger| <= |old(ledger)| + budget.maxProviderCalls
      ensures r.Some? <==>
              PipelineReturns(Terms(provider, budget, boundary, |old(ledger)|, Tokens(old(ledger))), limits, veto,
                              old(ledger), budget.maxRetries, Rounds())
      ensures r.Some? ==>
                && (planned <==> r.value.outcome == Pass)
                && r.value.calls == |ledger| - |old(ledger)|
                && r.value.tokens == Tokens(ledger) - Tokens(old(ledger))
                && r.value.calls == 4 * r.value.rounds + (if planned then 3 else 0) + r.value.retries
                && r.value.retries <= budget.maxRetries && r.value.calls <= budget.maxProviderCalls
    {
      hide Sound, Tokens, Calls, Deliberated;
      planned := false;
      var state := new CallState(ledger);
      ghost var at;
      r, at := Deliberate(veto, state);
      if r.None? || r.value.outcome != Pass { return; }
      ghost var t, from, left := TermsOf(state), ledger, Left(state);
      NoCalls(t, from, left);
      ghost var row := Row(ledger, left, []);
      var plan, action, check;
      plan, row := Following(LocalCommander, state, from, left, [], row);
      assert [] + [LocalCommander] == PLAN[..1];
      if plan.None? { RaisedForGood(t, from, left, PLAN[..1], PLAN); return None, false; }
      action, row := Following(Executor, state, from, left, PLAN[..1], row);
      assert PLAN[..1] + [Executor] == PLAN[..2];
      if action.None? { RaisedForGood(t, from, left, PLAN[..2], PLAN); return None, false; }
      check, row := Following(Verifier, state, from, left, PLAN[..2], row);
      assert PLAN[..2] + [Verifier] == PLAN;
      if check.None? { return None, false; }
      planned := true;
      r := Some(r.value.(calls := |ledger| - state.startCalls, tokens := Tokens(ledger) - state.startTokens,
                         retries := state.retries));
    }
  }
}
