/** The durable provider-call bound across stages, runs and restarts: a per-run baseline,
    taken once per run state, over a ledger that all runs of the process share. */
module Boundary {
  import opened Domain

  // One provider attempt as the ledger records it.
  datatype Attempt = Attempt(tokens: nat, retryable: bool)

  function Tokens(ledger: seq<Attempt>): nat {
    if ledger == [] then 0 else Tokens(ledger[..|ledger| - 1]) + ledger[|ledger| - 1].tokens
  }

  function Retries(ledger: seq<Attempt>): nat {
    if ledger == [] then 0 else
    Retries(ledger[..|ledger| - 1]) + if ledger[|ledger| - 1].retryable then 1 else 0
  }

  // Durable counters, and their limits.
  datatype Usage = Usage(calls: nat, tokens: nat, retries: nat)

  datatype Caps = Caps(calls: nat, tokens: nat, retries: nat, wallTimeMs: nat)

  // Durable usage, ledger position, token total and clock when a run was first checked
  // in a state.
  datatype Baseline = Baseline(state: RunState, usage: Usage, start: nat, startTokens: nat, startClock: int)

  // A run as the store knows it, and the stage of it that is under way in this process:
  // Some(n) is a stage whose ledger position at the start was n.
  datatype Job = Job(state: RunState, usage: Usage, caps: Caps, stage: Option<nat>, planned: bool)

  datatype Step =
    | Begin(run: string, caps: Caps)
    | Call(run: string, live: bool, clock: int, attempt: Attempt)
    | Settle(run: string, retries: nat)
    | StartVerifying(run: string)
    | Fail(run: string)
    | Restart

  // One more call stays below every limit, as measured from a baseline.
  predicate Allows(b: Baseline, caps: Caps, ledger: seq<Attempt>, clock: int) {
    && b.start <= |ledger|
    && b.usage.calls + |ledger| - b.start < caps.calls
    && b.usage.tokens + Tokens(ledger) - b.startTokens < caps.tokens
    && b.usage.retries + Retries(ledger[b.start..]) <= caps.retries
    && clock - b.startClock < caps.wallTimeMs
  }

  // A stage that ended within the limits: charged, and the run goes on from Planning to
  // the wait for approval in two stages, and from there to its end.
  predicate Charged(j: Job, j': Job, since: seq<Attempt>, retries: nat, length: nat) {
    && j'.usage == Usage(j.usage.calls + |since|, j.usage.tokens + Tokens(since), j.usage.retries + retries)
    && j'.caps == j.caps
    && (j.state == Planning && !j.planned ==> j'.state == Planning && j'.planned && j'.stage == Some(length))
    && (j.state == Planning && j.planned ==> j'.state == AwaitingApproval && j'.planned && j'.stage == None)
    && (j.state != Planning ==> j'.state == Completed && j'.planned == j.planned && j'.stage == None)
  }

  // What a stage used, on top of what was used before, is within the limits.
  predicate Fits(j: Job, since: seq<Attempt>, retries: nat) {
    j.usage.calls + |since| <= j.caps.calls && j.usage.tokens + Tokens(since) <= j.caps.tokens &&
    j.usage.retries + retries <= j.caps.retries
  }

  class Service {
    var ledger: seq<Attempt>
    var boundaries: map<string, Baseline>
    var jobs: map<string, Job>
    // how many provider calls were really made for each run, over all lifetimes
    ghost var made: map<string, nat>
    // the steps of the schedule that were taken
    ghost var log: seq<Step>

    ghost predicate Covered(run: string)
      requires run in jobs && run in made
      reads this
    {
      var j := jobs[run];
      && made[run] <= j.caps.calls
      && (j.stage.Some? ==> j.stage.value <= |ledger| && made[run] <= j.usage.calls + (|ledger| - j.stage.value))
      && (j.state == AwaitingApproval ==> made[run] <= j.usage.calls && j.stage.None?)
      && (run in boundaries ==> boundaries[run].start <= |ledger|)
      && (run in boundaries && j.state in {Planning, AwaitingApproval} ==> boundaries[run].state == Planning)
      && (j.stage.Some? ==>
            if run in boundaries && boundaries[run].state == j.state
            then made[run] <= boundaries[run].usage.calls + (|ledger| - boundaries[run].start)
            else made[run] <= j.usage.calls)
    }

    ghost predicate Valid()
      reads this
    {
      made.Keys == jobs.Keys && boundaries.Keys <= jobs.Keys && forall run :: run in jobs ==> Covered(run)
    }

    constructor ()
      ensures Valid() && jobs == map[] && ledger == [] && boundaries == map[] && log == []
    {
      ledger, boundaries, jobs, made, log := [], map[], map[], map[], [];
    }

    // The baseline is the one taken when the run was first seen in its state; no other
    // run's is touched.
    twostate predicate Measured(run: string, clock: int)
      requires run in jobs
      reads this
    {
      && run in boundaries && boundaries - {run} == old(boundaries) - {run}
      && boundaries[run] ==
         if run in old(boundaries) && old(boundaries)[run].state == jobs[run].state then old(boundaries)[run]
         else Baseline(jobs[run].state, jobs[run].usage, |old(ledger)|, Tokens(old(ledger)), clock)
    }

    /** provider_boundary_check: whether one more call is allowed.  A run that is stopped,
        cancelled or past its lease is refused at once.  Otherwise the baseline is recorded
        when the run is first seen in its state, also when the call is then refused, and
        the baseline's durable usage plus the growth of the whole ledger since decides. */
    method BoundaryCheck(run: string, live: bool, clock: int) returns (ok: bool)
      requires Valid() && run in jobs && jobs[run].stage.Some?
      modifies this`boundaries
      ensures Valid()
      ensures ok ==> made[run] < jobs[run].caps.calls
      ensures !live ==> !ok && boundaries == old(boundaries)
      ensures live ==> Measured(run, clock) && (ok <==> Allows(boundaries[run], jobs[run].caps, ledger, clock))
    {
      if !live { return false; }
      var job := jobs[run];
      if run !in boundaries || boundaries[run].state != job.state {
        boundaries := boundaries[run := Baseline(job.state, job.usage, |ledger|, Tokens(ledger), clock)];
      }
      var b := boundaries[run];
      if b.usage.calls + |ledger| - b.start >= job.caps.calls { return false; }
      if b.usage.tokens + Tokens(ledger) - b.startTokens >= job.caps.tokens { return false; }
      if b.usage.retries + Retries(ledger[b.start..]) > job.caps.retries { return false; }
      if clock - b.startClock >= job.caps.wallTimeMs { return false; }
      ok := true;
    }

    // What was made and promised for a run is never forgotten.
    twostate predicate Remembers()
      reads this
    {
      forall run :: run in old(jobs) && run in old(made) ==>
        run in jobs && run in made && jobs[run].caps == old(jobs)[run].caps && old(made)[run] <= made[run]
    }

    // start_run up to the first provider call
    method Begin(run: string, caps: Caps)
      requires Valid() && run !in jobs
      modifies this`jobs, this`made
      ensures Valid() && Remembers()
      ensures Began(run, caps)
    {
      jobs := jobs[run := Job(Planning, Usage(0, 0, 0), caps, Some(|ledger|), false)];
      made := made[run := 0];
    }

    twostate predicate Began(run: string, caps: Caps)
      reads this
    {
      jobs == old(jobs)[run := Job(Planning, Usage(0, 0, 0), caps, Some(|ledger|), false)] && made == old(made)[run := 0]
    }

    // one attempt of the retry loop: the check, then one ledger record
    method Call(run: string, live: bool, clock: int, attempt: Attempt) returns (ok: bool)
      requires Valid() && run in jobs && jobs[run].stage.Some?
      modifies this`ledger, this`boundaries, this`made
      ensures Valid() && Remembers()
      ensures Called(run, live, clock, attempt, ok)
    {
      hide Tokens, Retries, Allows;
      ok := BoundaryCheck(run, live, clock);
      if ok {
        ledger := ledger + [attempt];
        made := made[run := made[run] + 1];
      }
    }

    // The call is made exactly for a live run below its limits, and is then on record.
    twostate predicate Called(run: string, live: bool, clock: int, attempt: Attempt, ok: bool)
      requires run in jobs && run in old(made)
      reads this
    {
      && (!live ==> !ok && boundaries == old(boundaries))
      && (live ==> Measured(run, clock) && (ok <==> Allows(boundaries[run], jobs[run].caps, old(ledger), clock)))
      && ledger == old(ledger) + (if ok then [attempt] else [])
      && made == old(made)[run := old(made)[run] + if ok then 1 else 0]
    }

    // A stage returned: everything the ledger grew by since its start is charged to the
    // run, whoever's calls they were, and the retries it reports; past a limit the flow
    // ends uncharged.
    method Settle(run: string, retries: nat)
      requires Valid() && run in jobs && jobs[run].stage.Some?
      modifies this`jobs
      ensures Valid() && Remembers()
      ensures Settled(run, retries)
    {
      hide Tokens;
      var job := jobs[run];
      var since := ledger[job.stage.value..];
      var usage := Usage(job.usage.calls + |since|, job.usage.tokens + Tokens(since), job.usage.retries + retries);
      if usage.calls > job.caps.calls || usage.tokens > job.caps.tokens || usage.retries > job.caps.retries {
        job := job.(state := Failed, stage := None);
      } else if job.state == Planning && !job.planned {
        job := job.(usage := usage, stage := Some(|ledger|), planned := true);
      } else {
        job := job.(usage := usage, stage := None,
                    state := if job.state == Planning then AwaitingApproval else Completed);
      }
      jobs := jobs[run := job];
    }

    // Only this run's entry changes.
    twostate predicate OnlyOf(run: string)
      reads this
    {
      run in old(jobs) && run in jobs && jobs == old(jobs)[run := jobs[run]]
    }

    twostate predicate Settled(run: string, retries: nat)
      reads this
    {
      && OnlyOf(run)
      && var j := old(jobs)[run];
         j.stage.Some? && j.stage.value <= |ledger| &&
         var since := ledger[j.stage.value..];
         if Fits(j, since, retries) then Charged(j, jobs[run], since, retries, |ledger|)
         else jobs[run] == j.(state := Failed, stage := None)
    }

    method StartVerifying(run: string)
      requires Valid() && run in jobs && jobs[run].state == AwaitingApproval
      modifies this`jobs
      ensures Valid() && Remembers()
      ensures OnlyOf(run) && jobs[run] == old(jobs)[run].(state := Verifying, stage := Some(|ledger|))
    {
      jobs := jobs[run := jobs[run].(state := Verifying, stage := Some(|ledger|))];
    }

    // any exception on the way
    method Fail(run: string)
      requires Valid() && run in jobs
      modifies this`jobs
      ensures Valid() && Remembers()
      ensures OnlyOf(run) && jobs[run] == old(jobs)[run].(state := Failed, stage := None)
    {
      jobs := jobs[run := jobs[run].(state := Failed, stage := None)];
    }

    // a new process: an empty ledger, no baselines, and no stage is ever resumed
    method Restart()
      requires Valid()
      modifies this`ledger, this`boundaries, this`jobs
      ensures Valid() && Remembers()
      ensures Restarted()
    {
      ledger, boundaries := [], map[];
      jobs := map r | r in jobs :: jobs[r].(stage := None);
    }

    // What was charged is kept; what was under way is over.
    twostate predicate Restarted()
      reads this
    {
      && ledger == [] && boundaries == map[] && jobs.Keys == old(jobs).Keys
      && forall run :: run in jobs ==> jobs[run] == old(jobs)[run].(stage := None)
    }

    twostate predicate Same()
      reads this
    {
      ledger == old(ledger) && boundaries == old(boundaries) && jobs == old(jobs) && made == old(made)
    }

    // What a step of a schedule does; one that is not possible changes nothing.
    twostate predicate Took(step: Step)
      reads this
    {
      match step
      case Begin(run, caps) =>
        if run in old(jobs) then Same() else Began(run, caps) && ledger == old(ledger) && boundaries == old(boundaries)
      case Call(run, live, clock, attempt) =>
        if run !in old(jobs) || old(jobs)[run].stage.None? then Same()
        else jobs == old(jobs) && run in old(made) && exists ok :: Called(run, live, clock, attempt, ok)
      case Settle(run, retries) =>
        if run !in old(jobs) || old(jobs)[run].stage.None? then Same()
        else Settled(run, retries) && ledger == old(ledger) && boundaries == old(boundaries) && made == old(made)
      case StartVerifying(run) =>
        if run !in old(jobs) || old(jobs)[run].state != AwaitingApproval then Same()
        else OnlyOf(run) && jobs[run] == old(jobs)[run].(state := Verifying, stage := Some(|ledger|)) &&
             ledger == old(ledger) && boundaries == old(boundaries) && made == old(made)
      case Fail(run) =>
        if run !in old(jobs) then Same()
        else OnlyOf(run) && jobs[run] == old(jobs)[run].(state := Failed, stage := None) &&
             ledger == old(ledger) && boundaries == old(boundaries) && made == old(made)
      case Restart => Restarted() && made == old(made)
    }

    // One step of any schedule; a step that is not possible changes nothing.
    method Take(step: Step)
      requires Valid()
      modifies this
      ensures Valid() && Remembers()
      ensures Took(step) && log == old(log) + [step]
    {
      log := log + [step];
      match step
      case Begin(run, caps) => if run !in jobs { Begin(run, caps); }
      case Call(run, live, clock, attempt) =>
        if run in jobs && jobs[run].stage.Some? {
          var ok := Call(run, live, clock, attempt);
          assert Called(run, live, clock, attempt, ok);
        }
      case Settle(run, retries) => if run in jobs && jobs[run].stage.Some? { Settle(run, retries); }
      case StartVerifying(run) => if run in jobs && jobs[run].state == AwaitingApproval { StartVerifying(run); }
      case Fail(run) => if run in jobs { Fail(run); }
      case Restart => Restart();
    }

    /** Over any schedule of any runs that share the ledger, with restarts anywhere, the
        provider calls made for a run never exceed that run's durable limit. */
    method Play(steps: seq<Step>)
      requires Valid()
      modifies this
      ensures Valid() && Remembers() && log == old(log) + steps
      ensures forall run :: run in jobs ==> run in made && made[run] <= jobs[run].caps.calls
    {
      var i := 0;
      while i < |steps|
        invariant 0 <= i <= |steps| && Valid() && Remembers() && log == old(log) + steps[..i]
      {
        Take(steps[i]);
        assert steps[..i + 1] == steps[..i] + [steps[i]];
        i := i + 1;
      }
    }
  }
}
