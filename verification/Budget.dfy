/** Charging a run's durable budget: all counters together, or nothing. */
module Budget {
  import opened Domain

  type Counters = map<string, nat>

  // (counter, limit) for the ten budget fields
  function LimitOf(b: BudgetLimits, name: string): Option<nat> {
    if name == "provider_calls" then Some(b.maxProviderCalls)
    else if name == "tokens" then Some(b.maxTokens)
    else if name == "bytes" then Some(b.maxBytes)
    else if name == "retries" then Some(b.maxRetries)
    else if name == "rounds" then Some(b.maxRounds)
    else if name == "recursion_depth" then Some(b.maxRecursionDepth)
    else if name == "concurrency" then Some(b.maxConcurrency)
    else if name == "wall_time_ms" then Some(b.maxWallTimeMs)
    else if name == "lease_ms" then Some(b.maxLeaseMs)
    else if name == "tool_calls" then Some(b.maxToolCalls)
    else None
  }

  // The validator of Budget: a value for known counters only, none above its limit.
  ghost predicate Within(b: BudgetLimits, usage: Counters) {
    forall n :: n in usage ==> LimitOf(b, n).Some? && usage[n] <= LimitOf(b, n).value
  }

  // What a list of increments adds to one counter.
  function Added(increments: seq<(string, int)>, name: string): int {
    if increments == [] then 0 else
    Added(increments[..|increments| - 1], name) +
    if increments[|increments| - 1].0 == name then increments[|increments| - 1].1 else 0
  }

  ghost predicate Chargeable(b: BudgetLimits, usage: Counters, increments: seq<(string, int)>) {
    && (forall i :: 0 <= i < |increments| ==> increments[i].0 in usage && increments[i].1 >= 0)
    && forall n :: n in usage ==> LimitOf(b, n).Some? && usage[n] + Added(increments, n) <= LimitOf(b, n).value
  }

  /** Budget.consume: succeeds exactly when every increment is a known, non-negative one
      and no counter passes its limit, and then every counter has grown by exactly what
      was asked for it; the budget passed in is never changed. */
  method Consume(b: BudgetLimits, usage: Counters, increments: seq<(string, int)>) returns (r: Option<Counters>)
    ensures r.Some? <==> Chargeable(b, usage, increments)
    ensures r.Some? ==> r.value.Keys == usage.Keys && Within(b, r.value) &&
                        forall n :: n in usage ==> r.value[n] == usage[n] + Added(increments, n)
  {
    var current: map<string, int> := map n | n in usage :: usage[n];
    var i := 0;
    while i < |increments|
      invariant 0 <= i <= |increments| && current.Keys == usage.Keys
      invariant forall k :: 0 <= k < i ==> increments[k].0 in usage && increments[k].1 >= 0
      invariant forall n :: n in usage ==> current[n] == usage[n] + Added(increments[..i], n) >= usage[n]
    {
      var (name, step) := increments[i];
      if name !in usage || step < 0 { return None; }
      assert increments[..i + 1][..i] == increments[..i];
      current := current[name := current[name] + step];
      i := i + 1;
    }
    assert increments[..i] == increments;
    if exists n :: n in current && (LimitOf(b, n).None? || current[n] > LimitOf(b, n).value) { return None; }
    r := Some(map n | n in current && current[n] >= 0 :: current[n]);
  }

  lemma {:induction false} AddedConcat(p: seq<(string, int)>, q: seq<(string, int)>, name: string)
    ensures Added(p + q, name) == Added(p, name) + Added(q, name)
    decreases q
  {
    if q == [] {
      assert p + q == p;
    } else {
      assert (p + q)[..|p + q| - 1] == p + q[..|q| - 1];
      AddedConcat(p, q[..|q| - 1], name);
    }
  }

  /** Charges accumulate: two charges in a row go through exactly when the first does and
      both together do, so no split of a charge gets past a limit. */
  lemma ChargesAccumulate(b: BudgetLimits, usage: Counters, p: seq<(string, int)>, q: seq<(string, int)>, after: Counters)
    requires Chargeable(b, usage, p) && after.Keys == usage.Keys
    requires forall n :: n in usage ==> after[n] == usage[n] + Added(p, n)
    ensures Chargeable(b, after, q) <==> Chargeable(b, usage, p + q)
  {
    forall n ensures Added(p + q, n) == Added(p, n) + Added(q, n) { AddedConcat(p, q, n); }
    if Chargeable(b, usage, p + q) {
      forall i | 0 <= i < |q| ensures q[i].0 in after && q[i].1 >= 0 { assert (p + q)[|p| + i] == q[i]; }
    }
  }

  const COUNTERS := {"provider_calls", "tokens", "bytes", "retries", "rounds", "recursion_depth", "concurrency",
                     "wall_time_ms", "lease_ms", "tool_calls"}

  // The ten lengths, and one pair of equal ones, tell the counters apart.
  lemma CounterLengths()
    ensures |"provider_calls"| == 14 && |"tokens"| == 6 && |"bytes"| == 5 && |"retries"| == 7 && |"rounds"| == 6
    ensures |"recursion_depth"| == 15 && |"concurrency"| == 11 && |"wall_time_ms"| == 12 && |"lease_ms"| == 8
    ensures |"tool_calls"| == 10 && "tokens"[0] == 't' && "rounds"[0] == 'r'
  {
  }

  /** Each counter has the limit of its own name, and there are no other counters. */
  lemma EachHasItsLimit(b: BudgetLimits, name: string)
    ensures LimitOf(b, "provider_calls") == Some(b.maxProviderCalls) && LimitOf(b, "tokens") == Some(b.maxTokens)
    ensures LimitOf(b, "bytes") == Some(b.maxBytes) && LimitOf(b, "retries") == Some(b.maxRetries)
    ensures LimitOf(b, "rounds") == Some(b.maxRounds) && LimitOf(b, "recursion_depth") == Some(b.maxRecursionDepth)
    ensures LimitOf(b, "concurrency") == Some(b.maxConcurrency) && LimitOf(b, "wall_time_ms") == Some(b.maxWallTimeMs)
    ensures LimitOf(b, "lease_ms") == Some(b.maxLeaseMs) && LimitOf(b, "tool_calls") == Some(b.maxToolCalls)
    ensures LimitOf(b, name).Some? <==> name in COUNTERS
  {
    CounterLengths();
  }

  // ---------- the charge of one tool call ----------

  // A counter that was never charged is zero.
  function Used(usage: Counters, name: string): nat { if name in usage then usage[name] else 0 }

  // The usage after one more tool call that moved n bytes.
  function Spend(usage: Counters, n: nat): Counters {
    usage["tool_calls" := Used(usage, "tool_calls") + 1]["bytes" := Used(usage, "bytes") + n]
  }

  ghost predicate OthersWithin(b: BudgetLimits, usage: Counters) {
    forall k :: k in usage && k != "tool_calls" && k != "bytes" ==> LimitOf(b, k).Some? && usage[k] <= LimitOf(b, k).value
  }

  lemma ToolCounters(b: BudgetLimits)
    ensures "tool_calls" != "bytes" && "tool_calls" != "wall_time_ms" && "tool_calls" != "lease_ms"
    ensures "bytes" != "wall_time_ms" && "bytes" != "lease_ms"
    ensures LimitOf(b, "tool_calls") == Some(b.maxToolCalls) && LimitOf(b, "bytes") == Some(b.maxBytes)
  {
    assert |"tool_calls"| == 10 && |"bytes"| == 5 && |"wall_time_ms"| == 12 && |"lease_ms"| == 8;
  }

  /** The stored usage after a tool call is what consume makes of the charge, and the
      charge is refused exactly when that usage passes a limit. */
  lemma SpendIsConsume(b: BudgetLimits, usage: Counters, n: nat)
    requires "tool_calls" in usage && "bytes" in usage
    ensures var charge := [("tool_calls", 1), ("bytes", n)];
            && (Chargeable(b, usage, charge) <==> Within(b, Spend(usage, n)))
            && Spend(usage, n).Keys == usage.Keys
            && forall k :: k in usage ==> Spend(usage, n)[k] == usage[k] + Added(charge, k)
  {
    hide LimitOf;
    ToolCounters(b);
    var charge := [("tool_calls", 1), ("bytes", n)];
    assert charge[..1] == [("tool_calls", 1)];
    forall k ensures Added(charge, k) == if k == "tool_calls" then 1 else if k == "bytes" then n else 0 {
      assert Added(charge, k) == Added(charge[..1], k) + if k == "bytes" then n else 0;
    }
  }

  /** A tool call can be charged exactly when a call and its bytes are left and no other
      counter is over its limit already. */
  lemma SpendFits(b: BudgetLimits, usage: Counters, n: nat)
    ensures Within(b, Spend(usage, n)) <==>
            Used(usage, "tool_calls") + 1 <= b.maxToolCalls && Used(usage, "bytes") + n <= b.maxBytes && OthersWithin(b, usage)
    ensures OthersWithin(b, Spend(usage, n)) <==> OthersWithin(b, usage)
    ensures Used(Spend(usage, n), "tool_calls") == Used(usage, "tool_calls") + 1
    ensures Used(Spend(usage, n), "bytes") == Used(usage, "bytes") + n
    ensures Used(Spend(usage, n), "wall_time_ms") == Used(usage, "wall_time_ms")
    ensures Used(Spend(usage, n), "lease_ms") == Used(usage, "lease_ms")
  {
    hide LimitOf;
    ToolCounters(b);
    var s := Spend(usage, n);
    assert forall k :: k in usage ==> k in s;
    if Within(b, s) {
      assert "tool_calls" in s && "bytes" in s;
    }
    if OthersWithin(b, s) {
      forall k | k in usage && k != "tool_calls" && k != "bytes"
        ensures LimitOf(b, k).Some? && usage[k] <= LimitOf(b, k).value
      {
        assert s[k] == usage[k];
      }
    }
  }
}
