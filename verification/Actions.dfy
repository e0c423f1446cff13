/** Exact action specifications: their canonical text, the digest that binds an
    approval to them, and the arguments they carry. */
module Actions {
  import opened Domain
  import opened Json
  import opened TimeText
  import JsonCodec
  import Paths
  import TextOrder
  import Utf8

  // SHA-256 in hexadecimal, which this model takes as a parameter.
  type Hash = Bytes -> string

  function HashText(h: Hash, text: string): string { h(Utf8.Encode(text)) }

  // ---------- enum texts ----------

  function RiskText(r: RiskClass): string {
    match r
    case LocalRead => "local_read"
    case ReversibleWorkspaceWrite => "reversible_workspace_write"
    case ProcessExecution => "process_execution"
    case NetworkAccess => "network_access"
    case SecretAccess => "secret_or_credential_access"
    case ExternalCommunication => "external_communication"
    case FinancialAction => "financial_or_cost_bearing_action"
    case DestructiveAction => "destructive_or_irreversible_action"
    case PolicyConfigurationChange => "policy_or_configuration_change"
  }

  function PriorText(p: PriorState): string {
    match p
    case Absent => "absent"
    case RegularFile => "regular_file"
    case NotApplicable => "not_applicable"
  }

  lemma RiskTexts(r: RiskClass, s: RiskClass)
    ensures RiskText(r) == RiskText(s) ==> r == s
  {
    RiskLength(r);
    RiskLength(s);
  }

  // The lengths alone tell the risk classes apart.
  lemma RiskLength(r: RiskClass)
    ensures |RiskText(r)| == match r
                             case LocalRead => 10
                             case ReversibleWorkspaceWrite => 26
                             case ProcessExecution => 17
                             case NetworkAccess => 14
                             case SecretAccess => 27
                             case ExternalCommunication => 22
                             case FinancialAction => 32
                             case DestructiveAction => 34
                             case PolicyConfigurationChange => 30
  {
  }

  lemma PriorTexts(p: PriorState, q: PriorState)
    ensures PriorText(p) == PriorText(q) ==> p == q
  {
    PriorLength(p);
    PriorLength(q);
  }

  lemma PriorLength(p: PriorState)
    ensures |PriorText(p)| == match p case Absent => 6 case RegularFile => 12 case NotApplicable => 14
  {
  }

  // ---------- members of an object with a fixed list of keys ----------

  function Zip(keys: seq<string>, values: seq<Json>): (r: seq<(string, Json)>)
    requires |keys| == |values|
    ensures |r| == |keys|
  {
    seq(|keys|, i requires 0 <= i < |keys| => (keys[i], values[i]))
  }

  predicate Distinct(keys: seq<string>) { forall i, j :: 0 <= i < j < |keys| ==> keys[i] != keys[j] }

  lemma ZipMember(keys: seq<string>, u: seq<Json>, v: seq<Json>, i: nat)
    requires |keys| == |u| == |v| && Distinct(keys) && i < |keys|
    requires Canon(Obj(Zip(keys, u))) == Canon(Obj(Zip(keys, v)))
    ensures Canon(u[i]) == Canon(v[i])
  {
    var ms, ns := CanonMembers(Zip(keys, u)), CanonMembers(Zip(keys, v));
    CanonUnfold(Obj(Zip(keys, u)));
    CanonUnfold(Obj(Zip(keys, v)));
    JsonCodec.SortElements(ms);
    JsonCodec.SortElements(ns);
    assert ms[i] in ms;
    assert ms[i] in ns;
    var j :| 0 <= j < |ns| && ns[j] == ms[i];
    assert keys[i] == keys[j];
  }

  // Objects over the same distinct keys print alike exactly when their values do.
  lemma SameKeysSameValues(keys: seq<string>, u: seq<Json>, v: seq<Json>)
    requires |keys| == |u| == |v| && Distinct(keys)
    requires Canon(Obj(Zip(keys, u))) == Canon(Obj(Zip(keys, v)))
    ensures forall i :: 0 <= i < |keys| ==> Canon(u[i]) == Canon(v[i])
  {
    forall i | 0 <= i < |keys| ensures Canon(u[i]) == Canon(v[i]) { ZipMember(keys, u, v, i); }
  }

  // ---------- the canonical text of an action ----------

  const BUDGET_KEYS: seq<string> := [
    "max_provider_calls", "max_tokens", "max_bytes", "max_retries", "max_rounds", "max_recursion_depth",
    "max_concurrency", "max_wall_time_ms", "max_lease_ms", "max_tool_calls"]

  function BudgetValues(b: BudgetLimits): seq<Json> {
    [Int(b.maxProviderCalls), Int(b.maxTokens), Int(b.maxBytes), Int(b.maxRetries), Int(b.maxRounds),
     Int(b.maxRecursionDepth), Int(b.maxConcurrency), Int(b.maxWallTimeMs), Int(b.maxLeaseMs), Int(b.maxToolCalls)]
  }

  function BudgetJson(b: BudgetLimits): Json { Obj(Zip(BUDGET_KEYS, BudgetValues(b))) }

  const ACTION_KEYS: seq<string> := [
    "schema_version", "normalization_version", "tool_name", "tool_schema_version", "policy_version",
    "requester_id", "owner_id", "run_id", "work_item_id", "risk_class", "root", "target",
    "arguments_json", "arguments_sha256", "expected_prior_state", "overwrite", "content_sha256",
    "content_length", "budget", "created_at", "expires_at", "nonce"]

  function OptionalText(s: Option<string>): Json { if s.Some? then Str(s.value) else Null }

  function OptionalInt(n: Option<nat>): Json { if n.Some? then Int(n.value) else Null }

  ghost predicate Dated(a: ActionSpec) { Representable(a.createdAt) && Representable(a.expiresAt) }

  ghost function ActionValues(a: ActionSpec): seq<Json>
    requires Dated(a)
  {
    [Int(1), Str("canonical-json-v1"), Str(a.toolName), Str(a.toolSchemaVersion), Str(a.policyVersion),
     Str(a.requesterId), Str(a.ownerId), Str(a.runId), OptionalText(a.workItemId), Str(RiskText(a.riskClass)),
     Str(a.root), Str(a.target), Str(a.argumentsJson), Str(a.argumentsSha256), Str(PriorText(a.expectedPriorState)),
     Bool(a.overwrite), OptionalText(a.contentSha256), OptionalInt(a.contentLength), BudgetJson(a.budget),
     Str(TimeTextOf(a.createdAt)), Str(TimeTextOf(a.expiresAt)), Str(a.nonce)]
  }

  // model_dump of an action, in field order
  ghost function ActionJson(a: ActionSpec): Json
    requires Dated(a)
  {
    Obj(Zip(ACTION_KEYS, ActionValues(a)))
  }

  // canonical_action_bytes
  ghost function ActionBytes(a: ActionSpec): Bytes
    requires Dated(a)
  {
    Utf8.Encode(Print(ActionJson(a)))
  }

  // action_digest
  ghost function ActionDigest(h: Hash, a: ActionSpec): string
    requires Dated(a)
  {
    h(ActionBytes(a))
  }

  // ---------- the keys are distinct ----------

  // Length and two characters tell every key apart.
  lemma BudgetKeysDistinct()
    ensures Distinct(BUDGET_KEYS)
  {
    var ks := BUDGET_KEYS;
    assert forall i, j :: 0 <= i < j < |ks| ==> |ks[i]| != |ks[j]| || ks[i][4] != ks[j][4];
  }

  lemma ActionKeysDistinct()
    ensures Distinct(ACTION_KEYS)
  {
    var ks := ACTION_KEYS;
    assert forall i :: 0 <= i < |ks| ==> |ks[i]| > 0;
    assert forall i, j :: 0 <= i < j < |ks| ==>
      |ks[i]| != |ks[j]| || ks[i][0] != ks[j][0] || ks[i][|ks[i]| - 1] != ks[j][|ks[j]| - 1];
  }

  // ---------- what the text determines ----------

  predicate IsLeaf(v: Json) { v.Null? || v.Bool? || v.Int? || v.Str? }

  // Every value but the nested budget is a leaf.
  lemma LeafShape(a: ActionSpec, i: nat)
    requires Dated(a) && i < |ActionValues(a)|
    ensures if i == 18 then ActionValues(a)[i] == BudgetJson(a.budget) else IsLeaf(ActionValues(a)[i])
  {
    var u := ActionValues(a);
    if i < 9 {
      assert forall j :: 0 <= j < 9 ==> IsLeaf(u[j]);
    } else {
      assert forall j :: 9 <= j < 18 ==> IsLeaf(u[j]);
      assert forall j :: 19 <= j < 22 ==> IsLeaf(u[j]);
    }
  }

  // An action prints: no float, no repeated key, and two levels deep.
  lemma ActionPrints(a: ActionSpec)
    requires Dated(a)
    ensures WellFormed(ActionJson(a)) && NoFloats(ActionJson(a))
    ensures CanonicalText(ActionJson(a)) == Some(Print(ActionJson(a)))
  {
    ActionKeysDistinct();
    BudgetPrints(a.budget);
    var ms := ActionJson(a).members;
    forall i | 0 <= i < |ms| ensures WellFormed(ms[i].1) && NoFloats(ms[i].1) && Shallow(ms[i].1, 1) {
      LeafShape(a, i);
    }
    NormalizeExact(ActionJson(a), 0);
  }

  lemma BudgetPrints(b: BudgetLimits)
    ensures WellFormed(BudgetJson(b)) && NoFloats(BudgetJson(b)) && Shallow(BudgetJson(b), 1)
  {
    BudgetKeysDistinct();
    var ms := BudgetJson(b).members;
    forall i | 0 <= i < |ms| ensures WellFormed(ms[i].1) && NoFloats(ms[i].1) && Shallow(ms[i].1, 2) {
      assert ms[i].1.Int?;
    }
  }

  lemma BudgetDetermined(b: BudgetLimits, c: BudgetLimits)
    requires Canon(BudgetJson(b)) == Canon(BudgetJson(c))
    ensures b == c
  {
    BudgetKeysDistinct();
    var u, v := BudgetValues(b), BudgetValues(c);
    SameKeysSameValues(BUDGET_KEYS, u, v);
    assert forall i :: 0 <= i < |u| ==> u[i] == v[i];
    assert u == v;
    assert b == BudgetLimits(u[0].i, u[1].i, u[2].i, u[3].i, u[4].i, u[5].i, u[6].i, u[7].i, u[8].i, u[9].i);
    assert c == BudgetLimits(v[0].i, v[1].i, v[2].i, v[3].i, v[4].i, v[5].i, v[6].i, v[7].i, v[8].i, v[9].i);
  }

  lemma TimeDetermined(t: Time, u: Time)
    requires Representable(t) && Representable(u) && TimeTextOf(t) == TimeTextOf(u)
    ensures t == u
  {
    TextOrderIsTimeOrder(StampOf(t), StampOf(u));
  }

  lemma LeafDetermined(a: ActionSpec, b: ActionSpec, i: nat)
    requires Dated(a) && Dated(b) && i < |ActionValues(a)| && i != 18
    requires Canon(ActionValues(a)[i]) == Canon(ActionValues(b)[i])
    ensures ActionValues(a)[i] == ActionValues(b)[i]
  {
    LeafShape(a, i);
    LeafShape(b, i);
  }

  // All values but the nested budget agree.
  ghost predicate LeavesAgree(a: ActionSpec, b: ActionSpec)
    requires Dated(a) && Dated(b)
  {
    forall i :: 0 <= i < |ActionValues(a)| && i != 18 ==> ActionValues(a)[i] == ActionValues(b)[i]
  }

  lemma ActionDetermined(a: ActionSpec, b: ActionSpec)
    requires Dated(a) && Dated(b) && Canon(ActionJson(a)) == Canon(ActionJson(b))
    ensures a == b
  {
    ActionKeysDistinct();
    SameKeysSameValues(ACTION_KEYS, ActionValues(a), ActionValues(b));
    forall i | 0 <= i < |ActionValues(a)| && i != 18 ensures ActionValues(a)[i] == ActionValues(b)[i] {
      LeafDetermined(a, b, i);
    }
    assert LeavesAgree(a, b);
    BudgetAgrees(a, b);
    NamesAgree(a, b);
    PrincipalsAgree(a, b);
    ClassAgrees(a, b);
    BindingsAgree(a, b);
    PreconditionsAgree(a, b);
    DatesAgree(a, b);
  }

  lemma BudgetAgrees(a: ActionSpec, b: ActionSpec)
    requires Dated(a) && Dated(b) && Canon(ActionValues(a)[18]) == Canon(ActionValues(b)[18])
    ensures a.budget == b.budget
  {
    BudgetDetermined(a.budget, b.budget);
  }

  lemma NamesAgree(a: ActionSpec, b: ActionSpec)
    requires Dated(a) && Dated(b) && LeavesAgree(a, b)
    ensures a.toolName == b.toolName && a.toolSchemaVersion == b.toolSchemaVersion
    ensures a.policyVersion == b.policyVersion
  {
    hide RiskText, PriorText, BudgetJson, TimeTextOf;
    var u, v := ActionValues(a), ActionValues(b);
    assert u[2] == v[2] && u[3] == v[3] && u[4] == v[4];
  }

  lemma PrincipalsAgree(a: ActionSpec, b: ActionSpec)
    requires Dated(a) && Dated(b) && LeavesAgree(a, b)
    ensures a.requesterId == b.requesterId && a.ownerId == b.ownerId && a.runId == b.runId
  {
    hide RiskText, PriorText, BudgetJson, TimeTextOf;
    var u, v := ActionValues(a), ActionValues(b);
    assert u[5] == v[5] && u[6] == v[6] && u[7] == v[7];
  }

  lemma ClassAgrees(a: ActionSpec, b: ActionSpec)
    requires Dated(a) && Dated(b) && LeavesAgree(a, b)
    ensures a.workItemId == b.workItemId && a.riskClass == b.riskClass
  {
    hide RiskText, PriorText, BudgetJson, TimeTextOf;
    var u, v := ActionValues(a), ActionValues(b);
    assert u[8] == v[8] && u[9] == v[9];
    RiskTexts(a.riskClass, b.riskClass);
  }

  lemma BindingsAgree(a: ActionSpec, b: ActionSpec)
    requires Dated(a) && Dated(b) && LeavesAgree(a, b)
    ensures a.root == b.root && a.target == b.target && a.argumentsJson == b.argumentsJson
    ensures a.argumentsSha256 == b.argumentsSha256
  {
    hide RiskText, PriorText, BudgetJson, TimeTextOf;
    var u, v := ActionValues(a), ActionValues(b);
    assert u[10] == v[10] && u[11] == v[11] && u[12] == v[12] && u[13] == v[13];
  }

  lemma PreconditionsAgree(a: ActionSpec, b: ActionSpec)
    requires Dated(a) && Dated(b) && LeavesAgree(a, b)
    ensures a.expectedPriorState == b.expectedPriorState && a.overwrite == b.overwrite
    ensures a.contentSha256 == b.contentSha256 && a.contentLength == b.contentLength
  {
    hide RiskText, PriorText, BudgetJson, TimeTextOf;
    var u, v := ActionValues(a), ActionValues(b);
    assert u[14] == v[14] && u[15] == v[15] && u[16] == v[16] && u[17] == v[17];
    PriorTexts(a.expectedPriorState, b.expectedPriorState);
  }

  lemma DatesAgree(a: ActionSpec, b: ActionSpec)
    requires Dated(a) && Dated(b) && LeavesAgree(a, b)
    ensures a.createdAt == b.createdAt && a.expiresAt == b.expiresAt && a.nonce == b.nonce
  {
    var u, v := ActionValues(a), ActionValues(b);
    assert u[19] == v[19] && u[20] == v[20] && u[21] == v[21];
    TimeDetermined(a.createdAt, b.createdAt);
    TimeDetermined(a.expiresAt, b.expiresAt);
  }

  /** The canonical bytes of an action determine every field. */
  lemma ActionBytesInjective(a: ActionSpec, b: ActionSpec)
    requires Dated(a) && Dated(b)
    ensures ActionBytes(a) == ActionBytes(b) <==> a == b
  {
    if ActionBytes(a) == ActionBytes(b) {
      Utf8.EncodeInjective(Print(ActionJson(a)), Print(ActionJson(b)));
      ActionPrints(a);
      ActionPrints(b);
      JsonCodec.TextDeterminesValue(ActionJson(a), ActionJson(b));
      ActionDetermined(a, b);
    }
  }

  // The hash does not collide on these two inputs.
  predicate NoCollision(h: Hash, x: Bytes, y: Bytes) { h(x) == h(y) ==> x == y }

  /** Two actions share a digest exactly when all their fields agree, wherever the hash
      does not collide on their two encodings. */
  lemma DigestBindsAction(h: Hash, a: ActionSpec, b: ActionSpec)
    requires Dated(a) && Dated(b)
    requires NoCollision(h, ActionBytes(a), ActionBytes(b))
    ensures ActionDigest(h, a) == ActionDigest(h, b) <==> a == b
  {
    ActionBytesInjective(a, b);
  }

  // ---------- decoded arguments ----------

  type Members = seq<(string, Json)>

  // decoded_arguments, None where it raises
  function Arguments(a: ActionSpec): (r: Option<Members>)
    ensures r.Some? ==> DistinctKeys(r.value)
  {
    var v := RequireCanonical(a.argumentsJson);
    if v.Some? && v.value.Obj? then Some(v.value.members) else None
  }

  // set(arguments)
  function KeySet(ms: Members): set<string> { set i | 0 <= i < |ms| :: ms[i].0 }

  // arguments.get(key)
  function Get(ms: Members, key: string): Option<Json> {
    if ms == [] then None else if ms[0].0 == key then Some(ms[0].1) else Get(ms[1..], key)
  }

  datatype WriteArguments = WriteArguments(path: string, content: string)

  // The arguments of sandbox.write_text: exactly a text path and a text content.
  function WriteOf(ms: Members): Option<WriteArguments> {
    var p, c := Get(ms, "path"), Get(ms, "content");
    if KeySet(ms) == {"path", "content"} && p.Some? && p.value.Str? && c.Some? && c.value.Str?
    then Some(WriteArguments(p.value.s, c.value.s)) else None
  }

  function DecodeWrite(a: ActionSpec): Option<WriteArguments> {
    var ms := Arguments(a);
    if ms.None? then None else WriteOf(ms.value)
  }

  predicate IsHexDigest(s: string) {
    |s| == 64 && forall i :: 0 <= i < |s| ==> '0' <= s[i] <= '9' || 'a' <= s[i] <= 'f'
  }

  // The field constraints and validate_binding of the model.
  predicate ValidAction(h: Hash, a: ActionSpec) {
    && a.toolName != "" && a.toolSchemaVersion != "" && a.policyVersion != ""
    && a.requesterId != "" && a.ownerId != "" && a.runId != ""
    && Paths.CanonicalAbsolute(a.root) && Paths.CanonicalAbsolute(a.target)
    && Arguments(a).Some?
    && IsHexDigest(a.argumentsSha256) && HashText(h, a.argumentsJson) == a.argumentsSha256
    && Paths.RelativeTo(Paths.Parse(a.target), Paths.Parse(a.root))
    && a.createdAt < a.expiresAt
    && (a.contentSha256.None? <==> a.contentLength.None?)
    && (a.contentSha256.Some? ==> IsHexDigest(a.contentSha256.value))
    && 16 <= |a.nonce| <= 256
  }

  // The text of a SHA-256 digest.
  predicate DigestText(s: string) { |s| == 64 && forall c :: c in s ==> c in "0123456789abcdef" }

  // An object in its canonical text, with the hash that goes with it.
  predicate ArgumentsBound(h: Hash, a: ActionSpec) {
    var v := RequireCanonical(a.argumentsJson);
    v.Some? && v.value.Obj? && DigestText(a.argumentsSha256) && a.argumentsSha256 == h(Utf8.Encode(a.argumentsJson))
  }

  /** An action is valid exactly when its names are there, its target continues its root
      component by component, its arguments are a canonical object bound by their hash, it
      has a life time, and the digest of a content comes with its length. */
  lemma ValidExactly(h: Hash, a: ActionSpec)
    ensures ValidAction(h, a) <==>
            && "" !in {a.toolName, a.toolSchemaVersion, a.policyVersion, a.requesterId, a.ownerId, a.runId}
            && Paths.CanonicalAbsolute(a.root) && Paths.CanonicalAbsolute(a.target)
            && Paths.Parse(a.root).root == Paths.Parse(a.target).root
            && Paths.Parse(a.root).parts <= Paths.Parse(a.target).parts
            && ArgumentsBound(h, a) && a.expiresAt - a.createdAt > 0
            && 16 <= |a.nonce| && |a.nonce| <= 256
            && (match (a.contentSha256, a.contentLength)
                case (Some(digest), Some(_)) => DigestText(digest)
                case (None, None) => true
                case _ => false)
  {
    hide Paths.CanonicalAbsolute, Paths.Parse, RequireCanonical, Utf8.Encode;
    HexOrDigest(a.argumentsSha256);
    if a.contentSha256.Some? { HexOrDigest(a.contentSha256.value); }
  }

  lemma HexOrDigest(s: string)
    ensures IsHexDigest(s) <==> DigestText(s)
  {
    HexDigits();
    assert forall i :: 0 <= i < |s| ==> s[i] in s;
  }

  lemma HexDigits()
    ensures forall c: char :: c in "0123456789abcdef" <==> '0' <= c <= '9' || 'a' <= c <= 'f'
  {
    var digits := "0123456789abcdef";
    assert forall i :: 0 <= i < 10 ==> digits[i] as int == '0' as int + i;
    assert forall i :: 10 <= i < 16 ==> digits[i] as int == 'a' as int + i - 10;
    forall c: char ensures c in digits <==> '0' <= c <= '9' || 'a' <= c <= 'f' {
      if '0' <= c <= '9' { assert digits[c as int - '0' as int] == c; }
      if 'a' <= c <= 'f' { assert digits[c as int - 'a' as int + 10] == c; }
    }
  }

  /** Valid actions with the same argument hash carry the same arguments. */
  lemma ArgumentHashBinds(h: Hash, a: ActionSpec, b: ActionSpec)
    requires ValidAction(h, a) && ValidAction(h, b) && a.argumentsSha256 == b.argumentsSha256
    requires NoCollision(h, Utf8.Encode(a.argumentsJson), Utf8.Encode(b.argumentsJson))
    ensures a.argumentsJson == b.argumentsJson && Arguments(a) == Arguments(b) && DecodeWrite(a) == DecodeWrite(b)
  {
    Utf8.EncodeInjective(a.argumentsJson, b.argumentsJson);
  }

  // The two dict items of a write, in the order the caller gives them.
  function WriteMembers(p: (string, string), c: (string, string)): Members {
    [(p.0, Str(p.1)), (c.0, Str(c.1))]
  }

  lemma SortTwo(x: (string, Json), y: (string, Json))
    ensures SortMembers([x, y]) == [x, y] || SortMembers([x, y]) == [y, x]
  {
    assert [x, y][1..] == [y];
    assert SortMembers([y]) == InsertMember(y, []) == [y];
    assert SortMembers([x, y]) == InsertMember(x, [y]);
    if !TextOrder.Leq(x.0, y.0) {
      assert [y][1..] == [];
      assert InsertMember(x, [y]) == [y] + InsertMember(x, []);
    }
  }

  // An object of two leaves comes back from its canonical text, in one order or the other.
  lemma PairRoundTrip(a: ActionSpec, x: (string, Json), y: (string, Json))
    requires x.0 != y.0 && IsLeaf(x.1) && IsLeaf(y.1) && CanonicalText(Obj([x, y])) == Some(a.argumentsJson)
    ensures Arguments(a).Some? && KeySet(Arguments(a).value) == {x.0, y.0}
    ensures Get(Arguments(a).value, x.0) == Some(x.1) && Get(Arguments(a).value, y.0) == Some(y.1)
  {
    var ms := [x, y];
    NormalizeExact(Obj(ms), 0);
    JsonCodec.AcceptsPrinted(Obj(ms));
    CanonUnfold(Obj(ms));
    assert CanonMembers(ms) == ms;
    SortTwo(x, y);
    LookUpTwo(x, y, Arguments(a).value);
  }

  lemma LookUpTwo(x: (string, Json), y: (string, Json), got: Members)
    requires x.0 != y.0 && (got == [x, y] || got == [y, x])
    ensures KeySet(got) == {x.0, y.0} && Get(got, x.0) == Some(x.1) && Get(got, y.0) == Some(y.1)
  {
    assert got[1..] == [got[1]];
    assert KeySet(got) == {got[0].0, got[1].0};
    assert Get(got[1..], got[1].0) == Some(got[1].1);
  }

  /** Arguments survive their canonical text: decoding the text built for a path and a
      content gives that path and content back. */
  lemma WriteArgumentsRoundTrip(a: ActionSpec, path: string, content: string)
    requires CanonicalText(Obj(WriteMembers(("path", path), ("content", content)))) == Some(a.argumentsJson)
    ensures DecodeWrite(a) == Some(WriteArguments(path, content))
  {
    assert |"path"| != |"content"|;
    PairRoundTrip(a, ("path", Str(path)), ("content", Str(content)));
  }

  // The arguments of fs.read.
  function ReadMembers(path: string, limit: nat): Members { [("path", Str(path)), ("max_bytes", Int(limit))] }

  lemma ReadArgumentsRoundTrip(a: ActionSpec, path: string, limit: nat)
    requires a.argumentsJson == Print(Obj(ReadMembers(path, limit)))
    ensures Arguments(a).Some? && KeySet(Arguments(a).value) == {"path", "max_bytes"}
    ensures Get(Arguments(a).value, "path") == Some(Str(path))
    ensures Get(Arguments(a).value, "max_bytes") == Some(Int(limit))
  {
    assert |"path"| != |"max_bytes"|;
    NormalizeExact(Obj(ReadMembers(path, limit)), 0);
    PairRoundTrip(a, ("path", Str(path)), ("max_bytes", Int(limit)));
  }

  // ---------- what stands under each key ----------

  lemma {:induction false} GetMember(ms: Members, i: nat)
    requires DistinctKeys(ms) && i < |ms|
    ensures Get(ms, ms[i].0) == Some(ms[i].1)
  {
    if i > 0 {
      assert ms[1..][i - 1] == ms[i];
      GetMember(ms[1..], i - 1);
    }
  }

  // Reading the text gives an object with exactly these keys.
  ghost predicate HasKeys(text: string, keys: seq<string>) {
    var v := Loads(text);
    v.Some? && v.value.Obj? && forall k :: k in KeySet(v.value.members) <==> k in keys
  }

  // What stands under a key of a value that was read.
  function Under(v: Option<Json>, key: string): Option<Json> {
    if v.Some? && v.value.Obj? then Get(v.value.members, key) else None
  }

  /** The printed object has each value under its own key, and no other key. */
  lemma KeyedText(keys: seq<string>, values: seq<Json>)
    requires |keys| == |values| && Distinct(keys)
    requires WellFormed(Obj(Zip(keys, values))) && NoFloats(Obj(Zip(keys, values)))
    ensures HasKeys(Print(Obj(Zip(keys, values))), keys)
    ensures forall i :: 0 <= i < |keys| ==> Under(Loads(Print(Obj(Zip(keys, values)))), keys[i]) == Some(Canon(values[i]))
  {
    hide Print, WellFormed, NoFloats;
    var v := Obj(Zip(keys, values));
    var ms := CanonMembers(v.members);
    JsonCodec.RoundTrip(v);
    CanonUnfold(v);
    JsonCodec.SortElements(ms);
    var got := SortMembers(ms);
    assert DistinctKeys(got) by { Distinctly(keys, values); }
    forall i | 0 <= i < |keys| ensures Get(got, keys[i]) == Some(Canon(values[i])) {
      assert ms[i] == (keys[i], Canon(values[i])) && ms[i] in got;
      var j :| 0 <= j < |got| && got[j] == ms[i];
      GetMember(got, j);
    }
    forall k ensures k in KeySet(got) <==> k in keys {
      if k in KeySet(got) {
        var j :| 0 <= j < |got| && got[j].0 == k;
        assert got[j] in ms;
        var i :| 0 <= i < |ms| && ms[i] == got[j];
        assert keys[i] == k;
      }
      if k in keys {
        var i :| 0 <= i < |keys| && keys[i] == k;
        assert ms[i] in got;
        var j :| 0 <= j < |got| && got[j] == ms[i];
      }
    }
  }

  // The reader keeps keys apart.
  lemma Distinctly(keys: seq<string>, values: seq<Json>)
    requires |keys| == |values| && WellFormed(Obj(Zip(keys, values))) && NoFloats(Obj(Zip(keys, values)))
    ensures DistinctKeys(SortMembers(CanonMembers(Zip(keys, values))))
  {
    hide Print;
    var v := Obj(Zip(keys, values));
    JsonCodec.RoundTrip(v);
    CanonUnfold(v);
    assert WellFormed(Loads(Print(v)).value);
  }

  predicate BudgetKeyed(v: Option<Json>, b: BudgetLimits) {
    && Under(v, "max_provider_calls") == Some(Int(b.maxProviderCalls)) && Under(v, "max_tokens") == Some(Int(b.maxTokens))
    && Under(v, "max_bytes") == Some(Int(b.maxBytes)) && Under(v, "max_retries") == Some(Int(b.maxRetries))
    && Under(v, "max_rounds") == Some(Int(b.maxRounds))
    && Under(v, "max_recursion_depth") == Some(Int(b.maxRecursionDepth))
    && Under(v, "max_concurrency") == Some(Int(b.maxConcurrency))
    && Under(v, "max_wall_time_ms") == Some(Int(b.maxWallTimeMs)) && Under(v, "max_lease_ms") == Some(Int(b.maxLeaseMs))
    && Under(v, "max_tool_calls") == Some(Int(b.maxToolCalls))
  }

  predicate OriginKeyed(v: Option<Json>, a: ActionSpec) {
    && Under(v, "schema_version") == Some(Int(1)) && Under(v, "normalization_version") == Some(Str("canonical-json-v1"))
    && Under(v, "tool_name") == Some(Str(a.toolName)) && Under(v, "tool_schema_version") == Some(Str(a.toolSchemaVersion))
    && Under(v, "policy_version") == Some(Str(a.policyVersion)) && Under(v, "requester_id") == Some(Str(a.requesterId))
    && Under(v, "owner_id") == Some(Str(a.ownerId)) && Under(v, "run_id") == Some(Str(a.runId))
    && Under(v, "work_item_id") == Some(OptionalText(a.workItemId))
  }

  predicate EffectKeyed(v: Option<Json>, a: ActionSpec) {
    && Under(v, "risk_class") == Some(Str(RiskText(a.riskClass)))
    && Under(v, "root") == Some(Str(a.root)) && Under(v, "target") == Some(Str(a.target))
    && Under(v, "arguments_json") == Some(Str(a.argumentsJson))
    && Under(v, "arguments_sha256") == Some(Str(a.argumentsSha256))
    && Under(v, "expected_prior_state") == Some(Str(PriorText(a.expectedPriorState)))
    && Under(v, "overwrite") == Some(Bool(a.overwrite))
    && Under(v, "content_sha256") == Some(OptionalText(a.contentSha256))
    && Under(v, "content_length") == Some(OptionalInt(a.contentLength))
  }

  ghost predicate DatesKeyed(v: Option<Json>, a: ActionSpec)
    requires Dated(a)
  {
    && Under(v, "created_at") == Some(Str(TimeTextOf(a.createdAt)))
    && Under(v, "expires_at") == Some(Str(TimeTextOf(a.expiresAt))) && Under(v, "nonce") == Some(Str(a.nonce))
  }

  lemma BudgetRead(b: BudgetLimits, v: Option<Json>)
    requires forall i :: 0 <= i < |BUDGET_KEYS| ==> Under(v, BUDGET_KEYS[i]) == Some(Canon(BudgetValues(b)[i]))
    ensures BudgetKeyed(v, b)
  {
    hide Under;
    var ks := BUDGET_KEYS;
    assert Under(v, ks[0]).Some? && Under(v, ks[1]).Some? && Under(v, ks[2]).Some? && Under(v, ks[3]).Some?;
    assert Under(v, ks[4]).Some? && Under(v, ks[5]).Some? && Under(v, ks[6]).Some? && Under(v, ks[7]).Some?;
    assert Under(v, ks[8]).Some? && Under(v, ks[9]).Some?;
  }

  // Each value of an action stands under the key of its place.
  ghost predicate Placed(v: Option<Json>, a: ActionSpec)
    requires Dated(a)
  {
    forall i :: 0 <= i < |ACTION_KEYS| ==> Under(v, ACTION_KEYS[i]) == Some(Canon(ActionValues(a)[i]))
  }

  lemma OriginRead(v: Option<Json>, a: ActionSpec)
    requires Dated(a) && Placed(v, a)
    ensures OriginKeyed(v, a)
  {
    hide Under, RiskText, PriorText, BudgetJson, TimeTextOf;
    var ks := ACTION_KEYS;
    assert Under(v, ks[0]).Some? && Under(v, ks[1]).Some? && Under(v, ks[2]).Some? && Under(v, ks[3]).Some?;
    assert Under(v, ks[4]).Some? && Under(v, ks[5]).Some? && Under(v, ks[6]).Some? && Under(v, ks[7]).Some?;
    assert Under(v, ks[8]).Some?;
  }

  lemma EffectRead(v: Option<Json>, a: ActionSpec)
    requires Dated(a) && Placed(v, a)
    ensures EffectKeyed(v, a)
  {
    hide Under, RiskText, PriorText, BudgetJson, TimeTextOf;
    var ks := ACTION_KEYS;
    assert Under(v, ks[9]).Some? && Under(v, ks[10]).Some? && Under(v, ks[11]).Some? && Under(v, ks[12]).Some?;
    assert Under(v, ks[13]).Some? && Under(v, ks[14]).Some? && Under(v, ks[15]).Some? && Under(v, ks[16]).Some?;
    assert Under(v, ks[17]).Some?;
  }

  lemma DatesRead(v: Option<Json>, a: ActionSpec)
    requires Dated(a) && Placed(v, a)
    ensures DatesKeyed(v, a) && Under(v, "budget") == Some(Canon(BudgetJson(a.budget)))
  {
    hide Under, RiskText, PriorText, BudgetJson, TimeTextOf;
    var ks := ACTION_KEYS;
    assert Under(v, ks[18]).Some? && Under(v, ks[19]).Some? && Under(v, ks[20]).Some? && Under(v, ks[21]).Some?;
  }

  /** Reading the canonical text of an action back gives each field under its own key, the
      limits one level below, and no other key. */
  lemma ActionKeyed(a: ActionSpec)
    requires Dated(a)
    ensures var v := Loads(Print(ActionJson(a)));
            && HasKeys(Print(ActionJson(a)), ACTION_KEYS) && OriginKeyed(v, a) && EffectKeyed(v, a) && DatesKeyed(v, a)
            && BudgetKeyed(Under(v, "budget"), a.budget)
  {
    hide OriginKeyed, EffectKeyed, DatesKeyed, BudgetKeyed, Under, Loads, Print, WellFormed, NoFloats, HasKeys;
    var v := Loads(Print(ActionJson(a)));
    ActionKeysDistinct();
    ActionPrints(a);
    KeyedText(ACTION_KEYS, ActionValues(a));
    assert Placed(v, a);
    hide Placed;
    OriginRead(v, a);
    EffectRead(v, a);
    DatesRead(v, a);
    BudgetKeysDistinct();
    BudgetPrints(a.budget);
    KeyedText(BUDGET_KEYS, BudgetValues(a.budget));
    JsonCodec.RoundTrip(BudgetJson(a.budget));
    BudgetRead(a.budget, Under(v, "budget"));
  }
}
