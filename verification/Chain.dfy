/** The hash chain of the journal as it is stored: rows of text columns, the check that
    walks them, and what a head checkpoint pins down. */
module Chain {
  import opened Domain
  import opened Json
  import opened Actions
  import JsonCodec
  import Utf8

  datatype Row = Row(
    sequence: int, runSequence: int, eventId: string, runId: string, schemaVersion: int, eventType: string,
    actorId: string, createdAt: string, payloadJson: string, payloadHash: string, previousHash: string,
    eventHash: string)

  function Zeros(n: nat): string { if n == 0 then [] else ['0'] + Zeros(n - 1) }

  // "0" * 64
  const GENESIS: string := Zeros(64)

  // ---------- the hash of a row ----------

  const MATERIAL_KEYS: seq<string> := [
    "actor_id", "created_at", "event_id", "event_type", "payload_hash", "previous_hash", "run_id",
    "run_sequence", "schema_version", "sequence"]

  function MaterialValues(r: Row): seq<Json> {
    [Str(r.actorId), Str(r.createdAt), Str(r.eventId), Str(r.eventType), Str(r.payloadHash), Str(r.previousHash),
     Str(r.runId), Int(r.runSequence), Int(r.schemaVersion), Int(r.sequence)]
  }

  // event_hash_material
  function Material(r: Row): Json { Obj(Zip(MATERIAL_KEYS, MaterialValues(r))) }

  function MaterialBytes(r: Row): Bytes { Utf8.Encode(Print(Material(r))) }

  // compute_event_hash
  function EventHash(h: Hash, r: Row): string { h(MaterialBytes(r)) }

  // canonical_dumps of the persistence layer: no depth bound, floats refused
  function Dumps(v: Json): Option<string> { if NoFloats(v) then Some(Print(v)) else None }

  // The canonical text of a stored payload, where it has one.
  function CanonicalPayload(text: string): Option<string> {
    var v := Loads(text);
    if v.None? then None else Dumps(v.value)
  }

  // What the later tests work on: the empty text where there is none.
  function OrEmpty(text: Option<string>): string { if text.None? then "" else text.value }

  // ---------- verify_rows ----------

  datatype Problem = SequenceGap | RunSequenceGap | PreviousHash | PayloadInvalid | PayloadText | PayloadHash | EventHashMismatch
                   | CountCheckpoint | HeadCheckpoint

  function ExpectedSequence(rows: seq<Row>): int { if rows == [] then 1 else rows[|rows| - 1].sequence + 1 }

  function HeadOf(rows: seq<Row>): string { if rows == [] then GENESIS else rows[|rows| - 1].eventHash }

  // The run sequence last seen for a run.
  function LastRun(rows: seq<Row>, run: string): int {
    if rows == [] then 0
    else if rows[|rows| - 1].runId == run then rows[|rows| - 1].runSequence
    else LastRun(rows[..|rows| - 1], run)
  }

  function Note(bad: bool, p: Problem): seq<Problem> { if bad then [p] else [] }

  // What is wrong with a row, given what it should continue.
  function Faults(h: Hash, sequence: int, seen: int, previous: string, r: Row): seq<Problem> {
    var payload := CanonicalPayload(r.payloadJson);
    var canonical := OrEmpty(payload);
    Note(r.sequence != sequence, SequenceGap) +
    Note(r.runSequence != seen + 1, RunSequenceGap) +
    Note(r.previousHash != previous, PreviousHash) +
    Note(payload.None?, PayloadInvalid) +
    Note(canonical != r.payloadJson, PayloadText) +
    Note(HashText(h, canonical) != r.payloadHash, PayloadHash) +
    Note(EventHash(h, r) != r.eventHash, EventHashMismatch)
  }

  function RowProblems(h: Hash, before: seq<Row>, r: Row): seq<Problem> {
    Faults(h, ExpectedSequence(before), LastRun(before, r.runId), HeadOf(before), r)
  }

  function Problems(h: Hash, rows: seq<Row>): seq<Problem> {
    if rows == [] then [] else
    var before := rows[..|rows| - 1];
    Problems(h, before) + RowProblems(h, before, rows[|rows| - 1])
  }

  datatype Report = Report(valid: bool, count: nat, head: string, errors: seq<Problem>)

  function Checkpoints(rows: seq<Row>, head: Option<string>, count: Option<int>): seq<Problem> {
    Note(count.Some? && |rows| != count.value, CountCheckpoint) +
    Note(head.Some? && HeadOf(rows) != head.value, HeadCheckpoint)
  }

  function Audit(h: Hash, rows: seq<Row>, head: Option<string>, count: Option<int>): Report {
    var errors := Problems(h, rows) + Checkpoints(rows, head, count);
    Report(errors == [], |rows|, HeadOf(rows), errors)
  }

  predicate Accepted(h: Hash, rows: seq<Row>) { Audit(h, rows, None, None).valid }

  // The seven tests of one turn of the loop.
  method TestRow(h: Hash, sequence: int, seen: int, previous: string, r: Row) returns (found: seq<Problem>)
    ensures found == Faults(h, sequence, seen, previous, r)
  {
    hide CanonicalPayload, HashText, EventHash, Note;
    var order := TestOrder(sequence, seen, previous, r);
    var content := TestContent(h, r);
    found := order + content;
    var canonical := OrEmpty(CanonicalPayload(r.payloadJson));
    Regroup(order, Note(CanonicalPayload(r.payloadJson).None?, PayloadInvalid),
            Note(canonical != r.payloadJson, PayloadText),
            Note(HashText(h, canonical) != r.payloadHash, PayloadHash),
            Note(EventHash(h, r) != r.eventHash, EventHashMismatch));
  }

  lemma Regroup(p: seq<Problem>, a: seq<Problem>, b: seq<Problem>, c: seq<Problem>, d: seq<Problem>)
    ensures p + (a + b + c + d) == p + a + b + c + d
  {
  }

  method TestOrder(sequence: int, seen: int, previous: string, r: Row) returns (found: seq<Problem>)
    ensures found == Note(r.sequence != sequence, SequenceGap) + Note(r.runSequence != seen + 1, RunSequenceGap) +
                     Note(r.previousHash != previous, PreviousHash)
  {
    found := [];
    if r.sequence != sequence { found := found + [SequenceGap]; }
    if r.runSequence != seen + 1 { found := found + [RunSequenceGap]; }
    if r.previousHash != previous { found := found + [PreviousHash]; }
  }

  method TestContent(h: Hash, r: Row) returns (found: seq<Problem>)
    ensures var canonical := OrEmpty(CanonicalPayload(r.payloadJson));
            found == Note(CanonicalPayload(r.payloadJson).None?, PayloadInvalid) +
                     Note(canonical != r.payloadJson, PayloadText) +
                     Note(HashText(h, canonical) != r.payloadHash, PayloadHash) +
                     Note(EventHash(h, r) != r.eventHash, EventHashMismatch)
  {
    hide CanonicalPayload, HashText, EventHash;
    found := [];
    var payload, canonical := CanonicalPayload(r.payloadJson), "";
    if payload.None? { found := found + [PayloadInvalid]; } else { canonical := payload.value; }
    if canonical != r.payloadJson { found := found + [PayloadText]; }
    if HashText(h, canonical) != r.payloadHash { found := found + [PayloadHash]; }
    if EventHash(h, r) != r.eventHash { found := found + [EventHashMismatch]; }
  }

  lemma ProblemsSnoc(h: Hash, rows: seq<Row>, i: nat)
    requires i < |rows|
    ensures Problems(h, rows[..i + 1]) == Problems(h, rows[..i]) + RowProblems(h, rows[..i], rows[i])
    ensures forall run ::
              LastRun(rows[..i + 1], run) == if rows[i].runId == run then rows[i].runSequence else LastRun(rows[..i], run)
  {
    assert rows[..i + 1][..i] == rows[..i];
  }

  /** verify_rows: one pass that carries the expected sequence, the previous hash and the
      last sequence of every run. */
  method VerifyRows(h: Hash, rows: seq<Row>, expectedHead: Option<string>, expectedCount: Option<int>)
    returns (report: Report)
    ensures report == Audit(h, rows, expectedHead, expectedCount)
  {
    hide Faults, Problems;
    var errors: seq<Problem> := [];
    var previousHash, expectedSequence, head := GENESIS, 1, GENESIS;
    var runSequences: map<string, int> := map[];
    var i := 0;
    NoProblems(h);
    assert rows[..0] == [];
    while i < |rows|
      invariant 0 <= i <= |rows|
      invariant errors == Problems(h, rows[..i])
      invariant previousHash == head == HeadOf(rows[..i]) && expectedSequence == ExpectedSequence(rows[..i])
      invariant forall run ::
        LastRun(rows[..i], run) == if run in runSequences then runSequences[run] else 0
    {
      var r := rows[i];
      var seen := if r.runId in runSequences then runSequences[r.runId] else 0;
      var found := TestRow(h, expectedSequence, seen, previousHash, r);
      ProblemsSnoc(h, rows, i);
      errors := errors + found;
      expectedSequence := r.sequence + 1;
      runSequences := runSequences[r.runId := r.runSequence];
      previousHash := r.eventHash;
      head := previousHash;
      i := i + 1;
    }
    assert rows[..i] == rows;
    var checks: seq<Problem> := [];
    if expectedCount.Some? && |rows| != expectedCount.value { checks := checks + [CountCheckpoint]; }
    if expectedHead.Some? && head != expectedHead.value { checks := checks + [HeadCheckpoint]; }
    errors := errors + checks;
    report := Report(errors == [], |rows|, head, errors);
  }

  lemma NoProblems(h: Hash)
    ensures Problems(h, []) == []
  {
  }

  /** Each problem is reported for its own reason: a number out of turn, a link or a hash
      that does not fit, a payload that cannot be read or is not in its canonical text. */
  lemma FaultsExact(h: Hash, before: seq<Row>, r: Row)
    ensures var found := RowProblems(h, before, r);
            && (SequenceGap in found <==> r.sequence != ExpectedSequence(before))
            && (RunSequenceGap in found <==> r.runSequence != LastRun(before, r.runId) + 1)
            && (PreviousHash in found <==> r.previousHash != HeadOf(before))
            && (PayloadInvalid in found <==> CanonicalPayload(r.payloadJson).None?)
            && (PayloadText in found <==>
                  CanonicalPayload(r.payloadJson) != Some(r.payloadJson) &&
                  !(CanonicalPayload(r.payloadJson).None? && r.payloadJson == ""))
            && (PayloadHash in found <==> HashText(h, OrEmpty(CanonicalPayload(r.payloadJson))) != r.payloadHash)
            && (EventHashMismatch in found <==> EventHash(h, r) != r.eventHash)
            && CountCheckpoint !in found && HeadCheckpoint !in found
  {
    hide CanonicalPayload, HashText, EventHash, HeadOf, LastRun, ExpectedSequence;
    var payload := CanonicalPayload(r.payloadJson);
    forall x: Problem ensures x in RowProblems(h, before, r) <==> InFaults(h, before, r, payload, x) {
      hide Note;
      InSeven(x, Note(r.sequence != ExpectedSequence(before), SequenceGap),
              Note(r.runSequence != LastRun(before, r.runId) + 1, RunSequenceGap),
              Note(r.previousHash != HeadOf(before), PreviousHash), Note(payload.None?, PayloadInvalid),
              Note(OrEmpty(payload) != r.payloadJson, PayloadText),
              Note(HashText(h, OrEmpty(payload)) != r.payloadHash, PayloadHash),
              Note(EventHash(h, r) != r.eventHash, EventHashMismatch));
    }
    hide RowProblems, Note;
    FaultKinds(h, before, r, payload);
  }

  predicate InFaults(h: Hash, before: seq<Row>, r: Row, payload: Option<string>, x: Problem) {
    || x in Note(r.sequence != ExpectedSequence(before), SequenceGap)
    || x in Note(r.runSequence != LastRun(before, r.runId) + 1, RunSequenceGap)
    || x in Note(r.previousHash != HeadOf(before), PreviousHash)
    || x in Note(payload.None?, PayloadInvalid)
    || x in Note(OrEmpty(payload) != r.payloadJson, PayloadText)
    || x in Note(HashText(h, OrEmpty(payload)) != r.payloadHash, PayloadHash)
    || x in Note(EventHash(h, r) != r.eventHash, EventHashMismatch)
  }

  lemma FaultKinds(h: Hash, before: seq<Row>, r: Row, payload: Option<string>)
    ensures InFaults(h, before, r, payload, SequenceGap) <==> r.sequence != ExpectedSequence(before)
    ensures InFaults(h, before, r, payload, RunSequenceGap) <==> r.runSequence != LastRun(before, r.runId) + 1
    ensures InFaults(h, before, r, payload, PreviousHash) <==> r.previousHash != HeadOf(before)
    ensures InFaults(h, before, r, payload, PayloadInvalid) <==> payload.None?
    ensures InFaults(h, before, r, payload, PayloadText) <==> OrEmpty(payload) != r.payloadJson
    ensures InFaults(h, before, r, payload, PayloadHash) <==> HashText(h, OrEmpty(payload)) != r.payloadHash
    ensures InFaults(h, before, r, payload, EventHashMismatch) <==> EventHash(h, r) != r.eventHash
    ensures !InFaults(h, before, r, payload, CountCheckpoint) && !InFaults(h, before, r, payload, HeadCheckpoint)
  {
    hide HashText, EventHash, HeadOf, LastRun, ExpectedSequence, OrEmpty;
  }

  lemma InSeven(x: Problem, a: seq<Problem>, b: seq<Problem>, c: seq<Problem>, d: seq<Problem>, e: seq<Problem>,
                f: seq<Problem>, g: seq<Problem>)
    ensures x in a + b + c + d + e + f + g <==> x in a || x in b || x in c || x in d || x in e || x in f || x in g
  {
    assert x in a + b + c + d + e + f + g <==> x in a + b + c + d + e + f || x in g;
    assert x in a + b + c + d + e + f <==> x in a + b + c + d + e || x in f;
  }

  /** The checkpoints are reported for what they check, and the report gives the length and
      the head it found. */
  lemma ReportExact(h: Hash, rows: seq<Row>, head: Option<string>, count: Option<int>)
    ensures var r := Audit(h, rows, head, count);
            && r.count == |rows| && r.head == (if rows == [] then GENESIS else rows[|rows| - 1].eventHash)
            && (CountCheckpoint in r.errors <==> count.Some? && count.value != |rows|)
            && (HeadCheckpoint in r.errors <==> head.Some? && head.value != r.head)
  {
    hide GENESIS;
    NoCheckpoints(h, rows);
  }

  lemma {:induction false} NoCheckpoints(h: Hash, rows: seq<Row>)
    ensures CountCheckpoint !in Problems(h, rows) && HeadCheckpoint !in Problems(h, rows)
  {
    hide RowProblems;
    if rows != [] {
      NoCheckpoints(h, rows[..|rows| - 1]);
      FaultsExact(h, rows[..|rows| - 1], rows[|rows| - 1]);
    }
  }

  // ---------- what an accepted row satisfies ----------

  predicate RowOk(h: Hash, before: seq<Row>, r: Row) {
    && r.sequence == ExpectedSequence(before) && r.runSequence == LastRun(before, r.runId) + 1
    && r.previousHash == HeadOf(before)
    && CanonicalPayload(r.payloadJson) == Some(r.payloadJson) && HashText(h, r.payloadJson) == r.payloadHash
    && EventHash(h, r) == r.eventHash
  }

  lemma AcceptedSnoc(h: Hash, rows: seq<Row>)
    requires rows != []
    ensures Accepted(h, rows) <==>
            Accepted(h, rows[..|rows| - 1]) && RowOk(h, rows[..|rows| - 1], rows[|rows| - 1])
  {
    hide CanonicalPayload, HashText, EventHash;
    var before, r := rows[..|rows| - 1], rows[|rows| - 1];
    assert Checkpoints(rows, None, None) == [] && Checkpoints(before, None, None) == [];
    var p, q := Problems(h, before), RowProblems(h, before, r);
    assert |p + q + []| == |p| + |q|;
  }

  /** Every prefix of an accepted journal is accepted when no checkpoint is given. */
  lemma {:induction false} PrefixesAccepted(h: Hash, rows: seq<Row>, n: nat)
    requires Accepted(h, rows) && n <= |rows|
    ensures Accepted(h, rows[..n])
    decreases |rows|
  {
    hide Accepted, RowOk;
    if n == |rows| {
      assert rows[..n] == rows;
    } else {
      AcceptedSnoc(h, rows);
      assert rows[..|rows| - 1][..n] == rows[..n];
      PrefixesAccepted(h, rows[..|rows| - 1], n);
    }
  }

  // How many rows belong to a run.
  function OfRun(rows: seq<Row>, run: string): nat {
    if rows == [] then 0 else OfRun(rows[..|rows| - 1], run) + if rows[|rows| - 1].runId == run then 1 else 0
  }

  lemma {:induction false} LastIsCount(h: Hash, rows: seq<Row>, run: string)
    requires Accepted(h, rows)
    ensures LastRun(rows, run) == OfRun(rows, run) && ExpectedSequence(rows) == |rows| + 1
    decreases |rows|
  {
    hide Accepted, CanonicalPayload, HashText, EventHash;
    if rows != [] {
      AcceptedSnoc(h, rows);
      var r := rows[|rows| - 1];
      LastIsCount(h, rows[..|rows| - 1], run);
      LastIsCount(h, rows[..|rows| - 1], r.runId);
    }
  }

  /** An accepted journal has no gaps: its rows are numbered from one, the rows of each run
      too, and each row names the hash of the row before it. */
  lemma AcceptedIsNumbered(h: Hash, rows: seq<Row>, i: nat)
    requires Accepted(h, rows) && i < |rows|
    ensures rows[i].sequence == i + 1 && rows[i].runSequence == OfRun(rows[..i + 1], rows[i].runId)
    ensures rows[i].previousHash == (if i == 0 then GENESIS else rows[i - 1].eventHash)
    ensures CanonicalPayload(rows[i].payloadJson) == Some(rows[i].payloadJson)
    ensures HashText(h, rows[i].payloadJson) == rows[i].payloadHash && EventHash(h, rows[i]) == rows[i].eventHash
  {
    hide Accepted, CanonicalPayload, HashText, EventHash, LastRun, GENESIS;
    var upTo := rows[..i + 1];
    PrefixesAccepted(h, rows, i + 1);
    AcceptedSnoc(h, upTo);
    assert upTo[..i] == rows[..i] && upTo[i] == rows[i];
    LastIsCount(h, rows[..i], rows[i].runId);
  }

  // ---------- the material determines the row ----------

  lemma MaterialKeysDistinct()
    ensures Distinct(MATERIAL_KEYS)
  {
    var ks := MATERIAL_KEYS;
    assert forall i, j :: 0 <= i < j < |ks| ==> |ks[i]| != |ks[j]| || ks[i][1] != ks[j][1] || ks[i][6] != ks[j][6];
  }

  lemma MaterialPrints(r: Row)
    ensures WellFormed(Material(r)) && NoFloats(Material(r))
  {
    MaterialKeysDistinct();
    var ms := Material(r).members;
    forall i | 0 <= i < |ms| ensures WellFormed(ms[i].1) && NoFloats(ms[i].1) {
      assert ms[i].1.Str? || ms[i].1.Int?;
    }
  }

  /** Reading the hashed text back gives each column under its own name, and no other name. */
  lemma MaterialKeyed(r: Row)
    ensures var v := Loads(Print(Material(r)));
            && HasKeys(Print(Material(r)), MATERIAL_KEYS)
            && Under(v, "sequence") == Some(Int(r.sequence)) && Under(v, "run_sequence") == Some(Int(r.runSequence))
            && Under(v, "event_id") == Some(Str(r.eventId)) && Under(v, "run_id") == Some(Str(r.runId))
            && Under(v, "schema_version") == Some(Int(r.schemaVersion)) && Under(v, "event_type") == Some(Str(r.eventType))
            && Under(v, "actor_id") == Some(Str(r.actorId)) && Under(v, "created_at") == Some(Str(r.createdAt))
            && Under(v, "payload_hash") == Some(Str(r.payloadHash))
            && Under(v, "previous_hash") == Some(Str(r.previousHash))
  {
    hide Under, Loads, Print, HasKeys, WellFormed, NoFloats;
    var v := Loads(Print(Material(r)));
    MaterialKeysDistinct();
    MaterialPrints(r);
    KeyedText(MATERIAL_KEYS, MaterialValues(r));
    var ks := MATERIAL_KEYS;
    assert Under(v, ks[0]).Some? && Under(v, ks[1]).Some? && Under(v, ks[2]).Some? && Under(v, ks[3]).Some?;
    assert Under(v, ks[4]).Some? && Under(v, ks[5]).Some? && Under(v, ks[6]).Some? && Under(v, ks[7]).Some?;
    assert Under(v, ks[8]).Some? && Under(v, ks[9]).Some?;
  }

  lemma {:induction false} ZerosOnly(n: nat)
    ensures |Zeros(n)| == n && forall i :: 0 <= i < n ==> Zeros(n)[i] == '0'
  {
    if n > 0 { ZerosOnly(n - 1); }
  }

  // The genesis value is as long as a digest, and made of zeros.
  lemma GenesisIsZeros()
    ensures |GENESIS| == 64 && forall i :: 0 <= i < 64 ==> GENESIS[i] == '0'
  {
    ZerosOnly(64);
  }

  // Equal in every column that is hashed.
  predicate SameMaterial(r: Row, s: Row) {
    s == r.(payloadJson := s.payloadJson, eventHash := s.eventHash)
  }

  lemma MaterialDetermines(r: Row, s: Row)
    requires MaterialBytes(r) == MaterialBytes(s)
    ensures SameMaterial(r, s)
  {
    Utf8.EncodeInjective(Print(Material(r)), Print(Material(s)));
    MaterialPrints(r);
    MaterialPrints(s);
    JsonCodec.TextDeterminesValue(Material(r), Material(s));
    MaterialKeysDistinct();
    SameKeysSameValues(MATERIAL_KEYS, MaterialValues(r), MaterialValues(s));
    ColumnsDetermined(r, s);
  }

  lemma ColumnsDetermined(r: Row, s: Row)
    requires forall i :: 0 <= i < 10 ==> Canon(MaterialValues(r)[i]) == Canon(MaterialValues(s)[i])
    ensures SameMaterial(r, s)
  {
    var u, v := MaterialValues(r), MaterialValues(s);
    assert Canon(u[0]) == Canon(v[0]) && Canon(u[1]) == Canon(v[1]) && Canon(u[2]) == Canon(v[2]);
    assert Canon(u[3]) == Canon(v[3]) && Canon(u[4]) == Canon(v[4]) && Canon(u[5]) == Canon(v[5]);
    assert Canon(u[6]) == Canon(v[6]) && Canon(u[7]) == Canon(v[7]) && Canon(u[8]) == Canon(v[8]);
    assert Canon(u[9]) == Canon(v[9]);
  }

  // ---------- what the head pins down ----------

  // The hash separates the inputs that occur in two journals, and never yields the
  // genesis value on them.
  ghost predicate Separates(h: Hash, p: seq<Row>, q: seq<Row>) {
    && (forall i, j :: 0 <= i < |p| && 0 <= j < |q| ==>
          NoCollision(h, MaterialBytes(p[i]), MaterialBytes(q[j])) &&
          NoCollision(h, Utf8.Encode(p[i].payloadJson), Utf8.Encode(q[j].payloadJson)))
    && (forall i :: 0 <= i < |p| ==> EventHash(h, p[i]) != GENESIS)
    && (forall j :: 0 <= j < |q| ==> EventHash(h, q[j]) != GENESIS)
  }

  lemma SeparatesPrefix(h: Hash, p: seq<Row>, q: seq<Row>)
    requires Separates(h, p, q) && p != [] && q != []
    ensures Separates(h, p[..|p| - 1], q[..|q| - 1])
  {
    hide MaterialBytes, EventHash;
  }

  lemma SameRow(h: Hash, before: seq<Row>, r: Row, after: seq<Row>, s: Row)
    requires RowOk(h, before, r) && RowOk(h, after, s) && r.eventHash == s.eventHash
    requires NoCollision(h, MaterialBytes(r), MaterialBytes(s))
    requires NoCollision(h, Utf8.Encode(r.payloadJson), Utf8.Encode(s.payloadJson))
    ensures r == s
  {
    hide CanonicalPayload, MaterialBytes;
    MaterialDetermines(r, s);
    Utf8.EncodeInjective(r.payloadJson, s.payloadJson);
  }

  /** The journal is determined by its head: two accepted journals with the same head are
      equal in every column of every row, where the hash separates their contents. */
  lemma {:induction false} HeadDeterminesJournal(h: Hash, p: seq<Row>, q: seq<Row>)
    requires Accepted(h, p) && Accepted(h, q) && HeadOf(p) == HeadOf(q) && Separates(h, p, q)
    ensures p == q
    decreases |p|
  {
    hide Accepted, MaterialBytes, EventHash, CanonicalPayload, HashText, NoCollision, MaxRun, LastRun;
    if p == [] {
      if q != [] { HeadIsNotGenesis(h, q); }
    } else if q == [] {
      HeadIsNotGenesis(h, p);
    } else {
      var r, s := p[|p| - 1], q[|q| - 1];
      AcceptedSnoc(h, p);
      AcceptedSnoc(h, q);
      SameRow(h, p[..|p| - 1], r, q[..|q| - 1], s);
      SeparatesPrefix(h, p, q);
      HeadDeterminesJournal(h, p[..|p| - 1], q[..|q| - 1]);
      assert p == p[..|p| - 1] + [r] && q == q[..|q| - 1] + [s];
    }
  }

  lemma HeadIsNotGenesis(h: Hash, rows: seq<Row>)
    requires rows != [] && Accepted(h, rows) && EventHash(h, rows[|rows| - 1]) != GENESIS
    ensures HeadOf(rows) != GENESIS
  {
    hide Accepted, EventHash, CanonicalPayload, HashText;
    AcceptedSnoc(h, rows);
  }

  /** Truncation is invisible without a checkpoint and always visible with one: a proper
      prefix of an accepted journal is accepted, but neither against the retained head
      nor against the retained count. */
  lemma TruncationNeedsCheckpoint(h: Hash, rows: seq<Row>, n: nat)
    requires Accepted(h, rows) && n < |rows| && Separates(h, rows[..n], rows)
    ensures Audit(h, rows[..n], None, None).valid
    ensures !Audit(h, rows[..n], Some(HeadOf(rows)), None).valid
    ensures !Audit(h, rows[..n], None, Some(|rows|)).valid
  {
    hide Problems, Separates;
    PrefixesAccepted(h, rows, n);
    if HeadOf(rows[..n]) == HeadOf(rows) { HeadDeterminesJournal(h, rows[..n], rows); }
    AuditWith(h, rows[..n], Some(HeadOf(rows)), None);
    AuditWith(h, rows[..n], None, Some(|rows|));
  }

  lemma AuditWith(h: Hash, rows: seq<Row>, head: Option<string>, count: Option<int>)
    ensures Audit(h, rows, head, count).valid <==>
            Accepted(h, rows) && (head.Some? ==> HeadOf(rows) == head.value) && (count.Some? ==> |rows| == count.value)
  {
    hide Problems;
    var p, c := Problems(h, rows), Checkpoints(rows, head, count);
    assert |p + c| == |p| + |c|;
    assert |p + Checkpoints(rows, None, None)| == |p|;
  }

  // ---------- appending ----------

  // COALESCE(MAX(run_sequence), 0)
  function MaxRun(rows: seq<Row>, run: string): int {
    if rows == [] then 0 else
    var before, r := MaxRun(rows[..|rows| - 1], run), rows[|rows| - 1];
    if r.runId == run && r.runSequence > before then r.runSequence else before
  }

  lemma {:induction false} MaxIsLast(h: Hash, rows: seq<Row>, run: string)
    requires Accepted(h, rows)
    ensures MaxRun(rows, run) == LastRun(rows, run) >= 0
    decreases |rows|
  {
    hide Accepted, EventHash, CanonicalPayload, HashText;
    if rows != [] {
      AcceptedSnoc(h, rows);
      MaxIsLast(h, rows[..|rows| - 1], run);
    }
  }

  datatype NewEvent = NewEvent(eventId: string, runId: string, schemaVersion: int, eventType: string,
                               actorId: string, createdAt: string, payload: Json)

  // The row append_in_transaction inserts; payload is the minimized and redacted tree.
  function NewRow(h: Hash, rows: seq<Row>, e: NewEvent): Row {
    var text := Print(e.payload);
    var r := Row(ExpectedSequence(rows), MaxRun(rows, e.runId) + 1, e.eventId, e.runId, e.schemaVersion, e.eventType,
                 e.actorId, e.createdAt, text, HashText(h, text), HeadOf(rows), "");
    r.(eventHash := EventHash(h, r))
  }

  function AppendRows(h: Hash, rows: seq<Row>, events: seq<NewEvent>): seq<Row>
    decreases events
  {
    if events == [] then rows else AppendRows(h, rows + [NewRow(h, rows, events[0])], events[1..])
  }

  /** Appending adds one row for each event, in order, with the event's own columns and the
      canonical text of its payload; no row that was there changes. */
  lemma {:induction false} AppendedRows(h: Hash, rows: seq<Row>, events: seq<NewEvent>, i: nat)
    requires i < |events|
    ensures var all := AppendRows(h, rows, events);
            && |all| == |rows| + |events| && rows <= all
            && var r, e := all[|rows| + i], events[i];
               && r.eventId == e.eventId && r.runId == e.runId && r.schemaVersion == e.schemaVersion
               && r.eventType == e.eventType && r.actorId == e.actorId && r.createdAt == e.createdAt
               && r.payloadJson == Print(e.payload) && r.payloadHash == HashText(h, Print(e.payload))
    decreases events
  {
    hide EventHash, HashText, Print;
    var longer := rows + [NewRow(h, rows, events[0])];
    assert longer[|rows|] == NewRow(h, rows, events[0]);
    if i > 0 {
      AppendedRows(h, longer, events[1..], i - 1);
    } else if |events| > 1 {
      AppendedRows(h, longer, events[1..], 0);
    } else {
      assert events[1..] == [];
    }
  }

  lemma PrintedPayload(v: Json)
    requires WellFormed(v) && NoFloats(v)
    ensures CanonicalPayload(Print(v)) == Some(Print(v))
  {
    JsonCodec.RoundTrip(v);
    JsonCodec.PrintCanon(v);
    JsonCodec.CanonKeeps(v, 0);
  }

  lemma NewRowOk(h: Hash, rows: seq<Row>, e: NewEvent)
    requires Accepted(h, rows) && WellFormed(e.payload) && NoFloats(e.payload)
    ensures Accepted(h, rows + [NewRow(h, rows, e)])
  {
    var r := NewRow(h, rows, e);
    var longer := rows + [r];
    assert longer[..|longer| - 1] == rows && longer[|longer| - 1] == r;
    assert RowOk(h, rows, r) by {
      hide Accepted, CanonicalPayload, MaterialBytes;
      MaxIsLast(h, rows, e.runId);
      PrintedPayload(e.payload);
      SameHash(h, r, r.(eventHash := ""));
    }
    hide Accepted, RowOk;
    AcceptedSnoc(h, longer);
  }

  // The hash of a row does not cover the hash column.
  lemma SameHash(h: Hash, r: Row, s: Row)
    requires s == r.(eventHash := s.eventHash)
    ensures EventHash(h, r) == EventHash(h, s)
  {
    assert MaterialValues(r) == MaterialValues(s);
  }

  /** Every journal built by appending is accepted, whatever is appended. */
  lemma {:induction false} AppendedIsAccepted(h: Hash, rows: seq<Row>, events: seq<NewEvent>)
    requires Accepted(h, rows)
    requires forall i :: 0 <= i < |events| ==> WellFormed(events[i].payload) && NoFloats(events[i].payload)
    ensures Accepted(h, AppendRows(h, rows, events))
    decreases events
  {
    hide Accepted, NewRow;
    if events != [] {
      NewRowOk(h, rows, events[0]);
      AppendedIsAccepted(h, rows + [NewRow(h, rows, events[0])], events[1..]);
    }
  }
}
