/** Durable memories and their full-text index: accepting, correcting and forgetting, what
    the index holds, and the shape of supersession chains. */
module Memory {
  import opened Domain

  datatype Status = Accepted | Superseded | Forgotten

  // born is the order of insertion; supersedes names the memory a correction replaced.
  datatype Item = Item(
    ownerId: string, category: string, content: Option<string>, contentHash: string, sensitivity: string,
    provenance: Option<string>, provenanceHash: string, status: Status, supersedes: Option<string>,
    forgottenAt: Option<Time>, born: nat)

  datatype IndexRow = IndexRow(memoryId: string, content: string)

  datatype Shelf = Shelf(items: map<string, Item>, index: seq<IndexRow>, inserted: nat)

  const EMPTY_SHELF := Shelf(map[], [], 0)

  // The redactor, str.strip and the hash, which this model takes as given.
  datatype Rules = Rules(redact: string -> string, blank: string -> bool, hash: string -> string)

  // provenance is the canonical text; linked says that it names a run, event or artifact,
  // and runId is the run it names, if any.
  datatype Provenance = Provenance(text: string, linked: bool, runId: string)

  datatype Answer = Stored | NoSuchMemory | NotTheOwner | NotActive | Invalid | Duplicate | AlreadyForgotten

  const CATEGORIES := {"FACT", "OUTCOME", "OWNER_FEEDBACK", "IMPROVEMENT_CANDIDATE"}

  // _validate_memory and _reject_secret_memory
  predicate Acceptable(r: Rules, category: string, content: string, p: Provenance) {
    category in CATEGORIES && !r.blank(content) && p.linked && r.redact(content) == content
  }

  /** Content is acceptable exactly in one of the four categories, when it is not blank, has a
      link to where it comes from, and passes the redactor unchanged. */
  lemma AcceptableExactly(r: Rules, category: string, content: string, p: Provenance)
    ensures Acceptable(r, category, content, p) <==>
            && (category == "FACT" || category == "OUTCOME" || category == "OWNER_FEEDBACK" ||
                category == "IMPROVEMENT_CANDIDATE")
            && !r.blank(content) && p.linked && r.redact(content) == content
  {
  }

  // DELETE FROM memory_fts WHERE memory_id = ?
  function Unindexed(index: seq<IndexRow>, id: string): (r: seq<IndexRow>)
    ensures forall row :: row in r <==> row in index && row.memoryId != id
  {
    if index == [] then []
    else if index[0].memoryId == id then Unindexed(index[1..], id)
    else [index[0]] + Unindexed(index[1..], id)
  }

  function Fresh(r: Rules, s: Shelf, owner: string, category: string, sensitivity: string, content: string,
                 p: Provenance, supersedes: Option<string>): Item
  {
    Item(owner, category, Some(content), r.hash(content), sensitivity, Some(p.text), r.hash(p.text), Accepted, supersedes,
         None, s.inserted)
  }

  // INSERT into both tables
  function Insert(s: Shelf, id: string, item: Item, content: string): Shelf {
    Shelf(s.items[id := item], s.index + [IndexRow(id, content)], s.inserted + 1)
  }

  function Accept(r: Rules, s: Shelf, id: string, run: string, owner: string, category: string, sensitivity: string,
                  content: string, p: Provenance): (Shelf, Answer)
  {
    if !Acceptable(r, category, content, p) || run == "" || owner == "" then (s, Invalid)
    else if id in s.items then (s, Duplicate)
    else (Insert(s, id, Fresh(r, s, owner, category, sensitivity, content, p, None), content), Stored)
  }

  // The superseded row loses its index entry in the same transaction.
  function Retired(s: Shelf, id: string): Shelf
    requires id in s.items
  {
    s.(items := s.items[id := s.items[id].(status := Superseded)], index := Unindexed(s.index, id))
  }

  function Correct(r: Rules, s: Shelf, id: string, newId: string, owner: string, content: string,
                   p: Provenance): (Shelf, Answer)
  {
    if id !in s.items then (s, NoSuchMemory) else
    var current := s.items[id];
    if current.ownerId != owner then (s, NotTheOwner)
    else if current.status != Accepted then (s, NotActive)
    else if !Acceptable(r, current.category, content, p) || p.runId == "" || owner == "" then (s, Invalid)
    else if newId in s.items then (s, Duplicate)
    else
      var item := Fresh(r, s, owner, current.category, current.sensitivity, content, p, Some(id));
      (Insert(Retired(s, id), newId, item, content), Stored)
  }

  function Forget(s: Shelf, id: string, owner: string, at: Time): (Shelf, Answer) {
    if id !in s.items then (s, NoSuchMemory) else
    var current := s.items[id];
    if current.ownerId != owner then (s, NotTheOwner)
    else if current.status == Forgotten then (s, AlreadyForgotten)
    else if owner == "" then (s, Invalid)
    else
      var item := current.(content := None, provenance := None, status := Forgotten, forgottenAt := Some(at));
      (s.(items := s.items[id := item], index := Unindexed(s.index, id)), Stored)
  }

  datatype Op =
    | DoAccept(id: string, run: string, owner: string, category: string, sensitivity: string, content: string, p: Provenance)
    | DoCorrect(id: string, newId: string, owner: string, content: string, p: Provenance)
    | DoForget(id: string, owner: string, at: Time)

  function Step(r: Rules, s: Shelf, op: Op): Shelf {
    match op
    case DoAccept(id, run, owner, category, sensitivity, content, p) =>
      Accept(r, s, id, run, owner, category, sensitivity, content, p).0
    case DoCorrect(id, newId, owner, content, p) => Correct(r, s, id, newId, owner, content, p).0
    case DoForget(id, owner, at) => Forget(s, id, owner, at).0
  }

  function History(r: Rules, ops: seq<Op>): Shelf {
    if ops == [] then EMPTY_SHELF else Step(r, History(r, ops[..|ops| - 1]), ops[|ops| - 1])
  }

  // ---------- the invariant ----------

  // One index row for each accepted memory, with its content, and no other row.
  ghost predicate IndexAgrees(s: Shelf) {
    && (forall k :: 0 <= k < |s.index| ==>
          s.index[k].memoryId in s.items && s.items[s.index[k].memoryId].status == Accepted &&
          s.items[s.index[k].memoryId].content == Some(s.index[k].content))
    && (forall id :: id in s.items && s.items[id].status == Accepted && s.items[id].content.Some? ==>
          IndexRow(id, s.items[id].content.value) in s.index)
    && forall j, k :: 0 <= j < k < |s.index| ==> s.index[j].memoryId != s.index[k].memoryId
  }

  // Forgotten memories keep no content and no provenance; all others keep both.
  ghost predicate ContentOk(s: Shelf) {
    forall id :: id in s.items ==>
      (s.items[id].status == Forgotten <==> s.items[id].content.None?) &&
      (s.items[id].status == Forgotten <==> s.items[id].provenance.None?)
  }

  // A correction is younger than what it replaced, which is no longer accepted and has
  // the same owner, category and sensitivity; nothing is replaced twice.
  ghost predicate ChainsOk(s: Shelf) {
    && (forall id :: id in s.items ==> s.items[id].born < s.inserted)
    && (forall id :: id in s.items && s.items[id].supersedes.Some? ==>
          s.items[id].supersedes.value in s.items &&
          Replaced(s.items[s.items[id].supersedes.value], s.items[id]))
    && (forall a, b :: a in s.items && b in s.items && SameTarget(s.items[a], s.items[b]) ==> a == b)
  }

  predicate SameTarget(x: Item, y: Item) { x.supersedes.Some? && x.supersedes == y.supersedes }

  predicate Replaced(older: Item, newer: Item) {
    older.born < newer.born && older.status != Accepted && older.ownerId == newer.ownerId &&
    older.category == newer.category && older.sensitivity == newer.sensitivity
  }

  ghost predicate Inv(s: Shelf) { IndexAgrees(s) && ContentOk(s) && ChainsOk(s) }

  lemma {:induction false} UnindexedDistinct(index: seq<IndexRow>, id: string)
    requires forall j, k :: 0 <= j < k < |index| ==> index[j].memoryId != index[k].memoryId
    ensures forall j, k :: 0 <= j < k < |Unindexed(index, id)| ==>
              Unindexed(index, id)[j].memoryId != Unindexed(index, id)[k].memoryId
  {
    if index != [] {
      var tail := Unindexed(index[1..], id);
      UnindexedDistinct(index[1..], id);
      forall k | 0 <= k < |tail| ensures tail[k].memoryId != index[0].memoryId {
        assert tail[k] in tail;
        var m :| 1 <= m < |index| && index[m] == tail[k];
      }
      if index[0].memoryId != id { assert Unindexed(index, id) == [index[0]] + tail; }
    }
  }

  // A row of the index after a deletion is a row of it before, for another memory.
  lemma UnindexedRow(s: Shelf, id: string, k: nat)
    requires IndexAgrees(s) && k < |Unindexed(s.index, id)|
    ensures var row := Unindexed(s.index, id)[k];
            && row.memoryId != id && row.memoryId in s.items && s.items[row.memoryId].status == Accepted
            && s.items[row.memoryId].content == Some(row.content)
  {
    var row := Unindexed(s.index, id)[k];
    assert row in Unindexed(s.index, id);
    var m :| 0 <= m < |s.index| && s.index[m] == row;
  }

  // Taking one memory out of the accepted ones, in both tables.
  lemma RemoveAgrees(s: Shelf, id: string, item: Item)
    requires IndexAgrees(s) && id in s.items && item.status != Accepted
    ensures IndexAgrees(s.(items := s.items[id := item], index := Unindexed(s.index, id)))
  {
    UnindexedDistinct(s.index, id);
    forall k | 0 <= k < |Unindexed(s.index, id)|
      ensures var row := Unindexed(s.index, id)[k];
              && row.memoryId != id && row.memoryId in s.items && s.items[row.memoryId].status == Accepted
              && s.items[row.memoryId].content == Some(row.content)
    {
      UnindexedRow(s, id, k);
    }
  }

  lemma InsertAgrees(s: Shelf, id: string, item: Item, content: string)
    requires IndexAgrees(s) && id !in s.items && item.status == Accepted && item.content == Some(content)
    ensures IndexAgrees(Insert(s, id, item, content))
  {
    var t := Insert(s, id, item, content);
    forall x | x in t.items && t.items[x].status == Accepted && t.items[x].content.Some?
      ensures IndexRow(x, t.items[x].content.value) in t.index
    {
      if x == id { assert t.index[|s.index|] == IndexRow(x, content); }
    }
  }

  // A new row at the end of a chain, or at the start of one.
  lemma InsertChains(s: Shelf, id: string, item: Item, content: string)
    requires ChainsOk(s) && id !in s.items && item.born == s.inserted
    requires item.supersedes.Some? ==>
               item.supersedes.value in s.items && Replaced(s.items[item.supersedes.value], item) &&
               forall a :: a in s.items ==> !SameTarget(item, s.items[a])
    ensures ChainsOk(Insert(s, id, item, content))
  {
  }

  // Changing a row without touching what chains depend on; it may stop being accepted.
  lemma UpdateChains(s: Shelf, id: string, item: Item, index: seq<IndexRow>)
    requires ChainsOk(s) && id in s.items && item.status != Accepted
    requires item == s.items[id].(status := item.status, content := item.content, provenance := item.provenance,
                                  forgottenAt := item.forgottenAt)
    ensures ChainsOk(s.(items := s.items[id := item], index := index))
  {
  }

  lemma ContentStays(s: Shelf, id: string, item: Item, index: seq<IndexRow>, n: nat)
    requires ContentOk(s)
    requires (item.status == Forgotten <==> item.content.None?) && (item.status == Forgotten <==> item.provenance.None?)
    ensures ContentOk(Shelf(s.items[id := item], index, n))
  {
  }

  lemma AcceptKeeps(r: Rules, s: Shelf, id: string, item: Item, content: string)
    requires Inv(s) && id !in s.items && item.status == Accepted && item.content == Some(content)
    requires item.provenance.Some? && item.supersedes.None? && item.born == s.inserted
    ensures Inv(Insert(s, id, item, content))
  {
    InsertAgrees(s, id, item, content);
    InsertChains(s, id, item, content);
    ContentStays(s, id, item, s.index + [IndexRow(id, content)], s.inserted + 1);
  }

  lemma RetireKeeps(s: Shelf, id: string)
    requires Inv(s) && id in s.items && s.items[id].status == Accepted
    ensures Inv(Retired(s, id))
    ensures forall a :: a in Retired(s, id).items && Retired(s, id).items[a].supersedes.Some? ==>
              Retired(s, id).items[a].supersedes.value != id
  {
    hide Unindexed, IndexAgrees;
    var item := s.items[id].(status := Superseded);
    RemoveAgrees(s, id, item);
    UpdateChains(s, id, item, Unindexed(s.index, id));
    ContentStays(s, id, item, Unindexed(s.index, id), s.inserted);
  }

  lemma CorrectKeeps(r: Rules, s: Shelf, op: Op)
    requires Inv(s) && op.DoCorrect? && Correct(r, s, op.id, op.newId, op.owner, op.content, op.p).1 == Stored
    ensures Inv(Step(r, s, op))
  {
    hide Unindexed, IndexAgrees, ContentOk, ChainsOk;
    var t, current := Retired(s, op.id), s.items[op.id];
    var item := Fresh(r, s, op.owner, current.category, current.sensitivity, op.content, op.p, Some(op.id));
    RetireKeeps(s, op.id);
    InsertAgrees(t, op.newId, item, op.content);
    InsertChains(t, op.newId, item, op.content) by { YoungerThan(s, op.id); }
    ContentStays(t, op.newId, item, t.index + [IndexRow(op.newId, op.content)], t.inserted + 1);
  }

  lemma YoungerThan(s: Shelf, id: string)
    requires ChainsOk(s) && id in s.items
    ensures s.items[id].born < s.inserted
  {
  }

  lemma ForgetKeeps(s: Shelf, id: string, item: Item)
    requires Inv(s) && id in s.items && item.status == Forgotten && item.content.None? && item.provenance.None?
    requires item == s.items[id].(status := item.status, content := item.content, provenance := item.provenance,
                                  forgottenAt := item.forgottenAt)
    ensures Inv(s.(items := s.items[id := item], index := Unindexed(s.index, id)))
  {
    RemoveAgrees(s, id, item);
    UpdateChains(s, id, item, Unindexed(s.index, id));
    ContentStays(s, id, item, Unindexed(s.index, id), s.inserted);
  }

  lemma StepKeeps(r: Rules, s: Shelf, op: Op)
    requires Inv(s)
    ensures Inv(Step(r, s, op))
  {
    hide Inv, Unindexed, Acceptable;
    match op
    case DoAccept(id, run, owner, category, sensitivity, content, p) =>
      if Accept(r, s, id, run, owner, category, sensitivity, content, p).1 == Stored {
        AcceptKeeps(r, s, id, Fresh(r, s, owner, category, sensitivity, content, p, None), content);
      }
    case DoCorrect(id, newId, owner, content, p) =>
      if Correct(r, s, id, newId, owner, content, p).1 == Stored { CorrectKeeps(r, s, op); }
    case DoForget(id, owner, at) =>
      if Forget(s, id, owner, at).1 == Stored { ForgetKeeps(s, id, Forget(s, id, owner, at).0.items[id]); }
  }

  lemma {:induction false} HistoryKeeps(r: Rules, ops: seq<Op>)
    ensures Inv(History(r, ops))
  {
    hide Inv, Step;
    if ops != [] {
      HistoryKeeps(r, ops[..|ops| - 1]);
      StepKeeps(r, History(r, ops[..|ops| - 1]), ops[|ops| - 1]);
    } else {
      EmptyHolds();
    }
  }

  lemma EmptyHolds()
    ensures Inv(EMPTY_SHELF)
  {
  }

  // ---------- chains ----------

  // b replaced, in n corrections, what was once a.
  predicate Reaches(items: map<string, Item>, b: string, a: string, n: nat)
    decreases n
  {
    b in items &&
    if n == 0 then a == b
    else items[b].supersedes.Some? && Reaches(items, items[b].supersedes.value, a, n - 1)
  }

  lemma {:induction false} ChainDescends(s: Shelf, b: string, a: string, n: nat)
    requires ChainsOk(s) && Reaches(s.items, b, a, n)
    ensures a in s.items && s.items[a].ownerId == s.items[b].ownerId && s.items[a].category == s.items[b].category
    ensures s.items[a].sensitivity == s.items[b].sensitivity
    ensures n > 0 ==> s.items[a].born < s.items[b].born && s.items[a].status != Accepted
    decreases n
  {
    if n > 0 { ChainDescends(s, s.items[b].supersedes.value, a, n - 1); }
  }

  /** After any history: a chain of corrections never comes back to itself, keeps its
      owner, category and sensitivity, and has no accepted member but its newest. */
  lemma ChainsAreWellFormed(r: Rules, ops: seq<Op>, b: string, a: string, n: nat)
    requires Reaches(History(r, ops).items, b, a, n) && n > 0
    ensures var items := History(r, ops).items;
            && a in items && a != b && items[a].status != Accepted
            && items[a].ownerId == items[b].ownerId && items[a].category == items[b].category
            && items[a].sensitivity == items[b].sensitivity
  {
    HistoryKeeps(r, ops);
    ChainDescends(History(r, ops), b, a, n);
  }

  // Each memory is superseded at most once, in every history.
  lemma SupersededOnce(r: Rules, ops: seq<Op>, a: string, b: string)
    requires a in History(r, ops).items && b in History(r, ops).items
    requires History(r, ops).items[a].supersedes.Some?
    requires History(r, ops).items[a].supersedes == History(r, ops).items[b].supersedes
    ensures a == b
  {
    HistoryKeeps(r, ops);
  }

  // ---------- the index ----------

  // The rows a search joins: matching index rows of accepted memories of the owner.
  function Found(s: Shelf, matches: string -> bool, owner: string): set<string> {
    set k | 0 <= k < |s.index| && matches(s.index[k].content) && s.index[k].memoryId in s.items &&
            s.items[s.index[k].memoryId].ownerId == owner && s.items[s.index[k].memoryId].status == Accepted
          :: s.index[k].memoryId
  }

  /** After any history, a search finds exactly the owner's accepted memories whose own
      content matches: nothing superseded or forgotten, and nothing stale. */
  lemma SearchIsExact(r: Rules, ops: seq<Op>, matches: string -> bool, owner: string, id: string)
    ensures var s := History(r, ops);
            id in Found(s, matches, owner) <==>
            id in s.items && s.items[id].ownerId == owner && s.items[id].status == Accepted &&
            s.items[id].content.Some? && matches(s.items[id].content.value)
  {
    var s := History(r, ops);
    HistoryKeeps(r, ops);
    if id in s.items && s.items[id].status == Accepted && s.items[id].content.Some? {
      var k :| 0 <= k < |s.index| && s.index[k] == IndexRow(id, s.items[id].content.value);
    }
  }

  /** Accepting succeeds exactly for acceptable content under a new id.  The memory is then
      found by its own owner, in exactly the searches its content matches, and by nobody
      else; what any search found before it still finds.  A refusal changes nothing. */
  lemma AcceptedIsFound(r: Rules, s: Shelf, id: string, run: string, owner: string, category: string,
                        sensitivity: string, content: string, p: Provenance, matches: string -> bool, who: string)
    ensures var (s', answer) := Accept(r, s, id, run, owner, category, sensitivity, content, p);
            && (answer == Stored <==>
                  Acceptable(r, category, content, p) && run != "" && owner != "" && id !in s.items)
            && (answer != Stored ==> s' == s)
            && (answer == Stored && IndexAgrees(s) ==>
                  && id in s'.items && s'.items == s.items[id := s'.items[id]]
                  && s'.items[id].content == Some(content) && s'.items[id].provenance == Some(p.text)
                  && s'.items[id].supersedes == None && s'.items[id].status == Accepted
                  && s'.items[id].contentHash == r.hash(content) && s'.items[id].provenanceHash == r.hash(p.text)
                  && s'.items[id].ownerId == owner && s'.items[id].category == category
                  && s'.items[id].sensitivity == sensitivity
                  && (id in Found(s', matches, who) <==> who == owner && matches(content))
                  && forall other :: other != id ==> (other in Found(s', matches, who) <==> other in Found(s, matches, who)))
  {
    hide Found;
    var (s', answer) := Accept(r, s, id, run, owner, category, sensitivity, content, p);
    if answer == Stored && IndexAgrees(s) { InsertedIsFound(s, id, s'.items[id], content, matches, who); }
  }

  // A row for another memory stays in the index.
  lemma StaysIndexed(s: Shelf, id: string, items: map<string, Item>, n: nat, matches: string -> bool, who: string,
                     other: string)
    requires IndexAgrees(s) && other != id && other in s.items && other in items && items[other] == s.items[other]
    ensures other in Found(Shelf(items, Unindexed(s.index, id), n), matches, who) <==> other in Found(s, matches, who)
  {
    var kept := Unindexed(s.index, id);
    if other in Found(s, matches, who) {
      var k :| 0 <= k < |s.index| && s.index[k].memoryId == other && matches(s.index[k].content);
      assert s.index[k] in kept;
      var m :| 0 <= m < |kept| && kept[m] == s.index[k];
    }
    if other in Found(Shelf(items, kept, n), matches, who) {
      var m :| 0 <= m < |kept| && kept[m].memoryId == other && matches(kept[m].content);
      assert kept[m] in kept;
      var k :| 0 <= k < |s.index| && s.index[k] == kept[m];
    }
  }

  // Inserting one memory under a new id.
  lemma InsertedIsFound(s: Shelf, id: string, item: Item, content: string, matches: string -> bool, who: string)
    requires id !in s.items && item.status == Accepted
    requires forall k :: 0 <= k < |s.index| ==> s.index[k].memoryId in s.items
    ensures id in Found(Insert(s, id, item, content), matches, who) <==> who == item.ownerId && matches(content)
    ensures forall other :: other != id ==>
              (other in Found(Insert(s, id, item, content), matches, who) <==> other in Found(s, matches, who))
  {
    var s' := Insert(s, id, item, content);
    var n := |s.index|;
    assert s'.index[n] == IndexRow(id, content);
    forall k | 0 <= k < n ensures s'.index[k] == s.index[k] && s.index[k].memoryId in s.items {}
  }

  // A memory that is no longer accepted is in no search; every other one is where it was.
  lemma RemovedIsHidden(s: Shelf, id: string, item: Item, matches: string -> bool, who: string)
    requires IndexAgrees(s) && id in s.items && item.status != Accepted
    ensures var s' := s.(items := s.items[id := item], index := Unindexed(s.index, id));
            && (forall k :: 0 <= k < |s'.index| ==> s'.index[k].memoryId in s'.items)
            && id !in Found(s', matches, who)
            && forall other :: other != id ==> (other in Found(s', matches, who) <==> other in Found(s, matches, who))
  {
    var s' := s.(items := s.items[id := item], index := Unindexed(s.index, id));
    forall k | 0 <= k < |s'.index| ensures s'.index[k].memoryId in s.items { UnindexedRow(s, id, k); }
    forall other | other != id ensures other in Found(s', matches, who) <==> other in Found(s, matches, who) {
      if other in s.items { StaysIndexed(s, id, s'.items, s'.inserted, matches, who, other); }
    }
  }

  // The one reason, in the order of the source, for which a change of a memory is refused.
  predicate RefusedFor(s: Shelf, id: string, owner: string, answer: Answer) {
    && (answer == NoSuchMemory <==> id !in s.items)
    && (answer == NotTheOwner <==> id in s.items && s.items[id].ownerId != owner)
    && (answer == NotActive ==> id in s.items && s.items[id].status != Accepted)
    && (answer == AlreadyForgotten ==> id in s.items && s.items[id].status == Forgotten)
  }

  /** A correction succeeds exactly for an accepted memory of the owner, acceptable content
      that names a run, and a new id.  The old memory is then superseded and in no search;
      the new one has the given content, names the old one and takes over its owner,
      category and sensitivity; every other search result stays.  A refusal changes
      nothing. */
  lemma CorrectedIsFound(r: Rules, s: Shelf, id: string, newId: string, owner: string, content: string, p: Provenance,
                         matches: string -> bool, who: string)
    ensures var (s', answer) := Correct(r, s, id, newId, owner, content, p);
            && (answer == Stored <==>
                  id in s.items && s.items[id].ownerId == owner && s.items[id].status == Accepted &&
                  Acceptable(r, s.items[id].category, content, p) && p.runId != "" && owner != "" && newId !in s.items)
            && (answer != Stored ==> s' == s && RefusedFor(s, id, owner, answer))
            && (answer == Stored ==>
                  && id in s'.items && newId in s'.items && s'.items == s.items[id := s'.items[id]][newId := s'.items[newId]]
                  && s'.items[id] == s.items[id].(status := Superseded)
                  && var was, item := s.items[id], s'.items[newId];
                     && item.status == Accepted && item.content == Some(content) && item.contentHash == r.hash(content)
                     && item.provenance == Some(p.text) && item.provenanceHash == r.hash(p.text)
                     && item.supersedes == Some(id) && item.forgottenAt == None
                     && item.ownerId == was.ownerId && item.category == was.category && item.sensitivity == was.sensitivity)
            && (answer == Stored && IndexAgrees(s) ==>
                  && id !in Found(s', matches, who)
                  && (newId in Found(s', matches, who) <==> who == owner && matches(content))
                  && forall other :: other !in {id, newId} ==>
                       (other in Found(s', matches, who) <==> other in Found(s, matches, who)))
  {
    hide Unindexed, Found, Acceptable, IndexAgrees;
    var (s', answer) := Correct(r, s, id, newId, owner, content, p);
    if answer == Stored && IndexAgrees(s) {
      RemovedIsHidden(s, id, s.items[id].(status := Superseded), matches, who);
      InsertedIsFound(Retired(s, id), newId, s'.items[newId], content, matches, who);
    }
  }

  /** Forgetting succeeds exactly for a memory of the owner, accepted or superseded, that
      was not forgotten before.  It keeps neither content nor provenance but both hashes,
      and is in no search; everything else stays.  A refusal changes nothing. */
  lemma ForgettingRemoves(s: Shelf, id: string, owner: string, at: Time, matches: string -> bool, who: string)
    ensures var (s', answer) := Forget(s, id, owner, at);
            && (answer == Stored <==>
                  id in s.items && s.items[id].ownerId == owner && s.items[id].status != Forgotten && owner != "")
            && (answer != Stored ==> s' == s && RefusedFor(s, id, owner, answer))
            && (answer == Stored ==>
                  && id in s'.items && s'.items == s.items[id := s'.items[id]]
                  && var was, item := s.items[id], s'.items[id];
                     && item.status == Forgotten && item.content == None && item.provenance == None
                     && item.forgottenAt == Some(at) && item.contentHash == was.contentHash
                     && item.provenanceHash == was.provenanceHash && item.supersedes == was.supersedes
                     && item.ownerId == was.ownerId && item.category == was.category && item.sensitivity == was.sensitivity)
            && (answer == Stored && IndexAgrees(s) ==>
                  && id !in Found(s', matches, who)
                  && forall other :: other != id ==> (other in Found(s', matches, who) <==> other in Found(s, matches, who)))
  {
    hide Unindexed, Found, IndexAgrees;
    var (s', answer) := Forget(s, id, owner, at);
    if answer == Stored && IndexAgrees(s) {
      RemovedIsHidden(s, id, s'.items[id], matches, who);
    }
  }

  // Stored content is not blank, passes the redactor unchanged and is hashed with its
  // provenance; its category is one of four.
  predicate Clean(r: Rules, item: Item) {
    && item.category in {"FACT", "OUTCOME", "OWNER_FEEDBACK", "IMPROVEMENT_CANDIDATE"} && item.ownerId != ""
    && (item.content.Some? ==>
          !r.blank(item.content.value) && r.redact(item.content.value) == item.content.value &&
          item.contentHash == r.hash(item.content.value))
    && (item.provenance.Some? ==> item.provenanceHash == r.hash(item.provenance.value))
  }

  /** In every history, what is stored was fit to be stored: no memory ever holds a content
      that the redactor would change. */
  lemma {:induction false} NoSecretsAreStored(r: Rules, ops: seq<Op>, id: string)
    requires id in History(r, ops).items
    ensures Clean(r, History(r, ops).items[id])
    decreases ops
  {
    hide Clean, Step, Unindexed;
    var before := ops[..|ops| - 1];
    var s := History(r, before);
    forall x | x in s.items ensures Clean(r, s.items[x]) { NoSecretsAreStored(r, before, x); }
    StepIsClean(r, s, ops[|ops| - 1], id);
  }

  lemma StepIsClean(r: Rules, s: Shelf, op: Op, id: string)
    requires id in Step(r, s, op).items && forall x :: x in s.items ==> Clean(r, s.items[x])
    ensures Clean(r, Step(r, s, op).items[id])
  {
    hide Unindexed;
  }

  /** Forgotten memories hold no content and no provenance, and have no index row. */
  lemma ForgottenIsGone(r: Rules, ops: seq<Op>, id: string)
    requires id in History(r, ops).items && History(r, ops).items[id].status == Forgotten
    ensures var s := History(r, ops);
            && s.items[id].content.None? && s.items[id].provenance.None?
            && forall k :: 0 <= k < |s.index| ==> s.index[k].memoryId != id
  {
    HistoryKeeps(r, ops);
  }

  // ---------- the repository ----------

  class Repository {
    const rules: Rules
    var items: map<string, Item>
    var index: seq<IndexRow>
    var inserted: nat

    function Value(): Shelf
      reads this
    {
      Shelf(items, index, inserted)
    }

    constructor (r: Rules)
      ensures Value() == EMPTY_SHELF && rules == r
    {
      rules, items, index, inserted := r, map[], [], 0;
    }

    method DeleteIndexRows(id: string)
      modifies this`index
      ensures index == Unindexed(old(index), id)
    {
      var kept: seq<IndexRow> := [];
      var i := 0;
      while i < |index|
        invariant 0 <= i <= |index| && index == old(index)
        invariant kept + Unindexed(index[i..], id) == Unindexed(index, id)
      {
        assert index[i..][1..] == index[i + 1..];
        if index[i].memoryId != id { kept := kept + [index[i]]; }
        i := i + 1;
      }
      index := kept;
    }

    method AcceptNow(id: string, run: string, owner: string, category: string, sensitivity: string, content: string,
                     p: Provenance) returns (answer: Answer)
      modifies this
      ensures (Value(), answer) == Accept(rules, old(Value()), id, run, owner, category, sensitivity, content, p)
    {
      if !Acceptable(rules, category, content, p) || run == "" || owner == "" { return Invalid; }
      if id in items { return Duplicate; }
      items := items[id := Fresh(rules, Value(), owner, category, sensitivity, content, p, None)];
      index := index + [IndexRow(id, content)];
      inserted := inserted + 1;
      answer := Stored;
    }

    method CorrectNow(id: string, newId: string, owner: string, content: string, p: Provenance) returns (answer: Answer)
      modifies this
      ensures (Value(), answer) == Correct(rules, old(Value()), id, newId, owner, content, p)
    {
      if id !in items { return NoSuchMemory; }
      var current := items[id];
      if current.ownerId != owner { return NotTheOwner; }
      if current.status != Accepted { return NotActive; }
      if !Acceptable(rules, current.category, content, p) || p.runId == "" || owner == "" { return Invalid; }
      if newId in items { return Duplicate; }
      var item := Fresh(rules, Value(), owner, current.category, current.sensitivity, content, p, Some(id));
      items := items[id := current.(status := Superseded)];
      DeleteIndexRows(id);
      items := items[newId := item];
      index := index + [IndexRow(newId, content)];
      inserted := inserted + 1;
      answer := Stored;
    }

    method ForgetNow(id: string, owner: string, at: Time) returns (answer: Answer)
      modifies this
      ensures (Value(), answer) == Forget(old(Value()), id, owner, at)
    {
      if id !in items { return NoSuchMemory; }
      var current := items[id];
      if current.ownerId != owner { return NotTheOwner; }
      if current.status == Forgotten { return AlreadyForgotten; }
      if owner == "" { return Invalid; }
      items := items[id := current.(content := None, provenance := None, status := Forgotten, forgottenAt := Some(at))];
      DeleteIndexRows(id);
      answer := Stored;
    }
  }
}
