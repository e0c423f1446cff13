/** A flat sandbox directory with names, contents and link counts, the no-overwrite
    installation of a new file in it, and the bounded reader. */
module Files {
  import opened Domain

  type Inode = nat

  datatype Directory = Directory(names: map<string, Inode>, data: map<Inode, Bytes>)

  predicate Intact(d: Directory) { forall n :: n in d.names ==> d.names[n] in d.data }

  function NamesOf(d: Directory, i: Inode): set<string> { set n | n in d.names && d.names[n] == i }

  // st_nlink
  function LinkCount(d: Directory, i: Inode): nat { |NamesOf(d, i)| }

  // ---------- what the system calls do ----------

  function Created(d: Directory, name: string, i: Inode): Directory {
    Directory(d.names[name := i], d.data[i := []])
  }

  function Extended(d: Directory, i: Inode, more: Bytes): Directory
    requires i in d.data
  {
    d.(data := d.data[i := d.data[i] + more])
  }

  function Linked(d: Directory, source: string, target: string): Directory
    requires source in d.names
  {
    d.(names := d.names[target := d.names[source]])
  }

  function Unlinked(d: Directory, name: string): Directory { d.(names := d.names - {name}) }

  // Anyone else may add and remove any names, except that the random temporary name is
  // ours alone, and existing contents are not rewritten in place.
  ghost predicate Interference(d: Directory, d': Directory, temp: string) {
    && (Intact(d) ==> Intact(d'))
    && (temp in d.names <==> temp in d'.names) && (temp in d.names ==> d.names[temp] == d'.names[temp])
    && forall i :: i in d.data ==> i in d'.data && d'.data[i] == d.data[i]
  }

  // One of our own steps: no entry but the temporary one disappears or changes, no
  // content but that of our own file changes, and nothing but the target is added.
  ghost predicate OwnStep(d: Directory, d': Directory, temp: string, target: string) {
    && (forall n :: n in d.names && n != temp ==> n in d'.names && d'.names[n] == d.names[n])
    && (forall n :: n in d'.names && n !in d.names ==> n == temp || n == target)
    && (forall i :: i in d.data && !(temp in d.names && d.names[temp] == i) ==> i in d'.data && d'.data[i] == d.data[i])
  }

  // A step that makes the target appear, holding exactly the content.
  ghost predicate Installs(d: Directory, d': Directory, target: string, content: Bytes) {
    && target !in d.names && target in d'.names
    && d'.names[target] in d'.data && d'.data[d'.names[target]] == content
  }

  // ---------- link counts ----------

  /** Installing by link takes the file from one name to two, and dropping the
      temporary name takes it back to one: a crash in between leaves two. */
  lemma LinkCounts(d: Directory, temp: string, target: string)
    requires temp in d.names && target !in d.names && LinkCount(d, d.names[temp]) == 1
    ensures var i := d.names[temp];
            && LinkCount(Linked(d, temp, target), i) == 2
            && LinkCount(Unlinked(Linked(d, temp, target), temp), i) == 1
            && Unlinked(Linked(d, temp, target), temp).names == (d.names - {temp})[target := i]
  {
    var i, linked := d.names[temp], Linked(d, temp, target);
    var only :| NamesOf(d, i) == {only} by { OneMember(NamesOf(d, i)); }
    assert temp in NamesOf(d, i);
    assert NamesOf(linked, i) == {temp, target};
    assert NamesOf(Unlinked(linked, temp), i) == {target};
  }

  lemma OneMember(s: set<string>)
    requires |s| == 1
    ensures exists x :: s == {x}
  {
    var x :| x in s;
    assert |s - {x}| == 0;
    assert s == {x};
  }

  // ---------- the installer ----------

  datatype Outcome = Returned | Violation | OsFailure | PrecommitRaised | UncertainOutcome

  // What happens around each of the numbered steps of a call: who interferes, which
  // system calls fail, how much each write transfers, and the inode of a new file.
  datatype Schedule = Schedule(
    others: (nat, Directory) -> Directory, fails: nat -> bool, unsupported: nat -> bool,
    written: nat -> int, inode: Directory -> Inode)

  ghost predicate Admissible(s: Schedule, temp: string) {
    (forall k, d :: Interference(d, s.others(k, d), temp)) && forall d :: s.inode(d) !in d.data
  }

  // Nobody interferes, no call fails, and every write transfers something.
  ghost predicate Quiet(s: Schedule) {
    (forall k: nat, d :: s.others(k, d) == d) && forall k: nat :: !s.fails(k) && s.written(k) > 0
  }

  datatype Pair = Pair(before: Directory, after: Directory)

  // A directory with one more file, under the temporary name.
  ghost predicate Staged(d: Directory, d': Directory, temp: string, content: Bytes) {
    exists i: Inode :: i !in d.data && d' == Directory(d.names[temp := i], d.data[i := content])
  }

  class Parent {
    var dir: Directory
    var step: nat
    const temp: string
    const target: string
    const schedule: Schedule
    ghost var own: seq<Pair>

    ghost predicate Valid()
      reads this
    {
      && temp != target && Admissible(schedule, temp) && Intact(dir)
      && forall k :: 0 <= k < |own| ==> OwnStep(own[k].before, own[k].after, temp, target)
    }

    // No own step but possibly the k-th made the target appear.
    ghost predicate UntouchedBut(k: int)
      reads this
    {
      forall l :: 0 <= l < |own| && l != k ==> target in own[l].before.names || target !in own[l].after.names
    }

    ghost predicate TargetUntouched()
      reads this
    {
      UntouchedBut(-1)
    }

    // The k-th own step, and no other, installed the target with this content.
    ghost predicate InstalledAt(k: int, content: Bytes)
      reads this
    {
      0 <= k < |own| && Installs(own[k].before, own[k].after, target, content) && UntouchedBut(k)
    }

    constructor (d: Directory, tempName: string, targetName: string, s: Schedule)
      requires Intact(d) && tempName != targetName && Admissible(s, tempName)
      ensures Valid() && dir == d && temp == tempName && target == targetName && schedule == s && own == []
    {
      dir, step, temp, target, schedule, own := d, 0, tempName, targetName, s, [];
    }

    // The others run before every system call; the call itself then fails or not.
    method Enter() returns (ok: bool)
      requires Valid()
      modifies this`dir, this`step
      ensures Valid() && Interference(old(dir), dir, temp)
      ensures Quiet(schedule) ==> ok && dir == old(dir)
      ensures step == old(step) + 1 && (ok <==> !schedule.fails(old(step)))
    {
      dir := schedule.others(step, dir);
      ok := !schedule.fails(step);
      step := step + 1;
    }

    method Perform(d: Directory)
      requires Valid() && Intact(d) && OwnStep(dir, d, temp, target)
      modifies this`dir, this`own
      ensures Valid() && dir == d && own == old(own) + [Pair(old(dir), d)]
    {
      own := own + [Pair(dir, d)];
      dir := d;
    }

    /** _write_all: for every schedule of positive transfers the file ends up holding
        exactly the content; it stops at the first transfer that is not positive. */
    method WriteAll(i: Inode, content: Bytes) returns (ok: bool)
      requires Valid() && temp in dir.names && dir.names[temp] == i && dir.data[i] == []
      modifies this`dir, this`step, this`own
      ensures Valid() && temp in dir.names && dir.names[temp] == i
      ensures old(own) <= own && (old(TargetUntouched()) ==> TargetUntouched())
      ensures dir.data[i] <= content && (ok <==> dir.data[i] == content)
      ensures Quiet(schedule) ==> ok && dir == old(dir).(data := old(dir).data[i := content])
    {
      var view := content;
      while view != []
        invariant Valid() && temp in dir.names && dir.names[temp] == i
        invariant old(own) <= own && (old(TargetUntouched()) ==> TargetUntouched())
        invariant dir.data[i] + view == content
        invariant Quiet(schedule) ==> dir == old(dir).(data := old(dir).data[i := dir.data[i]])
        decreases |view|
      {
        var at := step;
        var alive := Enter();
        var written := schedule.written(at);
        if !alive || written <= 0 { return false; }
        if written > |view| { written := |view|; }
        ghost var done := dir.data[i];
        Perform(Extended(dir, i, view[..written]));
        assert done + view[..written] + view[written..] == done + view;
        view := view[written..];
      }
      ok := true;
    }

    // _require_absent
    method RequireAbsent() returns (absent: bool)
      requires Valid()
      modifies this`dir, this`step
      ensures Valid() && Interference(old(dir), dir, temp) && (absent ==> target !in dir.names)
      ensures Quiet(schedule) ==> dir == old(dir) && (absent <==> target !in dir.names)
    {
      var ok := Enter();
      absent := ok && target !in dir.names;
    }

    // os.open with O_CREAT | O_EXCL
    method CreateTemp() returns (i: Option<Inode>)
      requires Valid() && TargetUntouched()
      modifies this`dir, this`step, this`own
      ensures Valid() && old(own) <= own && TargetUntouched()
      ensures i.Some? ==> temp in dir.names && dir.names[temp] == i.value && dir.data[i.value] == [] &&
                          LinkCount(dir, i.value) == 1
      ensures Quiet(schedule) && temp !in old(dir).names ==>
                i.Some? && i.value !in old(dir).data && dir == Created(old(dir), temp, i.value)
    {
      var ok := Enter();
      if !ok || temp in dir.names { return None; }
      var node := schedule.inode(dir);
      var d := Created(dir, temp, node);
      assert NamesOf(d, node) == {temp};
      Perform(d);
      i := Some(node);
    }

    // os.link without following links: it never replaces an entry
    method LinkTarget(content: Bytes) returns (result: Outcome)
      requires Valid() && TargetUntouched()
      requires temp in dir.names && dir.data[dir.names[temp]] == content
      modifies this`dir, this`step, this`own
      ensures Valid() && old(own) <= own && temp in dir.names
      ensures result.Returned? || result.Violation? || result.OsFailure?
      ensures !result.Returned? ==> TargetUntouched()
      ensures result.Returned? ==> InstalledAt(|own| - 1, content)
      ensures Quiet(schedule) && target !in old(dir).names ==> result.Returned? && dir == Linked(old(dir), temp, target)
      ensures step == old(step) + 1
      ensures result.Violation? ==> target in dir.names || (schedule.fails(old(step)) && schedule.unsupported(old(step)))
      ensures result.OsFailure? ==> schedule.fails(old(step)) && !schedule.unsupported(old(step))
    {
      var at := step;
      var ok := Enter();
      if target in dir.names { return Violation; }
      if !ok { return if schedule.unsupported(at) then Violation else OsFailure; }
      Perform(Linked(dir, temp, target));
      result := Returned;
    }

    // The finally clause: a failing unlink is swallowed and leaves the temporary name.
    method DropTemp() returns (gone: bool)
      requires Valid()
      modifies this`dir, this`step, this`own
      ensures Valid() && (gone <==> temp !in dir.names)
      ensures old(own) <= own && forall k :: old(UntouchedBut(k)) ==> UntouchedBut(k)
      ensures Quiet(schedule) ==> gone && dir == Unlinked(old(dir), temp)
      ensures step == old(step) + 1
    {
      var ok := Enter();
      ghost var before := own;
      if ok && temp in dir.names {
        Perform(Unlinked(dir, temp));
        assert target in own[|before|].before.names || target !in own[|before|].after.names;
      }
      gone := temp !in dir.names;
    }

    // Everything up to the moment before the commit: the temporary file holds the content,
    // had no other name when it was looked at, and the target is not there.
    method Prepare(content: Bytes, precommitOk: bool) returns (result: Outcome, created: bool, ghost at: Directory)
      requires Valid() && own == []
      modifies this`dir, this`step, this`own
      ensures Valid() && TargetUntouched()
      ensures !result.UncertainOutcome?
      ensures result.Returned? ==>
                && precommitOk && created && temp in dir.names && dir.data[dir.names[temp]] == content
                && target !in dir.names && Interference(at, dir, temp)
                && temp in at.names && LinkCount(at, at.names[temp]) == 1
      ensures result.PrecommitRaised? ==> !precommitOk && created
      ensures Quiet(schedule) && temp !in old(dir).names ==>
                if target in old(dir).names then result.Violation? && !created && dir == old(dir)
                else result == (if precommitOk then Returned else PrecommitRaised) && created &&
                     Staged(old(dir), dir, temp, content)
    {
      created, at := false, dir;
      var absent := RequireAbsent();
      if !absent { return Violation, false, dir; }
      var i := CreateTemp();
      if i.None? { return OsFailure, false, dir; }
      created := true;
      var written := WriteAll(i.value, content);
      if !written { return OsFailure, true, dir; }
      var synced := Enter();
      if !synced { return OsFailure, true, dir; }
      at := dir;
      if LinkCount(dir, i.value) != 1 { return Violation, true, dir; }
      if !precommitOk { return PrecommitRaised, true, dir; }
      absent := RequireAbsent();
      result := if absent then Returned else Violation;
    }

    // The link and the fsync after it; at is the installing step, if there is one.
    method Commit(content: Bytes) returns (result: Outcome, ghost at: int)
      requires Valid() && TargetUntouched()
      requires temp in dir.names && dir.data[dir.names[temp]] == content
      modifies this`dir, this`step, this`own
      ensures Valid() && UntouchedBut(at)
      ensures result.Returned? || result.UncertainOutcome? ==> InstalledAt(at, content)
      ensures !(result.Returned? || result.UncertainOutcome?) ==> at == -1
      ensures !result.PrecommitRaised?
      ensures step > 0 && (result.Returned? ==> !schedule.fails(step - 1))
      ensures result.UncertainOutcome? ==> schedule.fails(step - 1)
      ensures Quiet(schedule) && target !in old(dir).names ==> result.Returned? && dir == Linked(old(dir), temp, target)
    {
      at := -1;
      result := LinkTarget(content);
      if result.Returned? {
        at := |own| - 1;
        var synced := Enter();
        result := if synced then Returned else UncertainOutcome;
      }
    }

    /** atomic_write_new.  Whatever others add or remove between any two steps and
        whichever calls fail: no step of this call alters an existing entry; the target
        was installed by this call, once and with exactly the content, when it returns
        normally or reports an uncertain outcome, and by no step of it otherwise.  When
        nothing interferes and nothing fails, it returns exactly for an absent target whose
        precommit check passes, and adds the target and nothing else.  The last call
        but one, which makes the new entry durable, tells a return from an uncertain
        outcome. */
    method AtomicWriteNew(content: Bytes, precommitOk: bool) returns (result: Outcome, leftover: bool)
      requires Valid() && own == []
      modifies this`dir, this`step, this`own
      ensures Valid()
      ensures (result.Returned? || result.UncertainOutcome?) ==>
                precommitOk && exists k :: InstalledAt(k, content)
      ensures !(result.Returned? || result.UncertainOutcome?) ==> TargetUntouched()
      ensures leftover ==> temp in dir.names
      ensures result.PrecommitRaised? ==> !precommitOk
      ensures result.Returned? ==> step > 1 && !schedule.fails(step - 2)
      ensures result.UncertainOutcome? ==> step > 1 && schedule.fails(step - 2)
      ensures Quiet(schedule) && temp !in old(dir).names ==>
                && !leftover
                && result == (if target in old(dir).names then Violation
                              else if precommitOk then Returned else PrecommitRaised)
                && (!result.Returned? ==> dir.names == old(dir).names)
                && (result.Returned? ==> Installs(old(dir), dir, target, content) && dir.names - {target} == old(dir).names)
    {
      var created;
      ghost var at := -1;
      leftover := false;
      ghost var looked;
      result, created, looked := Prepare(content, precommitOk);
      if result.Returned? { result, at := Commit(content); }
      if created {
        var gone := DropTemp();
        leftover := !gone;
      }
      assert at != -1 ==> InstalledAt(at, content);
    }
  }

  // ---------- reading ----------

  /** _read_bounded and the loop of fs.read: for every schedule of short reads, the
      whole stream, or nothing exactly when it is longer than the maximum. */
  method ReadBounded(stream: Bytes, maximum: nat, chunk: nat -> nat) returns (r: Option<Bytes>)
    ensures r == if |stream| > maximum then None else Some(stream)
  {
    var content, remaining, k := [], maximum + 1, 0;
    while remaining > 0
      invariant |content| <= |stream| && content == stream[..|content|]
      invariant remaining == maximum + 1 - |content|
      decreases remaining
    {
      var left := |stream| - |content|;
      // at least one byte unless the stream has ended
      var n := if left == 0 then 0 else Least(Least(65_536, remaining), Least(left, 1 + chunk(k)));
      if n == 0 { break; }
      content := content + stream[|content|..|content| + n];
      remaining, k := remaining - n, k + 1;
    }
    if |content| > maximum { return None; }
    assert content == stream[..|stream|] == stream;
    r := Some(content);
  }

  function Least(a: nat, b: nat): nat { if a < b then a else b }

  // What open_regular_file_fd lets a reader see: a file with exactly one name.
  function Readable(d: Directory, name: string): Option<Bytes> {
    if name in d.names && d.names[name] in d.data && LinkCount(d, d.names[name]) == 1
    then Some(d.data[d.names[name]]) else None
  }
}
